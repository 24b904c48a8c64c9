/** Crop selection of the dewarp engine's source queue, in the arithmetic the code uses: 32-bit registers,
    UQ16.16 scales, and a signed position added to an unsigned offset. */
module Crop {
  const MIN_W := 176
  const MIN_H := 144
  const MAX_W := 4096
  const MAX_H := 3072

  const TWO16 := 0x1_0000
  const TWO31 := 0x8000_0000
  const TWO32 := 0x1_0000_0000

  const FLAG_GE := 1
  const FLAG_LE := 2

  datatype Error = Einval | Erange

  datatype Result<T> = Ok(value: T) | Err(error: Error)

  datatype Rect = Rect(left: int, top: int, width: int, height: int)

  datatype Frame = Frame(width: int, height: int)

  /** The sizes a format can be set to. */
  predicate Possible(f: Frame) {
    MIN_W <= f.width <= MAX_W && MIN_H <= f.height <= MAX_H
  }

  /** The position fields are signed, the size fields unsigned 32-bit numbers. */
  predicate Representable(r: Rect) {
    && -TWO31 <= r.left < TWO31 && -TWO31 <= r.top < TWO31
    && 0 <= r.width < TWO32 && 0 <= r.height < TWO32
  }

  function U32(x: int): int {
    x % TWO32
  }

  function S32(x: int): int {
    if U32(x) >= TWO31 then U32(x) - TWO32 else U32(x)
  }

  function Min(a: int, b: int): int {
    if a <= b then a else b
  }

  function Max(a: int, b: int): int {
    if a >= b then a else b
  }

  function Clamp(x: int, low: int, high: int): int {
    Min(Max(x, low), high)
  }

  function Clamped(f: Frame, r: Rect): Rect {
    var top := Clamp(r.top, 0, U32(f.height - MIN_H));
    var left := Clamp(r.left, 0, U32(f.width - MIN_W));
    Rect(left, top, Clamp(r.width, MIN_W, U32(f.width - left)), Clamp(r.height, MIN_H, U32(f.height - top)))
  }

  /** The UQ16.16 ratio of a size to the frame's. */
  function Scale(size: int, frame: int): int
    requires frame > 0
  {
    U32(size * TWO16) / frame
  }

  function ChooseScale(flags: int, qx: int, qy: int): Result<int> {
    if qx == qy then Ok(qx)
    else if flags == 0 then Ok(U32(qx + qy) / 2)
    else if flags == FLAG_GE then Ok(Max(qy, qx))
    else if flags == FLAG_LE then Ok(Min(qy, qx))
    else if flags == FLAG_GE + FLAG_LE then Err(Erange)
    else Err(Einval)
  }

  /** A frame size times a scale, shifted down out of a 64-bit product. */
  function Extent(frame: int, q: int): int {
    U32(frame * TWO16 * q / TWO32)
  }

  /** The new position along one axis: the offset is unsigned, the sum is read back as signed. */
  function Position(start: int, size: int, extent: int, frame: int): int {
    var moved := S32(U32(start) + U32(size - extent) / 2);
    Min(U32(frame - extent), Max(0, moved))
  }

  /** dw100_s_selection() for the crop target: the rectangle it stores. */
  function Select(f: Frame, flags: int, r: Rect): Result<Rect>
    requires Possible(f)
  {
    var c := Clamped(f, r);
    match ChooseScale(flags, Scale(c.width, f.width), Scale(c.height, f.height))
    case Err(e) => Err(e)
    case Ok(q) =>
      var w, h := Extent(f.width, q), Extent(f.height, q);
      Ok(Rect(Position(c.left, c.width, w, f.width), Position(c.top, c.height, h, f.height), w, h))
  }

  // ----- the class -----

  datatype Target = CropTarget | OtherTarget

  class SourceQueue {
    const frame: Frame
    var crop: Rect

    constructor (f: Frame)
      requires Possible(f)
      ensures Possible(frame) && frame == f && crop == Rect(0, 0, f.width, f.height)
    {
      frame := f;
      crop := Rect(0, 0, f.width, f.height);
    }
  }

  class Selection {
    const isOutput: bool
    const target: Target
    const flags: int
    var r: Rect

    constructor (isOutput: bool, target: Target, flags: int, r: Rect)
      ensures this.isOutput == isOutput && this.target == target && this.flags == flags && this.r == r
    {
      this.isOutput, this.target, this.flags, this.r := isOutput, target, flags, r;
    }
  }

  /** dw100_s_selection().  A refusal leaves the queue's crop as it was; the request is clamped even so. */
  method SetSelection(queue: SourceQueue, sel: Selection) returns (ret: Result<()>)
    requires Possible(queue.frame)
    modifies queue`crop, sel`r
    ensures ret.Ok? <==> sel.isOutput && sel.target == CropTarget && Select(queue.frame, sel.flags, old(sel.r)).Ok?
    ensures ret.Ok? ==> Select(queue.frame, sel.flags, old(sel.r)) == Ok(queue.crop) && sel.r == queue.crop
    ensures ret.Err? ==> queue.crop == old(queue.crop)
    ensures sel.isOutput && sel.target == CropTarget && ret.Err? ==>
              Select(queue.frame, sel.flags, old(sel.r)) == Err(ret.error) && sel.r == Clamped(queue.frame, old(sel.r))
    ensures !sel.isOutput || sel.target != CropTarget ==> ret == Err(Einval) && sel.r == old(sel.r)
  {
    hide U32, S32, Clamp, Scale, Extent, Max;
    if !sel.isOutput || sel.target != CropTarget {
      return Err(Einval);
    }
    var wframe, hframe := queue.frame.width, queue.frame.height;
    sel.r := sel.r.(top := Clamp(sel.r.top, 0, U32(hframe - MIN_H)));
    sel.r := sel.r.(left := Clamp(sel.r.left, 0, U32(wframe - MIN_W)));
    sel.r := sel.r.(height := Clamp(sel.r.height, MIN_H, U32(hframe - sel.r.top)));
    sel.r := sel.r.(width := Clamp(sel.r.width, MIN_W, U32(wframe - sel.r.left)));
    var qscalex, qscaley := Scale(sel.r.width, wframe), Scale(sel.r.height, hframe);
    var x, y, qscale := sel.r.left, sel.r.top, 0;
    if qscalex == qscaley {
      qscale := qscalex;
    } else if sel.flags == 0 {
      qscale := U32(qscalex + qscaley) / 2;
    } else if sel.flags == FLAG_GE {
      qscale := Max(qscaley, qscalex);
    } else if sel.flags == FLAG_LE {
      qscale := Min(qscaley, qscalex);
    } else if sel.flags == FLAG_GE + FLAG_LE {
      return Err(Erange);
    } else {
      return Err(Einval);
    }
    var w, h := Extent(wframe, qscale), Extent(hframe, qscale);
    x := S32(U32(x) + U32(sel.r.width - w) / 2);
    y := S32(U32(y) + U32(sel.r.height - h) / 2);
    x := Min(U32(wframe - w), Max(0, x));
    y := Min(U32(hframe - h), Max(0, y));
    sel.r := Rect(x, y, w, h);
    queue.crop := sel.r;
    ret := Ok(());
  }

  // ----- what is stored -----

  lemma DivideFacts(n: int, d: int)
    requires n >= 0 && d > 0
    ensures 0 <= n / d && n / d * d <= n < n / d * d + d
  {
  }

  lemma MulMonotone(a: int, b: int, k: int)
    requires a <= b && k >= 0
    ensures a * k <= b * k
  {
  }

  /** A scale is the largest fixed-point ratio not above the true one, and at most one. */
  lemma ScaleBounds(size: int, frame: int)
    requires 0 <= size <= frame <= MAX_W && frame > 0
    ensures var q := Scale(size, frame); 0 <= q <= TWO16 && q * frame <= size * TWO16 < q * frame + frame
  {
    DivideFacts(size * TWO16, frame);
    var q := Scale(size, frame);
    if q > TWO16 {
      MulMonotone(TWO16 + 1, q, frame);
    }
  }

  /** An extent is the frame size scaled down and rounded down; no product leaves its register. */
  lemma ExtentBounds(frame: int, q: int)
    requires 0 < frame <= MAX_W && 0 <= q <= TWO16
    ensures var w := Extent(frame, q); 0 <= w <= frame && w * TWO16 <= frame * q < w * TWO16 + TWO16
    ensures frame * TWO16 * q < 0x1_0000_0000_0000_0000
  {
    var p := frame * q;
    MulMonotone(q, TWO16, frame);
    assert frame * TWO16 * q == p * TWO16;
    DivideFacts(p * TWO16, TWO32);
  }

  lemma Unsigned(x: int)
    ensures 0 <= x < TWO32 ==> U32(x) == x
    ensures -TWO32 <= x < 0 ==> U32(x) == x + TWO32
  {
  }

  lemma Signed(x: int)
    ensures 0 <= x < TWO31 ==> S32(x) == x
    ensures TWO31 <= x < TWO32 ==> S32(x) < 0
  {
  }

  /** Where an extent ends up.  When it is no larger than the request, it is centred on it.  When it is
      larger, the unsigned half offset carries it to an edge of the frame instead: to the start when the
      request began at least half the growth in, to the end otherwise. */
  lemma PositionIs(start: int, size: int, extent: int, frame: int)
    requires 0 <= start && 0 <= size && start + size <= frame <= MAX_W && 0 <= extent <= frame
    ensures var p, grown := Position(start, size, extent, frame), extent - size;
            && 0 <= p <= frame - extent
            && (extent <= size ==> p == start + (size - extent) / 2)
            && (extent > size ==> p == if start >= (grown + 1) / 2 then 0 else frame - extent)
  {
    hide U32, S32;
    Unsigned(start);
    Unsigned(size - extent);
    Unsigned(frame - extent);
    Signed(start + U32(size - extent) / 2);
    if extent > size {
      assert U32(size - extent) / 2 == TWO31 - (extent - size + 1) / 2;
    }
  }

  lemma ClampedIsInside(f: Frame, r: Rect)
    requires Possible(f)
    ensures var c := Clamped(f, r);
            && 0 <= c.left && 0 <= c.top
            && MIN_W <= c.width <= f.width - c.left && MIN_H <= c.height <= f.height - c.top
  {
  }

  /** The clamp moves a request as little as it must: what lies in the frame and is not too small is kept, a corner
      outside is brought to the nearest place that leaves room for the smallest size, and a side is then cut or
      stretched to what is left. */
  lemma ClampedIsNearest(f: Frame, r: Rect)
    requires Possible(f)
    ensures var c := Clamped(f, r);
            && c.left == (if r.left < 0 then 0 else if r.left > f.width - MIN_W then f.width - MIN_W else r.left)
            && c.top == (if r.top < 0 then 0 else if r.top > f.height - MIN_H then f.height - MIN_H else r.top)
            && c.width == (if r.width < MIN_W then MIN_W
                           else if c.left + r.width > f.width then f.width - c.left else r.width)
            && c.height == (if r.height < MIN_H then MIN_H
                            else if c.top + r.height > f.height then f.height - c.top else r.height)
  {
  }

  lemma ChosenScale(f: Frame, flags: int, r: Rect)
    requires Possible(f)
    ensures var c := Clamped(f, r);
            var q := ChooseScale(flags, Scale(c.width, f.width), Scale(c.height, f.height));
            q.Ok? ==> 0 <= q.value <= TWO16
  {
    hide Scale, Clamped, U32;
    var c := Clamped(f, r);
    ClampedIsInside(f, r);
    ScaleBounds(c.width, f.width);
    ScaleBounds(c.height, f.height);
    Unsigned(Scale(c.width, f.width) + Scale(c.height, f.height));
  }

  predicate Inside(inner: Rect, outer: Rect) {
    && outer.left <= inner.left && inner.left + inner.width <= outer.left + outer.width
    && outer.top <= inner.top && inner.top + inner.height <= outer.top + outer.height
  }

  function Whole(f: Frame): Rect {
    Rect(0, 0, f.width, f.height)
  }

  /** The frame, shrunk by one exact factor and rounded down in each direction. */
  ghost predicate KeepsAspect(f: Frame, c: Rect) {
    exists q :: 0 <= q <= TWO16 && ShrunkBy(f.width, c.width, q) && ShrunkBy(f.height, c.height, q)
  }

  predicate ShrunkBy(frame: int, size: int, q: int) {
    size * TWO16 <= frame * q < size * TWO16 + TWO16
  }

  /** Every stored rectangle lies in the frame and is the frame shrunk by one factor, each side less than a
      pixel short of it. */
  lemma SelectInsideFrame(f: Frame, flags: int, r: Rect)
    requires Possible(f)
    ensures var s := Select(f, flags, r); s.Ok? ==> Inside(s.value, Whole(f)) && KeepsAspect(f, s.value)
  {
    hide Extent, Scale, Position, Clamped;
    if Select(f, flags, r).Err? {
      return;
    }
    var c := Clamped(f, r);
    var q := ChooseScale(flags, Scale(c.width, f.width), Scale(c.height, f.height)).value;
    ClampedIsInside(f, r);
    ChosenScale(f, flags, r);
    ExtentBounds(f.width, q);
    ExtentBounds(f.height, q);
    PositionIs(c.left, c.width, Extent(f.width, q), f.width);
    PositionIs(c.top, c.height, Extent(f.height, q), f.height);
    assert ShrunkBy(f.width, Extent(f.width, q), q) && ShrunkBy(f.height, Extent(f.height, q), q);
  }

  /** In whole pixels: the sides are in the frame's proportion up to one pixel of either. */
  lemma AspectWithinAPixel(f: Frame, c: Rect)
    requires Possible(f) && KeepsAspect(f, c)
    ensures -f.height < c.width * f.height - c.height * f.width < f.width
  {
    var q :| 0 <= q <= TWO16 && ShrunkBy(f.width, c.width, q) && ShrunkBy(f.height, c.height, q);
    CrossBound(f.width, c.width, f.height, c.height, q);
    CrossBound(f.height, c.height, f.width, c.width, q);
  }

  lemma CrossBound(wf: int, w: int, hf: int, h: int, q: int)
    requires wf > 0 && hf > 0 && ShrunkBy(wf, w, q) && ShrunkBy(hf, h, q)
    ensures w * hf - h * wf < wf
  {
    MulMonotone(w * TWO16, wf * q, hf);
    MulMonotone(hf * q + 1, h * TWO16 + TWO16, wf);
    assert wf * q * hf == hf * q * wf;
    assert (hf * q + 1) * wf == hf * q * wf + wf;
    assert w * TWO16 * hf == (w * hf) * TWO16;
    assert (h * TWO16 + TWO16) * wf == (h * wf) * TWO16 + wf * TWO16;
  }

  /** Sides in one proportion have one scale: neither rounds away from the other. */
  lemma ProportionalScales(w: int, wf: int, h: int, hf: int)
    requires 0 <= w <= wf <= MAX_W && 0 <= h <= hf <= MAX_W && wf > 0 && hf > 0 && w * hf == h * wf
    ensures Scale(w, wf) == Scale(h, hf)
  {
    hide Scale;
    ScaleBounds(w, wf);
    ScaleBounds(h, hf);
    ScaleNotAbove(w, wf, h, hf, Scale(w, wf), Scale(h, hf));
    ScaleNotAbove(h, hf, w, wf, Scale(h, hf), Scale(w, wf));
  }

  lemma ScaleNotAbove(w: int, wf: int, h: int, hf: int, p: int, q: int)
    requires wf > 0 && hf > 0 && w * hf == h * wf
    requires p * wf <= w * TWO16 && h * TWO16 < q * hf + hf
    ensures p <= q
  {
    if p > q {
      assert (q + 1) * hf == q * hf + hf;
      MulMonotone(q + 1, p, hf);
      MulMonotone(p * wf, w * TWO16, hf);
      assert p * wf * hf == p * hf * wf && w * TWO16 * hf == h * TWO16 * wf;
      MulStrict(h * TWO16, p * hf, wf);
    }
  }

  lemma MulStrict(a: int, b: int, k: int)
    requires a < b && k > 0
    ensures a * k < b * k
  {
  }

  lemma HalfwayExtent(frame: int, p: int, q: int)
    requires 0 < frame <= MAX_W && 0 <= p <= TWO16 && 0 <= q <= TWO16
    ensures var both := Extent(frame, p) + Extent(frame, q);
            both - 2 <= 2 * Extent(frame, (p + q) / 2) <= both + 1
  {
    hide Extent;
    var h := (p + q) / 2;
    ExtentBounds(frame, p);
    ExtentBounds(frame, q);
    ExtentBounds(frame, h);
    HalfOfProducts(frame, p, q, h);
    Halfway(Extent(frame, p), Extent(frame, q), Extent(frame, h), frame * p, frame * q, frame * h, frame);
  }

  lemma HalfOfProducts(frame: int, p: int, q: int, h: int)
    requires frame >= 0 && 2 * h <= p + q <= 2 * h + 1
    ensures 2 * (frame * h) <= frame * p + frame * q <= 2 * (frame * h) + frame
  {
    MulMonotone(2 * h, p + q, frame);
    MulMonotone(p + q, 2 * h + 1, frame);
    assert 2 * h * frame == 2 * (frame * h) && (p + q) * frame == frame * p + frame * q;
    assert (2 * h + 1) * frame == 2 * (frame * h) + frame;
  }

  lemma Halfway(a: int, b: int, m: int, x: int, y: int, z: int, frame: int)
    requires a * TWO16 <= x < a * TWO16 + TWO16 && b * TWO16 <= y < b * TWO16 + TWO16
    requires m * TWO16 <= z < m * TWO16 + TWO16 && 2 * z <= x + y <= 2 * z + frame && 0 < frame < TWO16
    ensures a + b - 2 <= 2 * m <= a + b + 1
  {
  }

  /** Without a flag the sizes lie halfway between what the two flags give, within a pixel. */
  lemma NoFlagIsHalfway(f: Frame, r: Rect)
    requires Possible(f)
    ensures var s, le, ge := Select(f, 0, r), Select(f, FLAG_LE, r), Select(f, FLAG_GE, r);
            && s.Ok? && le.Ok? && ge.Ok?
            && le.value.width + ge.value.width - 2 <= 2 * s.value.width <= le.value.width + ge.value.width + 1
            && le.value.height + ge.value.height - 2 <= 2 * s.value.height <= le.value.height + ge.value.height + 1
  {
    hide Extent, Scale, Position, Clamped;
    var c := Clamped(f, r);
    ClampedIsInside(f, r);
    var qx, qy := Scale(c.width, f.width), Scale(c.height, f.height);
    ScaleBounds(c.width, f.width);
    ScaleBounds(c.height, f.height);
    SmallIsUnsigned(qx + qy);
    HalfwayExtent(f.width, qx, qy);
    HalfwayExtent(f.height, qx, qy);
  }

  lemma SmallIsUnsigned(x: int)
    requires 0 <= x < TWO32
    ensures U32(x) == x
  {
  }

  /** When a selection fails, and how: only for two different scales, by the flags, and so never for a request in
      the frame's own proportion. */
  lemma SelectErrors(f: Frame, flags: int, r: Rect)
    requires Possible(f)
    ensures var c := Clamped(f, r);
            var same := Scale(c.width, f.width) == Scale(c.height, f.height);
            && (Select(f, flags, r) == Err(Erange) <==> !same && flags == FLAG_GE + FLAG_LE)
            && (Select(f, flags, r) == Err(Einval) <==> !same && flags !in {0, FLAG_GE, FLAG_LE, FLAG_GE + FLAG_LE})
            && (c.width * f.height == c.height * f.width ==> Select(f, flags, r).Ok?)
  {
    hide Scale, Clamped, Extent, Position;
    var c := Clamped(f, r);
    ClampedIsInside(f, r);
    if c.width * f.height == c.height * f.width {
      ProportionalScales(c.width, f.width, c.height, f.height);
    }
  }

  /** A side cut by a scale that is not above its own never exceeds the request. */
  lemma ExtentBelow(frame: int, size: int, q: int)
    requires 0 <= size <= frame <= MAX_W && frame > 0 && 0 <= q <= Scale(size, frame)
    ensures 0 <= Extent(frame, q) <= size
  {
    hide Extent, Scale;
    ScaleBounds(size, frame);
    ExtentBounds(frame, q);
    MulMonotone(q, Scale(size, frame), frame);
  }

  /** With V4L2_SEL_FLAG_LE the stored rectangle lies inside the clamped request; so it does under any flags
      when the request already has the frame's proportion. */
  lemma LessOrEqualStaysInside(f: Frame, flags: int, r: Rect)
    requires Possible(f)
    ensures var c, s := Clamped(f, r), Select(f, flags, r);
            s.Ok? && (flags == FLAG_LE || Scale(c.width, f.width) == Scale(c.height, f.height)) ==> Inside(s.value, c)
  {
    hide Extent, Scale, Position, Clamped;
    if Select(f, flags, r).Err? {
      return;
    }
    var c := Clamped(f, r);
    var q := ChooseScale(flags, Scale(c.width, f.width), Scale(c.height, f.height)).value;
    ClampedIsInside(f, r);
    ChosenScale(f, flags, r);
    if flags == FLAG_LE || Scale(c.width, f.width) == Scale(c.height, f.height) {
      ExtentBelow(f.width, c.width, q);
      ExtentBelow(f.height, c.height, q);
      PositionIs(c.left, c.width, Extent(f.width, q), f.width);
      PositionIs(c.top, c.height, Extent(f.height, q), f.height);
    }
  }

  /** A side cut by a scale above its own never falls short of the request. */
  lemma ExtentAbove(frame: int, size: int, q: int)
    requires 0 <= size <= frame <= MAX_W && frame > 0 && Scale(size, frame) < q <= TWO16
    ensures Extent(frame, q) >= size
  {
    hide Extent, Scale;
    ScaleBounds(size, frame);
    ExtentBounds(frame, q);
    MulMonotone(Scale(size, frame) + 1, q, frame);
    OneMore(Scale(size, frame), frame);
  }

  lemma OneMore(q: int, k: int)
    ensures (q + 1) * k == q * k + k
  {
  }

  /** A side cut by its own scale keeps its size exactly when the scale lost nothing to rounding, and is one
      pixel short otherwise. */
  lemma ExtentOfOwnScale(frame: int, size: int)
    requires 0 < size <= frame <= MAX_W
    ensures Extent(frame, Scale(size, frame)) == if size * TWO16 % frame == 0 then size else size - 1
  {
    hide Extent;
    var q := Scale(size, frame);
    ScaleBounds(size, frame);
    ExtentBounds(frame, q);
    RemainderIs(size * TWO16, frame);
    assert frame * q == q * frame;
  }

  lemma RemainderIs(n: int, d: int)
    requires n >= 0 && d > 0
    ensures n / d * d + n % d == n && 0 <= n % d < d
  {
  }

  /** The scale V4L2_SEL_FLAG_GE takes for a clamped request: the larger of its two. */
  function LargerScale(f: Frame, c: Rect): int
    requires Possible(f)
  {
    Max(Scale(c.height, f.height), Scale(c.width, f.width))
  }

  /** An axis of a clamped request comes out no shorter than asked for: its scale is not the one taken, or it is
      a whole number of 65536ths of the frame. */
  predicate KeepsSize(size: int, frame: int, q: int)
    requires frame > 0
  {
    Scale(size, frame) < q || size * TWO16 % frame == 0
  }

  lemma AxisSize(frame: int, size: int, q: int)
    requires 0 < size <= frame <= MAX_W && Scale(size, frame) <= q <= TWO16
    ensures Extent(frame, q) >= size - 1
    ensures Extent(frame, q) >= size <==> KeepsSize(size, frame, q)
  {
    hide Extent, Scale;
    ExtentOfOwnScale(frame, size);
    if Scale(size, frame) < q {
      ExtentAbove(frame, size, q);
    }
  }

  /** Exactly when V4L2_SEL_FLAG_GE keeps its word about sizes: a side is shorter than the clamped request,
      then by one pixel, exactly when its scale is the one taken and lost a remainder to rounding. */
  lemma GreaterOrEqualSizes(f: Frame, r: Rect)
    requires Possible(f)
    ensures var c, s := Clamped(f, r), Select(f, FLAG_GE, r);
            var q := LargerScale(f, c);
            && s.Ok?
            && s.value.width >= c.width - 1 && s.value.height >= c.height - 1
            && (s.value.width >= c.width <==> KeepsSize(c.width, f.width, q))
            && (s.value.height >= c.height <==> KeepsSize(c.height, f.height, q))
  {
    hide Extent, Scale, Position, Clamped, KeepsSize;
    var c := Clamped(f, r);
    ClampedIsInside(f, r);
    ChosenScale(f, FLAG_GE, r);
    AxisSize(f.width, c.width, LargerScale(f, c));
    AxisSize(f.height, c.height, LargerScale(f, c));
  }

  /** An axis still covers its request after its extent became `extent`: it is not shorter, and if it grew, the
      edge of the frame it was carried to reaches over the request. */
  predicate AxisCovers(start: int, size: int, extent: int, frame: int) {
    && size <= extent
    && (size < extent ==>
          if start >= (extent - size + 1) / 2 then start + size <= extent else frame - extent <= start)
  }

  lemma AxisCoversIff(start: int, size: int, extent: int, frame: int)
    requires 0 <= start && 0 <= size && start + size <= frame <= MAX_W && 0 <= extent <= frame
    ensures var p := Position(start, size, extent, frame);
            p <= start && start + size <= p + extent <==> AxisCovers(start, size, extent, frame)
  {
    hide Position;
    PositionIs(start, size, extent, frame);
  }

  /** Exactly when a V4L2_SEL_FLAG_GE selection covers the clamped request: on each axis the size is kept and
      growing did not lose the place. */
  lemma GreaterOrEqualCoversIff(f: Frame, r: Rect)
    requires Possible(f)
    ensures var c := Clamped(f, r);
            var q := LargerScale(f, c);
            Inside(c, Select(f, FLAG_GE, r).value)
            <==> && KeepsSize(c.width, f.width, q) && AxisCovers(c.left, c.width, Extent(f.width, q), f.width)
                 && KeepsSize(c.height, f.height, q) && AxisCovers(c.top, c.height, Extent(f.height, q), f.height)
  {
    hide Extent, Scale, Position, Clamped, KeepsSize, AxisCovers;
    var c := Clamped(f, r);
    var q := LargerScale(f, c);
    ClampedIsInside(f, r);
    ChosenScale(f, FLAG_GE, r);
    ExtentBounds(f.width, q);
    ExtentBounds(f.height, q);
    AxisSize(f.width, c.width, q);
    AxisSize(f.height, c.height, q);
    AxisCoversIff(c.left, c.width, Extent(f.width, q), f.width);
    AxisCoversIff(c.top, c.height, Extent(f.height, q), f.height);
    ShortCoversNothing(c.left, c.width, Extent(f.width, q), f.width);
    ShortCoversNothing(c.top, c.height, Extent(f.height, q), f.height);
  }

  lemma ShortCoversNothing(start: int, size: int, extent: int, frame: int)
    ensures AxisCovers(start, size, extent, frame) ==> extent >= size
  {
  }

  /** A V4L2_SEL_FLAG_GE request that grows and is lost: the middle of a 640x480 frame, half as wide and a third
      as high.  The stored rectangle is half the frame in both directions and at its top edge, 80 rows short of
      the bottom of the request. */
  lemma GreaterOrEqualMissesRequest()
    ensures var f, r := Frame(640, 480), Rect(160, 160, 320, 160);
            && Clamped(f, r) == r
            && Select(f, FLAG_GE, r) == Ok(Rect(160, 0, 320, 240))
            && !Inside(r, Select(f, FLAG_GE, r).value)
  {
    hide Position, Scale, Extent;
    HalfOfVga();
    PositionIs(160, 320, 320, 640);
    PositionIs(160, 160, 240, 480);
  }

  lemma HalfOfVga()
    ensures Scale(320, 640) == 32768 && Scale(160, 480) == 21845
    ensures Extent(640, 32768) == 320 && Extent(480, 32768) == 240
  {
  }

  /** And one that shrinks although nothing grew: 321 of 640 columns is no whole number of 65536ths, so one
      column is lost. */
  lemma GreaterOrEqualLosesAPixel()
    ensures var f, r := Frame(640, 480), Rect(0, 0, 321, 240);
            && Clamped(f, r) == r
            && Select(f, FLAG_GE, r) == Ok(Rect(0, 0, 320, 240))
            && !KeepsSize(321, 640, LargerScale(f, r))
  {
    hide Position, Scale, Extent;
    OddWidth();
    PositionIs(0, 321, 320, 640);
    PositionIs(0, 240, 240, 480);
  }

  lemma OddWidth()
    ensures Scale(321, 640) == 32870 && Scale(240, 480) == 32768
    ensures Extent(640, 32870) == 320 && Extent(480, 32870) == 240
  {
  }
}
