/** The default vertex map of the dewarp engine: a grid over the destination image, one packed pair of
    UQ12.4 source coordinates for each crossing. */
module DewarpMap {
  const BLOCK := 16
  const TWO16 := 0x1_0000
  const MAX_SIZE := 4096

  /** Crossings along a side: one for each started block, and one to close the last. */
  function Vertices(length: nat): (n: nat)
    ensures length > 0 ==> n >= 2 && BLOCK * (n - 2) < length <= BLOCK * (n - 1)
  {
    (length + BLOCK - 1) / BLOCK + 1
  }

  /** dw100_map_convert_to_uq12_4(): twelve integer bits are kept. */
  function ToFixed(a: nat): (q: nat)
    ensures q < TWO16
  {
    a % 4096 * 16
  }

  function Min(a: nat, b: nat): nat {
    if a <= b then a else b
  }

  /** `k` steps along a side, stopping at its end. */
  function Along(k: nat, step: nat, end: nat): (q: nat)
    ensures q <= end
  {
    Min(k * step, end)
  }

  /** The coordinate of crossing `k` of `n` along a source side. */
  function Coordinate(k: nat, n: nat, size: nat): (q: nat)
    requires n >= 2
    ensures q <= ToFixed(size)
  {
    Along(k, ToFixed(size) / (n - 1), ToFixed(size))
  }

  function Pack(x: nat, y: nat): nat {
    y * TWO16 + x
  }

  function UnpackX(v: nat): nat {
    v % TWO16
  }

  function UnpackY(v: nat): nat {
    v / TWO16
  }

  /** A packed vertex, decoded as the engine decodes it, is the crossing of its column and row. */
  predicate IsCrossing(v: nat, idx: nat, mw: nat, mh: nat, sw: nat, sh: nat)
    requires mw >= 2 && mh >= 2
  {
    UnpackX(v) == Coordinate(idx % mw, mw, sw) && UnpackY(v) == Coordinate(idx / mw, mh, sh)
  }

  ghost predicate IsGrid(vertices: seq<nat>, from: nat, mw: nat, mh: nat, sw: nat, sh: nat)
    requires mw >= 2 && mh >= 2
  {
    forall k :: from <= k < |vertices| ==> IsCrossing(vertices[k], k, mw, mh, sw, sh)
  }

  /** Crossing number `idx` of a grid with these steps and ends, as one word. */
  function Crossing(idx: nat, mw: nat, qdx: nat, qdy: nat, qsw: nat, qsh: nat): nat
    requires mw > 0
  {
    Pack(Along(idx % mw, qdx, qsw), Along(idx / mw, qdy, qsh))
  }

  function Vertex(idx: nat, mw: nat, mh: nat, sw: nat, sh: nat): nat
    requires mw >= 2 && mh >= 2
  {
    Crossing(idx, mw, ToFixed(sw) / (mw - 1), ToFixed(sh) / (mh - 1), ToFixed(sw), ToFixed(sh))
  }

  method StoreVertex(map_: array<nat>, idx: nat, mw: nat, qdx: nat, qdy: nat, qsw: nat, qsh: nat)
    requires mw > 0 && idx < map_.Length
    modifies map_
    ensures map_[idx] == Crossing(idx, mw, qdx, qdy, qsw, qsh)
    ensures forall k :: 0 <= k < map_.Length && k != idx ==> map_[k] == old(map_[k])
  {
    hide Along, Pack;
    var qy := Along(idx / mw, qdy, qsh);
    var qx := Along(idx % mw, qdx, qsw);
    map_[idx] := Pack(qx, qy);
  }

  /** dw100_ctrl_dewarping_map_init() */
  method InitMap(map_: array<nat>, from: nat, mw: nat, mh: nat, sw: nat, sh: nat)
    requires mw >= 2 && mh >= 2 && from <= map_.Length
    modifies map_
    ensures IsGrid(map_[..], from, mw, mh, sw, sh)
    ensures map_[..from] == old(map_[..from])
  {
    hide Crossing;
    var qsw, qsh := ToFixed(sw), ToFixed(sh);
    var qdx, qdy := qsw / (mw - 1), qsh / (mh - 1);
    for idx := from to map_.Length
      invariant forall k :: 0 <= k < from ==> map_[k] == old(map_[k])
      invariant forall k :: from <= k < idx ==> map_[k] == Crossing(k, mw, qdx, qdy, qsw, qsh)
    {
      StoreVertex(map_, idx, mw, qdx, qdy, qsw, qsh);
    }
    VerticesDecode(map_[..], from, mw, mh, sw, sh);
  }

  lemma VertexDecodes(idx: nat, mw: nat, mh: nat, sw: nat, sh: nat)
    requires mw >= 2 && mh >= 2
    ensures IsCrossing(Vertex(idx, mw, mh, sw, sh), idx, mw, mh, sw, sh)
  {
    hide Along, Pack, UnpackX, UnpackY;
    PackUnpack(Coordinate(idx % mw, mw, sw), Coordinate(idx / mw, mh, sh));
  }

  lemma VerticesDecode(vertices: seq<nat>, from: nat, mw: nat, mh: nat, sw: nat, sh: nat)
    requires mw >= 2 && mh >= 2
    requires forall k :: from <= k < |vertices| ==> vertices[k] == Vertex(k, mw, mh, sw, sh)
    ensures IsGrid(vertices, from, mw, mh, sw, sh)
  {
    hide Vertex, IsCrossing;
    forall k | from <= k < |vertices|
      ensures IsCrossing(vertices[k], k, mw, mh, sw, sh)
    {
      VertexDecodes(k, mw, mh, sw, sh);
    }
  }

  lemma PackUnpack(x: nat, y: nat)
    requires x < TWO16
    ensures UnpackX(Pack(x, y)) == x && UnpackY(Pack(x, y)) == y
  {
  }

  lemma MulMonotone(a: nat, b: nat, k: nat)
    requires a <= b
    ensures a * k <= b * k
  {
  }

  lemma DivideFacts(n: nat, d: nat)
    requires d > 0
    ensures n / d * d <= n < n / d * d + d
  {
  }

  lemma AlongMonotone(j: nat, k: nat, step: nat, end: nat)
    requires j <= k
    ensures Along(0, step, end) == 0 && Along(j, step, end) <= Along(k, step, end)
  {
    MulMonotone(j, k, step);
  }

  lemma AlongReaches(steps: nat, end: nat)
    requires steps > 0
    ensures end < Along(steps, end / steps, end) + steps
  {
    DivideFacts(end, steps);
  }

  /** A crossing lies on its share of the source side, short of it by less than a sixteenth of a pixel for each
      block before it. */
  lemma CrossingNearItsShare(k: nat, n: nat, size: nat)
    requires n >= 2 && 0 < k < n
    ensures var q := Coordinate(k, n, size);
            q * (n - 1) <= k * ToFixed(size) < q * (n - 1) + k * (n - 1)
  {
    var end, steps := ToFixed(size), n - 1;
    var step := end / steps;
    DivideFacts(end, steps);
    MulMonotone(k, steps, step);
    assert k * step <= steps * step == step * steps <= end;
    assert Coordinate(k, n, size) == k * step;
    Share(k, step, steps, end);
  }

  lemma Share(k: nat, step: nat, steps: nat, end: nat)
    requires k > 0 && step * steps <= end < step * steps + steps
    ensures k * step * steps <= k * end < k * step * steps + k * steps
  {
    assert k * step * steps == k * (step * steps);
    MulMonotone(step * steps, end, k);
    MulMonotone(end + 1, step * steps + steps, k);
    assert (end + 1) * k == k * end + k && (step * steps + steps) * k == k * (step * steps) + k * steps;
  }

  /** A column never lies left of an earlier one; the first is the source's edge, and the last falls short of
      the other edge by less than one sixteenth of a pixel for each block. */
  lemma ColumnsSpanSource(j: nat, k: nat, n: nat, size: nat)
    requires n >= 2 && j <= k < n
    ensures Coordinate(0, n, size) == 0 && Coordinate(j, n, size) <= Coordinate(k, n, size)
    ensures ToFixed(size) < Coordinate(n - 1, n, size) + (n - 1)
  {
    hide Along;
    AlongMonotone(j, k, ToFixed(size) / (n - 1), ToFixed(size));
    AlongReaches(n - 1, ToFixed(size));
  }

  /** Where crossing `k` of an identity map lies, in sixteenths of a pixel: at the block boundary, the last one at
      the edge of the image. */
  function BlockBoundary(k: nat, size: nat): nat {
    Min(k * BLOCK * 16, size * 16)
  }

  /** A side mapped to a source of its own size: every crossing reads the pixel it lies on. */
  ghost predicate IsIdentity(n: nat, size: nat)
    requires n >= 2
  {
    forall k :: 0 <= k < n ==> Coordinate(k, n, size) == BlockBoundary(k, size)
  }

  /** When the default map really is the identity: the side is one block at most or a whole number of blocks, and
      it is below 4096 pixels, since a side of exactly 4096, which the format allows, keeps none of its integer
      bits.  For any other side the shorter last block is spread over all of them. */
  lemma IdentityIffWholeBlocks(size: nat)
    requires 0 < size <= MAX_SIZE
    ensures IsIdentity(Vertices(size), size) <==> (size <= BLOCK || size % BLOCK == 0) && size < MAX_SIZE
  {
    var n := Vertices(size);
    if size == MAX_SIZE {
      assert Coordinate(1, n, size) != BlockBoundary(1, size);
    } else if size % BLOCK == 0 {
      WholeBlocks(size, n);
    } else if size <= BLOCK {
      SingleBlock(size);
    } else {
      RaggedSideDrifts(size, 1);
    }
  }

  lemma SingleBlock(size: nat)
    requires 0 < size <= BLOCK
    ensures IsIdentity(Vertices(size), size)
  {
    assert Vertices(size) == 2;
    assert Coordinate(0, 2, size) == 0;
    assert Coordinate(1, 2, size) == size * 16;
  }

  /** The step of a side whose last block is shorter falls below one block. */
  lemma RaggedStep(size: nat, n: nat)
    requires BLOCK < size < MAX_SIZE && size % BLOCK != 0 && n == Vertices(size)
    ensures ToFixed(size) / (n - 1) < 256
  {
    hide ToFixed;
    FixedIs(size);
    DivideFacts(size * 16, n - 1);
    if size * 16 / (n - 1) >= 256 {
      MulMonotone(256, size * 16 / (n - 1), n - 1);
    }
  }

  /** So on such a side every crossing between the two edges reads a source pixel before its own. */
  lemma RaggedSideDrifts(size: nat, k: nat)
    requires BLOCK < size < MAX_SIZE && size % BLOCK != 0 && 0 < k < Vertices(size) - 1
    ensures Coordinate(k, Vertices(size), size) < BlockBoundary(k, size) == k * BLOCK * 16
  {
    var step := ToFixed(size) / (Vertices(size) - 1);
    RaggedStep(size, Vertices(size));
    StepsFallShort(k, step, ToFixed(size));
  }

  lemma StepsFallShort(k: nat, step: nat, end: nat)
    requires k > 0 && step < 256
    ensures Along(k, step, end) < k * 256
  {
    MulMonotone(step, 255, k);
    assert k * 255 < k * 256;
    assert k * step == step * k;
  }

  lemma FixedIs(size: nat)
    requires size < MAX_SIZE
    ensures ToFixed(size) == size * 16
  {
  }

  /** A 1080-pixel side: its 67 whole blocks and a half give steps of 254 sixteenths instead of 256, and the last
      inner crossing reads a source pixel more than 8 pixels before its own. */
  lemma Rows1080Drift()
    ensures var n := Vertices(1080);
            n == 69 && Coordinate(67, n, 1080) == 67 * 254 && BlockBoundary(67, 1080) == 67 * 256
  {
  }

  lemma WholeBlocks(size: nat, n: nat)
    requires 0 < size < MAX_SIZE && size % BLOCK == 0 && n == Vertices(size)
    ensures IsIdentity(n, size)
  {
    hide Along;
    var blocks := size / BLOCK;
    BlockCount(size, blocks);
    forall k | 0 <= k < n
      ensures Coordinate(k, n, size) == BlockBoundary(k, size)
    {
      WithinEnd(k, blocks);
    }
  }

  lemma QuotientIs(n: nat, d: nat, q: nat)
    requires d > 0 && n == q * d
    ensures n / d == q
  {
    var p := n / d;
    DivideFacts(n, d);
    if p < q {
      MulMonotone(p + 1, q, d);
    } else if q < p {
      MulMonotone(q + 1, p, d);
    }
  }

  lemma BlockCount(size: nat, blocks: nat)
    requires 0 < size < MAX_SIZE && size == blocks * BLOCK
    ensures Vertices(size) == blocks + 1 && ToFixed(size) == blocks * 256
    ensures ToFixed(size) / (Vertices(size) - 1) == 256
  {
    var fixed := ToFixed(size);
    assert fixed == 256 * blocks;
    QuotientIs(fixed, blocks, 256);
  }

  lemma WithinEnd(k: nat, blocks: nat)
    requires k <= blocks
    ensures Along(k, 256, blocks * 256) == k * BLOCK * 16 == BlockBoundary(k, blocks * BLOCK)
  {
  }

  /** A 4096-pixel side collapses: every crossing reads the source's first pixel. */
  lemma WidestSideCollapses(k: nat)
    requires k < Vertices(MAX_SIZE)
    ensures Coordinate(k, Vertices(MAX_SIZE), MAX_SIZE) == 0
  {
  }
}
