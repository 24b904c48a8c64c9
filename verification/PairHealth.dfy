/** The dual-wide pair verdict: when the equality of two 8-bit counter reads is evidence at all, what
    the verdict says, and what the log gate keeps of it. */
module PairHealth {
  datatype HinfState = Unknown | Progressing | Stalled

  datatype Pair = NotApplicable | Aligned | Divergent | BothStalled

  datatype LogAction = Unchanged | Hold | Emit

  datatype Gap = TooShort | Decidable | TooLong

  const COUNTER_PERIOD := 256

  function Decide(dual: bool, streaming: bool, ch0: HinfState, ch1: HinfState): Pair {
    if !dual || !streaming then NotApplicable
    else if ch0 == Unknown || ch1 == Unknown then NotApplicable
    else if ch0 == Stalled && ch1 == Stalled then BothStalled
    else if ch0 != ch1 then Divergent
    else Aligned
  }

  predicate Fault(p: Pair) {
    p == Divergent || p == BothStalled
  }

  function LogDecide(pair: Pair, reported: Pair, now: int, last: int, minimum: int): LogAction {
    if pair == reported then Unchanged
    else if Fault(pair) && !Fault(reported) then Emit
    else if last != 0 && now - last < minimum then Hold
    else Emit
  }

  /** max9296_hinf_gap_classify() */
  function Classify(elapsedMs: int, fps: nat): Gap {
    if fps == 0 || elapsedMs <= 0 then TooShort
    else if elapsedMs > COUNTER_PERIOD * 1000 then TooLong
    else if elapsedMs * fps < 2000 then TooShort
    else if (elapsedMs + 1) * fps > (COUNTER_PERIOD - 1) * 1000 then TooLong
    else Decidable
  }

  function ExportMs(elapsedMs: int): nat {
    if elapsedMs <= 0 then 0 else if elapsedMs > 4294967295 then 4294967295 else elapsedMs
  }

  /** The verdict is applicable exactly when both channels are decided, and then names which of them
      moved. */
  lemma VerdictNamesStalls(dual: bool, streaming: bool, ch0: HinfState, ch1: HinfState)
    ensures var p := Decide(dual, streaming, ch0, ch1);
            && (p == NotApplicable <==> !dual || !streaming || ch0 == Unknown || ch1 == Unknown)
            && (p != NotApplicable ==>
                  (Fault(p) <==> ch0 == Stalled || ch1 == Stalled)
                  && (p == BothStalled <==> ch0 == Stalled && ch1 == Stalled)
                  && p == Decide(dual, streaming, ch1, ch0))
  {
  }

  // ----- the counter -----

  /** Ticks of a counter at `fps` seen up to time `t` (in milliseconds), for a tick phase in [0, 1). */
  function Ticks(t: real, fps: nat, phase: real): int {
    (t * fps as real / 1000.0 + phase).Floor
  }

  /** The whole-millisecond reading of a clock. */
  function Read(t: real): int {
    t.Floor
  }

  /** The 8-bit counter after so many ticks. */
  function Counter(ticks: int): nat {
    ticks % COUNTER_PERIOD
  }

  /** The ticks inside an interval differ from the frames it spans by less than one, at every phase. */
  lemma TicksNearFrames(t1: real, t2: real, fps: nat, phase: real)
    ensures var n, frames := Ticks(t2, fps, phase) - Ticks(t1, fps, phase), (t2 - t1) * fps as real / 1000.0;
            frames - 1.0 < n as real < frames + 1.0
  {
    assert t2 * fps as real / 1000.0 + phase - (t1 * fps as real / 1000.0 + phase) == (t2 - t1) * fps as real / 1000.0;
  }

  lemma Scale(x: real, y: real, f: real)
    requires x < y && f > 0.0
    ensures x * f < y * f
  {
  }

  lemma ScaleNat(m: int, n: int, f: nat)
    requires m <= n
    ensures m * f <= n * f
  {
  }

  lemma Product(n: int, fps: nat)
    ensures n as real * fps as real == (n * fps) as real
  {
  }

  lemma SpanToFrames(span: real, below: int, above: int, fps: nat)
    requires fps > 0 && below as real < span < above as real
    ensures (below * fps) as real < span * fps as real
    ensures span * fps as real < (above * fps) as real
  {
    Scale(below as real, span, fps as real);
    Scale(span, above as real, fps as real);
    Product(below, fps);
    Product(above, fps);
  }

  /** Two truncated timestamps bound the interval they stand for by a millisecond at either end. */
  lemma FramesBetweenReads(t1: real, t2: real, fps: nat)
    requires fps > 0
    ensures ((Read(t2) - Read(t1) - 1) * fps) as real < (t2 - t1) * fps as real
    ensures (t2 - t1) * fps as real < ((Read(t2) - Read(t1) + 1) * fps) as real
  {
    SpanToFrames(t2 - t1, Read(t2) - Read(t1) - 1, Read(t2) - Read(t1) + 1, fps);
  }

  lemma DecidableBounds(elapsed: int, fps: nat)
    requires Classify(elapsed, fps) == Decidable && fps < 2000
    ensures (elapsed - 1) * fps >= 1000 && (elapsed + 1) * fps <= 255000
  {
    var frames := elapsed * fps;
    assert (elapsed - 1) * fps == frames - fps;
    if elapsed > 1 {
      ScaleNat(1, elapsed - 1, fps);
    }
  }

  /** A decidable gap between two truncated timestamps contains between 1 and 255 ticks of a running
      counter, whatever its phase and whatever the truncation dropped, so two equal reads of the 8-bit
      counter mean that it did not run.  The driver's rates are 1 to 120 fps; this needs less. */
  lemma DecidableNeverMisreadsRunning(t1: real, t2: real, fps: nat, phase: real)
    requires Classify(Read(t2) - Read(t1), fps) == Decidable && fps < 2000
    ensures var a, b := Ticks(t1, fps, phase), Ticks(t2, fps, phase);
            1 <= b - a <= 255 && Counter(a) != Counter(b)
  {
    var a, b := Ticks(t1, fps, phase), Ticks(t2, fps, phase);
    DecidableBounds(Read(t2) - Read(t1), fps);
    FramesBetweenReads(t1, t2, fps);
    TicksNearFrames(t1, t2, fps, phase);
    var scaled := (t2 - t1) * fps as real;
    assert 1000.0 < scaled < 255000.0;
    assert 1.0 < scaled / 1000.0 < 255.0;
  }

  /** Any span of more than 255 and less than 257 frames that starts at time zero holds exactly 256
      ticks at some phase. */
  lemma SomePhaseWraps(t2: real, fps: nat) returns (phase: real)
    requires 255000.0 < Frames(t2, fps as real) < 257000.0
    ensures 0.0 <= phase < 1.0
    ensures var a, b := Ticks(0.0, fps, phase), Ticks(t2, fps, phase); b - a == 256 && Counter(a) == Counter(b)
  {
    var frames := t2 * fps as real / 1000.0;
    phase := if frames <= 256.0 then 256.0 - frames else 0.0;
    assert 0.0 * fps as real / 1000.0 == 0.0;
  }

  /** A product kept from the solver's nonlinear arithmetic where it is hidden. */
  function Frames(ms: real, f: real): real {
    ms * f
  }

  lemma Cancel(x: real, y: real, f: real)
    requires f > 0.0 && Frames(x, f) < Frames(y, f)
    ensures x < y
  {
    if y <= x {
      Monotone(y, x, f);
    }
  }

  lemma Monotone(x: real, y: real, f: real)
    requires x <= y && f > 0.0
    ensures x * f <= y * f
  {
  }

  lemma OneMore(e: real, f: real)
    ensures Frames(e + 1.0, f) == Frames(e, f) + f
  {
  }

  lemma Quotient(target: real, f: real) returns (t: real)
    requires f > 0.0
    ensures Frames(t, f) == target
  {
    t := target / f;
  }

  /** A span of `e` milliseconds, or the next one, is more than 255 frames, and `e` is under 257. */
  predicate JustPast(e: real, f: real) {
    0.0 < f <= 1000.0 && Frames(e, f) < 257000.0 && Frames(e, f) + f > 255000.0
  }

  /** An end in the last millisecond of the gap that lies past 255 frames. */
  lemma EndPastCeiling(e: real, f: real) returns (t2: real)
    requires JustPast(e, f)
    ensures e <= t2 < e + 1.0 && 255000.0 < Frames(t2, f) < 257000.0
  {
    hide Frames;
    if Frames(e, f) > 255000.0 {
      t2 := e;
    } else {
      t2 := Quotient((Frames(e, f) + f + 255000.0) / 2.0, f);
      OneMore(e, f);
      Cancel(e, t2, f);
      Cancel(t2, e + 1.0, f);
    }
  }

  lemma InReals(elapsed: nat, fps: nat)
    requires 0 < fps <= 1000 && (elapsed + 1) * fps > 255000 && elapsed * fps < 257000
    ensures JustPast(elapsed as real, fps as real)
  {
    var frames := elapsed * fps;
    assert (elapsed + 1) * fps == frames + fps;
    Product(elapsed, fps);
    assert elapsed as real * fps as real == frames as real;
  }

  lemma NotDecidableThere(elapsed: nat, fps: nat)
    requires 0 < fps <= 1000 && (elapsed + 1) * fps > 255000
    ensures Classify(elapsed, fps) == TooLong
  {
    var frames := elapsed * fps;
    assert (elapsed + 1) * fps == frames + fps;
  }

  lemma ReadWithin(t: real, n: int)
    requires n as real <= t < n as real + 1.0
    ensures Read(t) == n && Read(0.0) == 0
  {
  }

  lemma WrapPastCeiling(elapsed: nat, fps: nat) returns (t1: real, t2: real, phase: real)
    requires JustPast(elapsed as real, fps as real)
    ensures Read(t2) - Read(t1) == elapsed && 0.0 <= phase < 1.0
    ensures var a, b := Ticks(t1, fps, phase), Ticks(t2, fps, phase); b - a == 256 && Counter(a) == Counter(b)
  {
    hide JustPast, Frames, Ticks, Counter, Read;
    t2 := EndPastCeiling(elapsed as real, fps as real);
    ReadWithin(t2, elapsed);
    t1 := 0.0;
    phase := SomePhaseWraps(t2, fps);
  }

  /** The ceiling is the last sound one: every gap just past it, up to 257 periods, can hold exactly 256
      ticks of a running counter, which then reads as stalled. */
  lemma CeilingIsTight(elapsed: nat, fps: nat) returns (t1: real, t2: real, phase: real)
    requires 0 < fps <= 1000 && (elapsed + 1) * fps > 255000 && elapsed * fps < 257000
    ensures Classify(elapsed, fps) == TooLong
    ensures Read(t2) - Read(t1) == elapsed && 0.0 <= phase < 1.0
    ensures var a, b := Ticks(t1, fps, phase), Ticks(t2, fps, phase); b - a == 256 && Counter(a) == Counter(b)
  {
    hide JustPast, Ticks, Counter, Classify, Read;
    InReals(elapsed, fps);
    NotDecidableThere(elapsed, fps);
    t1, t2, phase := WrapPastCeiling(elapsed, fps);
  }

  /** Two times that clocks read `elapsed` apart, as far apart as that allows. */
  lemma LongestSpan(elapsed: nat, fps: nat) returns (t2: real)
    requires fps > 0 && (elapsed + 1) * fps > 255000
    ensures Read(t2) - Read(0.0) == elapsed && t2 * fps as real >= 255000.0
  {
    var e, f := elapsed as real, fps as real;
    Product(elapsed, fps);
    assert (elapsed + 1) * fps == elapsed * fps + fps;
    if elapsed * fps >= 255000 {
      t2 := e;
    } else {
      t2 := Quotient(255000.0, f);
      OneMore(e, f);
      NotBelow(e, t2, f);
      NotAbove(t2, e + 1.0, f);
    }
  }

  lemma NotBelow(x: real, y: real, f: real)
    requires f > 0.0 && Frames(x, f) <= Frames(y, f)
    ensures x <= y
  {
    if y < x {
      Scale(y, x, f);
    }
  }

  lemma NotAbove(x: real, y: real, f: real)
    requires f > 0.0 && Frames(x, f) < Frames(y, f)
    ensures x < y
  {
    if y <= x {
      Monotone(y, x, f);
    }
  }

  /** What makes a gap decidable, told in times: its reading is at least two frame periods, and no pair of times
      with these readings lies 255 frame periods apart or more.  So every gap that can be judged is judged, at
      every rate. */
  ghost predicate Judgeable(elapsedMs: int, fps: nat) {
    && fps > 0 && elapsedMs > 0 && elapsedMs * fps >= 2000
    && forall t1: real, t2: real :: Read(t2) - Read(t1) == elapsedMs ==> (t2 - t1) * fps as real < 255000.0
  }

  lemma DecidableIffJudgeable(elapsedMs: int, fps: nat)
    ensures Classify(elapsedMs, fps) == Decidable <==> Judgeable(elapsedMs, fps)
  {
    hide Read, Classify;
    GuardRefines(elapsedMs, fps);
    if fps > 0 && elapsedMs > 0 {
      if (elapsedMs + 1) * fps > 255000 {
        var t2 := LongestSpan(elapsedMs, fps);
        assert (t2 - 0.0) * fps as real >= 255000.0;
      } else {
        forall t1: real, t2: real | Read(t2) - Read(t1) == elapsedMs
          ensures (t2 - t1) * fps as real < 255000.0
        {
          FramesBetweenReads(t1, t2, fps);
        }
      }
    }
  }

  /** A shorter one is too short only below two frame periods, and asks for patience, not for a new baseline. */
  lemma TooShortIff(elapsedMs: int, fps: nat)
    ensures Classify(elapsedMs, fps) == TooShort <==> fps == 0 || elapsedMs <= 0 || elapsedMs * fps < 2000
  {
    GuardRefines(elapsedMs, fps);
  }

  /** The formula without the guard that keeps the products small. */
  function ClassifyUnguarded(elapsedMs: int, fps: nat): Gap {
    if fps == 0 || elapsedMs <= 0 then TooShort
    else if elapsedMs * fps < 2000 then TooShort
    else if (elapsedMs + 1) * fps > 255000 then TooLong
    else Decidable
  }

  /** The guard changes no verdict, and behind it no product leaves 64-bit arithmetic for any 32-bit
      rate. */
  lemma GuardRefines(elapsedMs: int, fps: nat)
    ensures Classify(elapsedMs, fps) == ClassifyUnguarded(elapsedMs, fps)
    ensures fps < 0x1_0000_0000 && 0 < elapsedMs <= COUNTER_PERIOD * 1000 ==>
              elapsedMs * fps <= (elapsedMs + 1) * fps < 0x8000_0000_0000_0000
  {
    if fps > 0 && elapsedMs > COUNTER_PERIOD * 1000 {
      ScaleNat(256000, elapsedMs, fps);
      ScaleNat(256000, elapsedMs + 1, fps);
    } else if 0 < elapsedMs <= COUNTER_PERIOD * 1000 {
      ScaleNat(elapsedMs, elapsedMs + 1, fps);
      ScaleNat(elapsedMs + 1, 256001, fps);
    }
  }
}
