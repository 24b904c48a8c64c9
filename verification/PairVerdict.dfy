/** The per-device pair verdict and its log gate, over any sequence of samples since the last reset. */
module PairVerdict {
  import opened PairHealth

  /** What one health sample reads from a channel's frame counter. */
  datatype Channel = Channel(valid: bool, count: nat)

  type Channels = s: seq<Channel> | |s| == 2 witness [Channel(false, 0), Channel(false, 0)]

  const NO_CHANNELS: Channels := [Channel(false, 0), Channel(false, 0)]

  datatype Sample = Sample(now: int, fps: nat, dual: bool, streaming: bool, channels: Channels)

  datatype Baseline = Baseline(channels: Channels, now: int, fps: nat)

  datatype Gate = Gate(reported: Pair, held: Pair, loggedAt: int, suppressed: nat)

  /** The pair fields of the driver's health record. */
  datatype Health = Health(base: Baseline, gate: Gate)

  const FORGOTTEN := Health(Baseline(NO_CHANNELS, 0, 0), Gate(NotApplicable, NotApplicable, 0, 0))

  /** MAX9296_PAIR_LOG_MIN_MS */
  const LOG_MIN_MS := 1000

  /** What a sample reports about the pair: the verdict and, when a line is staged, what the line says. */
  datatype Report = Report(pair: Pair, gapMs: nat, line: Line)

  datatype Line = NoLine | Line(previous: Pair, channels: Channels, suppressed: nat)

  function Elapsed(b: Baseline, s: Sample): int {
    if b.now == 0 then 0 else s.now - b.now
  }

  /** The gap a sample closes; a rate that changed inside it makes it unusable. */
  function GapOf(b: Baseline, s: Sample): Gap {
    if b.now != 0 && s.fps != b.fps then TooLong else Classify(Elapsed(b, s), s.fps)
  }

  function ChannelState(before: Channel, after: Channel): HinfState {
    if !before.valid || !after.valid then Unknown
    else if before.count != after.count then Progressing
    else Stalled
  }

  /** The verdict a decidable sample gives against a baseline. */
  function Judge(b: Baseline, s: Sample): Pair {
    Decide(s.dual, s.streaming, ChannelState(b.channels[0], s.channels[0]),
           ChannelState(b.channels[1], s.channels[1]))
  }

  function GateStep(g: Gate, pair: Pair, now: int): Gate {
    match LogDecide(pair, g.reported, now, g.loggedAt, LOG_MIN_MS)
    case Unchanged => g.(held := pair)
    case Hold => if pair != g.held then g.(held := pair, suppressed := g.suppressed + 1) else g
    case Emit => Gate(pair, pair, now, 0)
  }

  function Step(h: Health, s: Sample): Health {
    var gap := GapOf(h.base, s);
    Health(if h.base.now == 0 || gap != TooShort then Baseline(s.channels, s.now, s.fps) else h.base,
           if gap == Decidable then GateStep(h.gate, Judge(h.base, s), s.now) else h.gate)
  }

  function ReportOf(h: Health, s: Sample): Report {
    var decided := GapOf(h.base, s) == Decidable;
    var pair := if decided then Judge(h.base, s) else NotApplicable;
    var emits := decided && LogDecide(pair, h.gate.reported, s.now, h.gate.loggedAt, LOG_MIN_MS) == Emit;
    Report(pair, ExportMs(Elapsed(h.base, s)),
           if emits then Line(h.gate.reported, h.base.channels, h.gate.suppressed) else NoLine)
  }

  /** The state after a sequence of samples that starts at a reset. */
  function After(ss: seq<Sample>): Health {
    if ss == [] then FORGOTTEN else Step(After(ss[..|ss| - 1]), ss[|ss| - 1])
  }

  /** Timestamps of the boot clock: never negative, never going back. */
  predicate Clocked(ss: seq<Sample>) {
    && (forall i :: 0 <= i < |ss| ==> ss[i].now >= 0)
    && (forall i, j :: 0 <= i <= j < |ss| ==> ss[i].now <= ss[j].now)
  }

  // ----- the class -----

  class PairMonitor {
    var pairHinf: Channels
    var pairSampleMs: int
    var pairFps: nat
    var pairState: Pair
    var pairHeld: Pair
    var pairLogMs: int
    var pairLogSuppressed: nat
    ghost var seen: seq<Sample>

    function View(): Health
      reads this
    {
      Health(Baseline(pairHinf, pairSampleMs, pairFps), Gate(pairState, pairHeld, pairLogMs, pairLogSuppressed))
    }

    /** The fields are what the samples since the last reset make of them. */
    ghost predicate Valid()
      reads this
    {
      View() == After(seen)
    }

    constructor ()
      ensures Valid() && seen == []
    {
      pairHinf, pairSampleMs, pairFps := NO_CHANNELS, 0, 0;
      pairState, pairHeld, pairLogMs, pairLogSuppressed := NotApplicable, NotApplicable, 0, 0;
      seen := [];
    }

    /** max9296_health_forget_pair() */
    method ForgetPair()
      modifies this
      ensures Valid() && seen == []
    {
      pairHinf := NO_CHANNELS;
      pairSampleMs, pairFps := 0, 0;
      pairState, pairHeld, pairLogMs, pairLogSuppressed := NotApplicable, NotApplicable, 0, 0;
      seen := [];
    }

    /** What the counters say of the pair since the baseline. */
    method ComparePair(s: Sample) returns (pair: Pair)
      ensures pair == Judge(View().base, s)
    {
      var states: seq<HinfState> := [];
      for i := 0 to 2
        invariant |states| == i
        invariant forall k :: 0 <= k < i ==> states[k] == ChannelState(pairHinf[k], s.channels[k])
      {
        var state := Unknown;
        if s.channels[i].valid && pairHinf[i].valid {
          state := if pairHinf[i].count != s.channels[i].count then Progressing else Stalled;
        }
        states := states + [state];
      }
      pair := Decide(s.dual, s.streaming, states[0], states[1]);
    }

    /** The log gate: unchanged, held, or a line with what was logged before. */
    method GateVerdict(pair: Pair, now: int) returns (line: Line)
      modifies `pairState, `pairHeld, `pairLogMs, `pairLogSuppressed
      ensures View() == old(View()).(gate := GateStep(old(View().gate), pair, now))
      ensures line == if LogDecide(pair, old(pairState), now, old(pairLogMs), LOG_MIN_MS) == Emit
                      then Line(old(pairState), pairHinf, old(pairLogSuppressed)) else NoLine
    {
      line := NoLine;
      match LogDecide(pair, pairState, now, pairLogMs, LOG_MIN_MS) {
        case Unchanged =>
          pairHeld := pair;
        case Hold =>
          if pair != pairHeld {
            pairLogSuppressed := pairLogSuppressed + 1;
            pairHeld := pair;
          }
        case Emit =>
          line := Line(pairState, pairHinf, pairLogSuppressed);
          pairState, pairHeld, pairLogMs, pairLogSuppressed := pair, pair, now, 0;
      }
    }

    /** max9296_pair_verdict_locked() */
    method PairVerdict(s: Sample) returns (report: Report)
      requires Valid()
      modifies this
      ensures Valid() && seen == old(seen) + [s]
      ensures report == ReportOf(old(View()), s)
    {
      hide Judge, GateStep, LogDecide;
      assert (seen + [s])[..|seen|] == seen;
      var seeding := pairSampleMs == 0;
      var delta := if seeding then 0 else s.now - pairSampleMs;
      var gap := Classify(delta, s.fps);
      if !seeding && s.fps != pairFps {
        gap := TooLong;
      }
      var pair, line := NotApplicable, NoLine;
      if gap == Decidable {
        pair := ComparePair(s);
        line := GateVerdict(pair, s.now);
      }
      if seeding || gap != TooShort {
        pairHinf, pairSampleMs, pairFps := s.channels, s.now, s.fps;
      }
      report := Report(pair, ExportMs(delta), line);
      seen := seen + [s];
    }
  }

  // ----- the baseline -----

  /** A sample that follows sample `k` too soon to be judged against it. */
  predicate RefusedAgainst(k: Sample, s: Sample) {
    k.now != 0 && s.fps == k.fps && Classify(s.now - k.now, s.fps) == TooShort
  }

  /** The counters, the time and the rate of the baseline come from one and the same sample, and every
      later one came too soon after it. */
  lemma {:induction false} BaselineIsOneSample(ss: seq<Sample>) returns (k: nat)
    requires ss != []
    ensures k < |ss| && After(ss).base == Baseline(ss[k].channels, ss[k].now, ss[k].fps)
    ensures forall j :: k < j < |ss| ==> RefusedAgainst(ss[k], ss[j])
  {
    var n := |ss| - 1;
    var before, s := ss[..n], ss[n];
    if After(before).base.now == 0 || GapOf(After(before).base, s) != TooShort {
      k := n;
    } else {
      k := BaselineIsOneSample(before);
    }
  }

  /** A verdict other than NotApplicable compares two samples taken at one rate, and says of each channel
      whether its counter moved between them. */
  lemma {:induction false} VerdictComparesTwoSamples(ss: seq<Sample>, s: Sample) returns (k: nat)
    requires ReportOf(After(ss), s).pair != NotApplicable
    ensures k < |ss| && ss[k].channels == After(ss).base.channels && ss[k].fps == s.fps
    ensures Classify(s.now - ss[k].now, s.fps) == Decidable
    ensures forall i :: 0 <= i < 2 ==> ss[k].channels[i].valid && s.channels[i].valid
    ensures var pair := ReportOf(After(ss), s).pair;
            && (pair == Aligned <==> forall i :: 0 <= i < 2 ==> ss[k].channels[i].count != s.channels[i].count)
            && (pair == BothStalled <==> forall i :: 0 <= i < 2 ==> ss[k].channels[i].count == s.channels[i].count)
  {
    assert ss != [];
    k := BaselineIsOneSample(ss);
    assert After(ss).base.now != 0;
    assert ReportOf(After(ss), s).pair == Judge(After(ss).base, s);
  }

  /** A sample is judged against an earlier one: one rate, a gap that decides, a dual pair in operation and every
      counter read valid. */
  predicate Comparable(k: Sample, s: Sample) {
    && k.now != 0 && k.fps == s.fps && Classify(s.now - k.now, s.fps) == Decidable
    && s.dual && s.streaming
    && forall i :: 0 <= i < 2 ==> k.channels[i].valid && s.channels[i].valid
  }

  predicate Moved(k: Sample, s: Sample, i: nat)
    requires i < 2
  {
    s.channels[i].count != k.channels[i].count
  }

  /** A verdict is given whenever it can be: a sample that is comparable with the baseline sample is judged exactly by
      which counters moved, and any other gives none. */
  lemma {:induction false} VerdictIsDue(ss: seq<Sample>, s: Sample) returns (k: nat)
    requires ss != []
    ensures k < |ss| && After(ss).base == Baseline(ss[k].channels, ss[k].now, ss[k].fps)
    ensures forall j :: k < j < |ss| ==> RefusedAgainst(ss[k], ss[j])
    ensures ReportOf(After(ss), s).pair ==
            if !Comparable(ss[k], s) then NotApplicable
            else if Moved(ss[k], s, 0) && Moved(ss[k], s, 1) then Aligned
            else if !Moved(ss[k], s, 0) && !Moved(ss[k], s, 1) then BothStalled
            else Divergent
    ensures ReportOf(After(ss), s).gapMs ==
            if ss[k].now == 0 || s.now <= ss[k].now then 0 else if s.now - ss[k].now > 4294967295 then 4294967295
            else s.now - ss[k].now
  {
    hide After;
    k := BaselineIsOneSample(ss);
  }

  /** And the first sample after a reset gives none, but becomes the baseline. */
  lemma FirstSampleIsBaseline(s: Sample)
    ensures ReportOf(After([]), s).pair == NotApplicable && ReportOf(After([]), s).line == NoLine
    ensures After([s]).base == Baseline(s.channels, s.now, s.fps)
  {
    assert [s][..0] == [];
  }

  /** The baseline moves to the next sample exactly when that does not come too soon after it. */
  lemma {:induction false} BaselineMoves(ss: seq<Sample>, s: Sample) returns (k: nat)
    requires ss != []
    ensures k < |ss| && After(ss).base == Baseline(ss[k].channels, ss[k].now, ss[k].fps)
    ensures After(ss + [s]).base ==
            if RefusedAgainst(ss[k], s) then After(ss).base else Baseline(s.channels, s.now, s.fps)
  {
    k := BaselineIsOneSample(ss);
    assert (ss + [s])[..|ss|] == ss;
  }

  /** Reads of the counter of a channel that runs: taken when the clock reads the sample's time. */
  ghost predicate Runs(ss: seq<Sample>, i: nat, fps: nat, phase: real)
    requires i < 2
  {
    forall j :: 0 <= j < |ss| ==> ReadRunning(ss[j], i, fps, phase)
  }

  ghost predicate ReadRunning(s: Sample, i: nat, fps: nat, phase: real)
    requires i < 2
  {
    s.fps == fps && (s.channels[i].valid ==>
      exists t: real :: s.now == Read(t) && s.channels[i].count == Counter(Ticks(t, fps, phase)))
  }

  lemma {:induction false} TwoReadsDiffer(a: Sample, b: Sample, i: nat, fps: nat, phase: real)
    requires i < 2 && fps < 2000 && ReadRunning(a, i, fps, phase) && ReadRunning(b, i, fps, phase)
    requires a.channels[i].valid && b.channels[i].valid && Classify(b.now - a.now, b.fps) == Decidable
    ensures a.channels[i].count != b.channels[i].count
  {
    hide Read, Ticks, Counter, Classify;
    var t1: real :| a.now == Read(t1) && a.channels[i].count == Counter(Ticks(t1, fps, phase));
    var t2: real :| b.now == Read(t2) && b.channels[i].count == Counter(Ticks(t2, fps, phase));
    DecidableNeverMisreadsRunning(t1, t2, fps, phase);
  }

  /** A channel whose counter runs at the configured rate is never the reason for a fault: no sample ever
      finds it stalled, whatever the other channel does and however the samples are spaced. */
  lemma {:induction false} RunningChannelNeverStalls(ss: seq<Sample>, s: Sample, i: nat, fps: nat, phase: real)
    requires i < 2 && fps < 2000 && Runs(ss + [s], i, fps, phase)
    ensures var pair := ReportOf(After(ss), s).pair;
            && pair != BothStalled
            && (Fault(pair) ==> ChannelState(After(ss).base.channels[1 - i], s.channels[1 - i]) == Stalled)
  {
    hide ReadRunning, After, Classify, LogDecide;
    if ReportOf(After(ss), s).pair != NotApplicable {
      var k := VerdictComparesTwoSamples(ss, s);
      assert (ss + [s])[k] == ss[k] && (ss + [s])[|ss|] == s;
      TwoReadsDiffer(ss[k], s, i, fps, phase);
    }
  }

  // ----- the log gate -----

  /** One decided verdict: when, what, and whether it was logged. */
  datatype Entry = Entry(now: int, pair: Pair, emitted: bool)

  /** The decided verdicts since the last reset, in order. */
  function Decided(ss: seq<Sample>): seq<Entry> {
    if ss == [] then [] else
      var before, s := ss[..|ss| - 1], ss[|ss| - 1];
      var h := After(before);
      Decided(before) + if GapOf(h.base, s) == Decidable
                        then [Entry(s.now, Judge(h.base, s), ReportOf(h, s).line.Line?)] else []
  }

  /** The last logged verdict; NotApplicable when nothing was logged. */
  function LastLogged(es: seq<Entry>): Pair {
    if es == [] then NotApplicable
    else if es[|es| - 1].emitted then es[|es| - 1].pair
    else LastLogged(es[..|es| - 1])
  }

  function LastVerdict(es: seq<Entry>): Pair {
    if es == [] then NotApplicable else es[|es| - 1].pair
  }

  /** The transitions since the last logged verdict that led away from it: each is one held line. */
  function HeldTransitions(es: seq<Entry>): nat {
    if es == [] || es[|es| - 1].emitted then 0 else
      var before, e := es[..|es| - 1], es[|es| - 1];
      HeldTransitions(before) + if e.pair != LastVerdict(before) && e.pair != LastLogged(before) then 1 else 0
  }

  /** What the gate keeps is exactly this of the verdicts it saw. */
  lemma {:induction false} GateRemembers(ss: seq<Sample>)
    ensures var g, es := After(ss).gate, Decided(ss);
            && g.reported == LastLogged(es)
            && g.held == LastVerdict(es)
            && g.suppressed == HeldTransitions(es)
  {
    if ss != [] {
      var before := ss[..|ss| - 1];
      GateRemembers(before);
      if |Decided(ss)| > |Decided(before)| {
        assert Decided(ss)[..|Decided(ss)| - 1] == Decided(before);
      } else {
        assert Decided(ss) == Decided(before);
      }
    }
  }

  /** A staged line names the verdict logged before it and counts the transitions held since. */
  lemma {:induction false} LineTellsWhatWasHeld(ss: seq<Sample>, s: Sample)
    requires ReportOf(After(ss), s).line.Line?
    ensures var es, r := Decided(ss), ReportOf(After(ss), s);
            && r.line.previous == LastLogged(es) != r.pair
            && r.line.suppressed == HeldTransitions(es)
            && r.line.channels == After(ss).base.channels
            && r.pair == LastLogged(Decided(ss + [s]))
  {
    GateRemembers(ss);
    assert (ss + [s])[..|ss|] == ss;
    assert Decided(ss + [s])[..|Decided(ss)|] == Decided(ss);
  }

  /** Whenever the latest decided verdict is a fault, the latest logged one is a fault too: a reset right
      after it finds the evidence already logged. */
  lemma {:induction false} FaultIsAlwaysLogged(ss: seq<Sample>)
    ensures Fault(LastVerdict(Decided(ss))) ==> Fault(LastLogged(Decided(ss)))
  {
    if ss != [] {
      var before := ss[..|ss| - 1];
      FaultIsAlwaysLogged(before);
      GateRemembers(before);
      GateRemembers(ss);
    }
  }

  /** The logged verdicts among the decided ones. */
  function Logged(es: seq<Entry>): seq<Entry> {
    if es == [] then [] else
      Logged(es[..|es| - 1]) + if es[|es| - 1].emitted then [es[|es| - 1]] else []
  }

  /** Of any three consecutive lines the outer two are at least the minimum interval apart. */
  ghost predicate Spaced(logged: seq<Entry>) {
    forall k, n :: 0 <= k && n == k + 2 && n < |logged| ==> logged[n].now - logged[k].now >= LOG_MIN_MS
  }

  /** A line that is not about a fault kept its distance from the one before it. */
  predicate RoutineKeptDistance(logged: seq<Entry>) {
    |logged| >= 2 ==>
      var last, before := logged[|logged| - 1], logged[|logged| - 2];
      before.now <= last.now && (!Fault(last.pair) ==> last.now - before.now >= LOG_MIN_MS)
  }

  /** The gate's clock is the time of the last line, and zero exactly when there is none. */
  predicate GateTells(g: Gate, logged: seq<Entry>) {
    if logged == [] then g.loggedAt == 0 && g.reported == NotApplicable
    else g.loggedAt == logged[|logged| - 1].now > 0 && g.reported == logged[|logged| - 1].pair
  }

  lemma {:induction false} LogStep(g: Gate, logged: seq<Entry>, pair: Pair, now: int)
    requires GateTells(g, logged) && Spaced(logged) && RoutineKeptDistance(logged)
    requires 0 < now && g.loggedAt <= now
    ensures var emits := LogDecide(pair, g.reported, now, g.loggedAt, LOG_MIN_MS) == Emit;
            var logged' := logged + if emits then [Entry(now, pair, true)] else [];
            && GateTells(GateStep(g, pair, now), logged') && Spaced(logged') && RoutineKeptDistance(logged')
            && GateStep(g, pair, now).loggedAt <= now
  {
  }

  /** The baseline was taken no later than the next sample. */
  lemma {:induction false} BaselineNotAhead(ss: seq<Sample>)
    requires Clocked(ss) && ss != []
    ensures 0 <= After(ss[..|ss| - 1]).base.now <= ss[|ss| - 1].now
  {
    var before := ss[..|ss| - 1];
    if before != [] {
      var k := BaselineIsOneSample(before);
    }
  }

  lemma {:induction false} LogInvariant(ss: seq<Sample>)
    requires Clocked(ss)
    ensures var logged := Logged(Decided(ss));
            && GateTells(After(ss).gate, logged) && Spaced(logged) && RoutineKeptDistance(logged)
    ensures ss != [] ==> After(ss).gate.loggedAt <= ss[|ss| - 1].now
  {
    hide GateTells, Spaced, RoutineKeptDistance, LogDecide, GateStep, Decided, Logged, Judge;
    if ss == [] {
      EmptyLog();
    } else {
      var before, s := ss[..|ss| - 1], ss[|ss| - 1];
      var h := After(before);
      LogInvariant(before);
      LogGrows(before, s);
      BaselineNotAhead(ss);
      assert before + [s] == ss;
      var logged := Logged(Decided(before));
      if GapOf(h.base, s) == Decidable {
        assert After(ss).gate == GateStep(h.gate, Judge(h.base, s), s.now);
        LogStep(h.gate, logged, Judge(h.base, s), s.now);
      } else {
        assert logged + [] == logged && After(ss).gate == h.gate;
      }
    }
  }

  lemma {:induction false} EmptyLog()
    ensures var logged := Logged(Decided([]));
            GateTells(FORGOTTEN.gate, logged) && Spaced(logged) && RoutineKeptDistance(logged)
  {
  }

  /** What one more sample does to the log. */
  lemma {:induction false} LogGrows(before: seq<Sample>, s: Sample)
    ensures var h := After(before);
            Logged(Decided(before + [s])) == Logged(Decided(before)) +
              if ReportOf(h, s).line.Line? then [Entry(s.now, Judge(h.base, s), true)] else []
  {
    assert (before + [s])[..|before|] == before;
    var es := Decided(before);
    if GapOf(After(before).base, s) == Decidable {
      assert Decided(before + [s])[..|es|] == es;
    } else {
      assert Decided(before + [s]) == es;
    }
  }

  /** The log budget over any sequence of samples: of any three consecutive lines the first and the third
      are at least a second apart, so a pair that flaps writes at most two lines in any second. */
  lemma {:induction false} LinesAreSpaced(ss: seq<Sample>)
    requires Clocked(ss)
    ensures Spaced(Logged(Decided(ss)))
  {
    LogInvariant(ss);
  }

  /** A decided verdict is logged exactly when it differs from the last logged one and is news that cannot wait (a
      fault after none) or finds nothing logged yet or the last line old enough. */
  lemma {:induction false} LoggedExactlyWhen(ss: seq<Sample>, s: Sample)
    requires Clocked(ss) && GapOf(After(ss).base, s) == Decidable
    ensures var r, es := ReportOf(After(ss), s), Decided(ss);
            var logged := Logged(es);
            r.line.Line? <==>
              && r.pair != LastLogged(es)
              && (|| (Fault(r.pair) && !Fault(LastLogged(es)))
                  || logged == []
                  || s.now - logged[|logged| - 1].now >= LOG_MIN_MS)
  {
    hide Decided, Logged, LastLogged, Spaced, RoutineKeptDistance, After, Judge;
    GateRemembers(ss);
    LogInvariant(ss);
  }

  predicate HeldWithin(g: Gate, now: int) {
    && 0 <= g.loggedAt <= now
    && g.suppressed < LOG_MIN_MS
    && (g.suppressed > 0 ==> g.loggedAt > 0 && g.suppressed <= now - g.loggedAt)
  }

  lemma {:induction false} HeldStep(g: Gate, pair: Pair, earlier: int, now: int)
    requires HeldWithin(g, earlier) && earlier < now
    ensures HeldWithin(GateStep(g, pair, now), now)
  {
  }

  /** Held transitions are counted at most once a millisecond and only inside the budget's interval, so the
      count never comes near the width of its field. */
  lemma {:induction false} HeldCountIsBounded(ss: seq<Sample>)
    requires Clocked(ss)
    ensures HeldWithin(After(ss).gate, After(ss).base.now)
  {
    hide LogDecide;
    if ss != [] {
      var before, s := ss[..|ss| - 1], ss[|ss| - 1];
      var h := After(before);
      HeldCountIsBounded(before);
      BaselineNotAhead(ss);
      if GapOf(h.base, s) == Decidable {
        HeldStep(h.gate, Judge(h.base, s), h.base.now, s.now);
      }
    }
  }
}
