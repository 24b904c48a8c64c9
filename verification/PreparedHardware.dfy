/** What READY and a running stream say about the hardware: over whole runs, a lease that reads ready stands on
    hardware programmed for exactly its request, and a stream is committed only on hardware programmed for the
    fingerprint it was started with. */
module PreparedHardware {
  import opened PreviewPolicy
  import opened Fingerprint
  import opened BootStages
  import opened Protocol
  import opened ProtocolInvariants
  import opened ProtocolRuns

  /** The hardware is programmed for this fingerprint in this epoch and owes no exposure reinitialization. */
  predicate Fit(build: Build, d: Dev, epoch: nat, fp: Fingerprint) {
    HardwareMatches(build, d, epoch, fp) && !d.hw.reinit
  }

  /** A prepare for this request is under way on a held lease, which reserves its rate in this epoch. */
  predicate Underway(d: Dev, epoch: nat, fp: Fingerprint, gen: nat) {
    d.own.lease && Reserves(d, epoch) && d.net.reserved == fp.fps && d.ask.gen == gen && d.ask.fp == fp
  }

  /** The instance is prepared for exactly this request: its lease is held and ready under this generation, its
      rate is reserved in this epoch, and its hardware is fit for it. */
  predicate ReadyFor(build: Build, d: Dev, epoch: nat, fp: Fingerprint, gen: nat) {
    Underway(d, epoch, fp, gen) && d.ask == Ask(Ready, gen, gen, fp) && Fit(build, d, epoch, fp)
  }

  predicate Ending(t: Txn) {
    t.EndingLease? || t.Relinquish?
  }

  /** Valid hardware of a request that passed admission owes no reinitialization. */
  predicate NoDebt(d: Dev) {
    d.hw.valid ==> !d.hw.reinit
  }

  predicate FitLocal(build: Build, d: Dev, epoch: nat) {
    && (d.txn.Replay? || d.txn.Commit? ==> Fit(build, d, epoch, d.txn.fp))
    && (d.txn.Admitted? || d.txn.Acquired? ==> NoDebt(d))
    && (d.txn.Admitted? && d.own.lease && d.txn.hardwareCurrent ==> Fit(build, d, epoch, d.txn.fp))
    && ((d.txn.Cold? || d.txn.Loading?) && d.txn.caller.ForPrepare? ==>
          Underway(d, epoch, d.txn.fp, d.txn.caller.gen))
    && (d.own.lease && d.ask.state == Ready && !Ending(d.txn) ==> ReadyFor(build, d, epoch, d.ask.fp, d.ask.gen))
  }

  /** Ready means ready, and a start past its checks runs on fit hardware. */
  predicate FitInv(build: Build, b: Board) {
    FitLocal(build, b.me, b.epoch) && FitLocal(build, b.peer, b.epoch)
  }

  // ----- the acting instance -----

  lemma OwnPowerKeepsFit(build: Build, b: Board, op: PowerOp)
    requires StreamsInv(b) && FitLocal(build, b.me, b.epoch) && b.me.txn.Idle?
    ensures var b' := ApplyPower(b, op); FitLocal(build, b'.me, b'.epoch)
  {
    hide LeaseInv, ColdInv, Equal;
  }

  lemma OwnRequestKeepsFit(build: Build, b: Board, op: RequestOp)
    requires StreamsInv(b) && FitLocal(build, b.me, b.epoch) && RequestEnabled(b.me, op)
    ensures var b' := ApplyRequest(build, b, op); FitLocal(build, b'.me, b'.epoch)
  {
    hide LeaseInv, ColdInv, Equal, RequestEqual;
  }

  lemma OwnPrepareKeepsFit(build: Build, b: Board, op: PrepareOp)
    requires StreamsInv(b) && FitLocal(build, b.me, b.epoch) && PrepareEnabled(b.me, op)
    ensures var b' := ApplyPrepare(build, b, op); FitLocal(build, b'.me, b'.epoch)
  {
    hide LeaseInv, ColdInv, Equal;
  }

  lemma OwnColdKeepsFit(build: Build, b: Board, op: ColdOp)
    requires StreamsInv(b) && FitLocal(build, b.me, b.epoch) && ColdEnabled(b.me, op)
    ensures var b' := ApplyCold(b, op); FitLocal(build, b'.me, b'.epoch)
  {
    hide ColdInv;
  }

  lemma OwnLeaseKeepsFit(build: Build, b: Board, op: LeaseOp)
    requires StreamsInv(b) && FitLocal(build, b.me, b.epoch) && LeaseEnabled(b.me, op)
    ensures var b' := ApplyLease(b, op); FitLocal(build, b'.me, b'.epoch)
  {
    hide LeaseInv, ColdInv, Equal;
  }

  lemma OwnStreamKeepsFit(build: Build, b: Board, op: StreamOp)
    requires StreamsInv(b) && FitLocal(build, b.me, b.epoch) && StreamEnabled(b.me, op)
    requires op.StreamBind? ==> b.me.own.count > 0
    ensures var b' := ApplyStream(build, b, op); FitLocal(build, b'.me, b'.epoch)
  {
    hide LeaseInv, ColdInv, Equal;
  }

  lemma OwnRestKeepsFit(build: Build, b: Board, op: Op)
    requires StreamsInv(b) && FitLocal(build, b.me, b.epoch) && Enabled(b, op) && (op.OnOutput? || op.OnRemove?)
    ensures var b' := Apply(build, b, op); FitLocal(build, b'.me, b'.epoch)
  {
    hide LeaseInv, ColdInv, Equal;
  }

  // ----- over runs -----

  lemma OwnStepKeepsFit(build: Build, b: Board, op: Op)
    requires StreamsInv(b) && FitLocal(build, b.me, b.epoch) && Enabled(b, op) && PoweredStart(b, op)
    ensures var b' := Apply(build, b, op); FitLocal(build, b'.me, b'.epoch)
  {
    hide StreamsInv, FitLocal, ApplyPower, ApplyOutput, ApplyRemove, ApplyRequest, ApplyPrepare, ApplyCold, ApplyLease;
    hide ApplyStream, OutputEnabled, RemoveEnabled, RequestEnabled, PrepareEnabled, ColdEnabled, LeaseEnabled;
    hide StreamEnabled;
    match op
    case OnPower(o) => OwnPowerKeepsFit(build, b, o);
    case OnRequest(o) => OwnRequestKeepsFit(build, b, o);
    case OnPrepare(o) => OwnPrepareKeepsFit(build, b, o);
    case OnCold(o) => OwnColdKeepsFit(build, b, o);
    case OnLease(o) => OwnLeaseKeepsFit(build, b, o);
    case OnStream(o) => OwnStreamKeepsFit(build, b, o);
    case _ => OwnRestKeepsFit(build, b, op);
  }

  /** What the statement needs of an instance holds only while it owns power. */
  lemma FitNeedsPower(build: Build, d: Dev, epoch: nat, epoch': nat)
    requires PowerLocal(d) && CadenceLocal(d, epoch) && FitLocal(build, d, epoch) && !Accounted(d)
    ensures FitLocal(build, d, epoch')
  {
  }

  lemma TouchKeepsFit(build: Build, p: Dev, p': Dev, pulse: bool, epoch: nat)
    requires FitLocal(build, p, epoch) && Touched(Pulsed(p, pulse), p')
    ensures FitLocal(build, p', epoch) && Accounted(p') == Accounted(p)
  {
    hide Equal;
  }

  lemma SiblingStepKeepsFit(build: Build, b: Board, op: Op)
    requires StreamsInv(b) && FitLocal(build, b.peer, b.epoch) && Enabled(b, op)
    ensures var b' := Apply(build, b, op); FitLocal(build, b'.peer, b'.epoch)
  {
    hide Apply, Enabled, Touched, FitLocal, Accounted, LeaseInv, ColdInv, PowerLocal, CadenceLocal, Agree;
    var p' := Apply(build, b, op).peer;
    SiblingTouched(build, b, op);
    TouchKeepsFit(build, b.peer, p', PulsesPeer(op), b.epoch);
    if Accounted(b.peer) {
      AccountedFreezesEpoch(build, b, op);
    } else {
      FitNeedsPower(build, b.peer, b.epoch, Apply(build, b, op).epoch);
      TouchKeepsFit(build, b.peer, p', PulsesPeer(op), Apply(build, b, op).epoch);
    }
  }

  lemma FitStep(build: Build, b: Board, op: Op)
    requires StreamsInv(b) && FitInv(build, b) && Enabled(b, op) && PoweredStart(b, op)
    ensures FitInv(build, Apply(build, b, op))
  {
    hide Apply, Enabled, StreamsInv, FitLocal, PoweredStart;
    OwnStepKeepsFit(build, b, op);
    SiblingStepKeepsFit(build, b, op);
  }

  lemma FitStepBy(build: Build, b: Board, e: Event)
    requires StreamsInv(b) && FitInv(build, b) && CanStep(b, e) && PoweredStart(Seen(b, e.who), e.op)
    ensures FitInv(build, Step(build, b, e))
  {
    hide Apply, Enabled, StreamsInv, FitLocal, PoweredStart;
    SwapKeepsStreams(b);
    FitStep(build, Seen(b, e.who), e.op);
  }

  lemma FitStart(build: Build)
    ensures FitInv(build, START)
  {
  }

  lemma {:induction false} FitAlways(build: Build, ss: seq<Board>, es: seq<Event>, k: nat)
    requires PoweredRun(build, ss, es) && k < |ss|
    ensures FitInv(build, ss[k])
  {
    hide StreamsInv, CanStep, Step, PoweredStart, FitInv;
    if k == 0 {
      FitStart(build);
    } else {
      FitAlways(build, ss, es, k - 1);
      StreamsAlways(build, ss, es, k - 1);
      FitStepBy(build, ss[k - 1], es[k - 1]);
    }
  }

  // ----- main results -----

  /** In every reachable state a held lease that reads ready, and is not being ended, is ready: its rate is
      reserved in this epoch, its hardware programmed for exactly its fingerprint in this epoch, and no exposure
      reinitialization is owed. */
  lemma ReadyIsReady(build: Build, ss: seq<Board>, es: seq<Event>, who: bool, k: nat)
    requires PoweredRun(build, ss, es) && k < |ss|
    requires var d := DevOf(ss[k], who); d.own.lease && d.ask.state == Ready && !Ending(d.txn)
    ensures var d := DevOf(ss[k], who); ReadyFor(build, d, ss[k].epoch, d.ask.fp, d.ask.gen)
  {
    hide StreamsInv, ReadyFor;
    FitAlways(build, ss, es, k);
  }

  /** A start that is under way was bound for this fingerprint. */
  predicate StartsFor(t: Txn, fp: Fingerprint) {
    StreamPhase(t) && t.fp == fp
  }

  lemma StartKeepsFingerprint(build: Build, b: Board, e: Event, who: bool, fp: Fingerprint)
    requires CanStep(b, e) && StartsFor(DevOf(b, who).txn, fp) && StreamPhase(DevOf(Step(build, b, e), who).txn)
    ensures StartsFor(DevOf(Step(build, b, e), who).txn, fp)
  {
    hide Apply, Enabled;
    if e.who == who {
      OwnStartKeepsFingerprint(build, Seen(b, who), e.op, fp);
    } else {
      SiblingTouched(build, Seen(b, e.who), e.op);
    }
  }

  lemma OwnStartKeepsFingerprint(build: Build, b: Board, op: Op, fp: Fingerprint)
    requires Enabled(b, op) && StartsFor(b.me.txn, fp) && StreamPhase(Apply(build, b, op).me.txn)
    ensures StartsFor(Apply(build, b, op).me.txn, fp)
  {
    hide ApplyPower, ApplyPrepare, ApplyLease, Equal;
  }

  lemma {:induction false} StartsForUntil(build: Build, ss: seq<Board>, es: seq<Event>, who: bool, fp: Fingerprint,
                                          j: nat, k: nat)
    requires IsRun(build, ss, es) && j <= k < |ss| && StartsFor(DevOf(ss[j], who).txn, fp)
    requires forall m :: j <= m <= k ==> StreamPhase(DevOf(ss[m], who).txn)
    ensures StartsFor(DevOf(ss[k], who).txn, fp)
  {
    hide CanStep, Step, StartsFor, StreamPhase;
    if j < k {
      StartsForUntil(build, ss, es, who, fp, j, k - 1);
      assert StreamPhase(DevOf(ss[k], who).txn);
      StartKeepsFingerprint(build, ss[k - 1], es[k - 1], who, fp);
    }
  }

  lemma BindStartsFor(build: Build, b: Board, e: Event)
    requires CanStep(b, e) && e.op.OnStream? && e.op.stream.StreamBind?
    requires StreamPhase(DevOf(Step(build, b, e), e.who).txn)
    ensures StartsFor(DevOf(Step(build, b, e), e.who).txn, e.op.stream.fp)
  {
    hide Configure;
  }

  lemma CommitIsFit(build: Build, b: Board, e: Event, fp: Fingerprint)
    requires FitInv(build, b) && CanStep(b, e) && e.op == OnStream(StreamCommit)
    requires StartsFor(DevOf(b, e.who).txn, fp) && !DevOf(b, e.who).dying
    ensures var b' := Step(build, b, e); var d := DevOf(b', e.who);
            StreamCurrent(d, b'.epoch) && Fit(build, d, b'.epoch, fp)
  {
    hide Equal;
  }

  /** A stream is committed only on hardware that is programmed, in the epoch of the commit, for the fingerprint
      its start was bound with, whatever happened on the board in between. */
  lemma StreamRunsOnItsHardware(build: Build, ss: seq<Board>, es: seq<Event>, who: bool, fp: Fingerprint,
                                j: nat, k: nat)
    requires PoweredRun(build, ss, es) && j < k < |es|
    requires es[j] == Event(who, OnStream(StreamBind(fp))) && es[k] == Event(who, OnStream(StreamCommit))
    requires forall m :: j < m <= k ==> StreamPhase(DevOf(ss[m], who).txn)
    requires !DevOf(ss[k], who).dying
    ensures var d := DevOf(ss[k + 1], who);
            StreamCurrent(d, ss[k + 1].epoch) && Fit(build, d, ss[k + 1].epoch, fp)
  {
    hide StreamPhase, StartsFor, FitInv, Fit, StreamCurrent, PoweredStart;
    assert CanStep(ss[j], es[j]) && ss[j + 1] == Step(build, ss[j], es[j]);
    assert CanStep(ss[k], es[k]) && ss[k + 1] == Step(build, ss[k], es[k]);
    hide CanStep, Step;
    assert StreamPhase(DevOf(ss[j + 1], who).txn);
    BindStartsFor(build, ss[j], es[j]);
    StartsForUntil(build, ss, es, who, fp, j + 1, k);
    FitAlways(build, ss, es, k);
    CommitIsFit(build, ss[k], es[k], fp);
  }
}
