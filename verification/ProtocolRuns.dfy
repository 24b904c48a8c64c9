/** The board protocol over whole runs: what holds in every reachable state and between any two
    moments of a run, for every interleaving of the two instances, the workers and the timers. */
module ProtocolRuns {
  import opened PreviewPolicy
  import opened Fingerprint
  import opened BootStages
  import opened Protocol
  import opened ProtocolInvariants

  /** One step of one instance; `who` tells the two instances apart. */
  datatype Event = Event(who: bool, op: Op)

  function Seen(b: Board, who: bool): Board {
    if who then b else Swap(b)
  }

  function DevOf(b: Board, who: bool): Dev {
    if who then b.me else b.peer
  }

  predicate CanStep(b: Board, e: Event) {
    Enabled(Seen(b, e.who), e.op)
  }

  function Step(build: Build, b: Board, e: Event): Board
    requires CanStep(b, e)
  {
    Seen(Apply(build, Seen(b, e.who), e.op), e.who)
  }

  const PROBED := Dev(Ownership(0, false, false), Ask(PrepIdle, 0, 0, NO_FINGERPRINT), Timer(0, 0, 0, 0),
                      Cadence(0, 0, 30), Hardware(false, 0, NO_FINGERPRINT, 0, NO_BOOT, false, false),
                      STOPPED, false, Free, Idle)

  /** Both instances probed and linked, nobody powered, the first epoch. */
  const START := Board(0, 1, PROBED, PROBED)

  ghost predicate IsRun(build: Build, ss: seq<Board>, es: seq<Event>) {
    && |ss| == |es| + 1 && ss[0] == START
    && forall k :: 0 <= k < |es| ==> CanStep(ss[k], es[k]) && ss[k + 1] == Step(build, ss[k], es[k])
  }

  /** The caller starts streams only on powered instances. */
  ghost predicate StartsPowered(ss: seq<Board>, es: seq<Event>)
    requires |ss| == |es| + 1
  {
    forall k :: 0 <= k < |es| ==> PoweredStart(Seen(ss[k], es[k].who), es[k].op)
  }

  /** The caller returns the last local power reference only after the stream is off. */
  ghost predicate StopsBeforeOff(ss: seq<Board>, es: seq<Event>)
    requires |ss| == |es| + 1
  {
    forall k :: 0 <= k < |es| ==> StopBeforePowerOff(Seen(ss[k], es[k].who), es[k].op)
  }

  /** A run that obeys the first of the two caller orders. */
  ghost predicate PoweredRun(build: Build, ss: seq<Board>, es: seq<Event>) {
    IsRun(build, ss, es) && StartsPowered(ss, es)
  }

  // ----- reachable states -----

  lemma PowerStepBy(build: Build, b: Board, e: Event)
    requires PowerInv(b) && CanStep(b, e)
    ensures PowerInv(Step(build, b, e))
  {
    hide Apply, Enabled, PowerInv;
    SwapKeepsPower(b);
    PowerStep(build, Seen(b, e.who), e.op);
    SwapKeepsPower(Apply(build, Seen(b, e.who), e.op));
  }

  /** Power conservation in every reachable state, with no assumption about the caller. */
  lemma {:induction false} PowerAlways(build: Build, ss: seq<Board>, es: seq<Event>, k: nat)
    requires IsRun(build, ss, es) && k < |ss|
    ensures PowerInv(ss[k])
  {
    hide CanStep, Step, PowerInv;
    if k == 0 {
      PowerStart();
    } else {
      PowerAlways(build, ss, es, k - 1);
      PowerStepBy(build, ss[k - 1], es[k - 1]);
    }
  }

  lemma RequestStepBy(build: Build, b: Board, e: Event)
    requires RequestInv(b) && CanStep(b, e)
    ensures RequestInv(Step(build, b, e))
  {
    hide Apply, Enabled, RequestLocal;
    RequestStep(build, Seen(b, e.who), e.op);
  }

  /** In every reachable state a call that will give the request lock back holds it. */
  lemma {:induction false} RequestAlways(build: Build, ss: seq<Board>, es: seq<Event>, k: nat)
    requires IsRun(build, ss, es) && k < |ss|
    ensures RequestInv(ss[k])
  {
    hide CanStep, Step, RequestInv;
    if k == 0 {
      assert RequestInv(START) by {
        ProbedHoldsNoRequest();
      }
    } else {
      RequestAlways(build, ss, es, k - 1);
      RequestStepBy(build, ss[k - 1], es[k - 1]);
    }
  }

  lemma ProbedHoldsNoRequest()
    ensures RequestInv(START)
  {
  }

  predicate StreamsInv(b: Board) {
    PowerInv(b) && CadenceInv(b) && LeaseInv(b) && ColdInv(b)
  }

  lemma SwapKeepsStreams(b: Board)
    ensures StreamsInv(Swap(b)) == StreamsInv(b)
  {
  }

  lemma StreamsStep(build: Build, b: Board, op: Op)
    requires StreamsInv(b) && Enabled(b, op) && PoweredStart(b, op)
    ensures StreamsInv(Apply(build, b, op))
  {
    hide Apply, Enabled, PoweredStart, PowerInv, CadenceInv, LeaseInv, ColdInv;
    PowerStep(build, b, op);
    CadenceStep(build, b, op);
    LeaseStep(build, b, op);
    ColdStep(build, b, op);
  }

  lemma ProbedHoldsAlone()
    ensures PowerLocal(PROBED) && CadenceLocal(PROBED, 1) && LeaseLocal(PROBED) && ColdLocal(PROBED, 1, 0)
    ensures !Accounted(PROBED) && !Reserves(PROBED, 1)
  {
  }

  /** Two instances alike, each sound alone, with no user between them. */
  lemma HoldApart(b: Board)
    requires b.users == 0 && b.epoch == 1 && b.me == b.peer && !Accounted(b.me) && !Reserves(b.me, 1)
    requires PowerLocal(b.me) && CadenceLocal(b.me, 1) && LeaseLocal(b.me) && ColdLocal(b.me, 1, 0)
    ensures StreamsInv(b)
  {
    hide PowerLocal, CadenceLocal, LeaseLocal, ColdLocal, Accounted, Reserves;
  }

  lemma StreamsStart()
    ensures StreamsInv(START)
  {
    hide PowerLocal, CadenceLocal, LeaseLocal, ColdLocal, Accounted, Reserves, StreamsInv;
    ProbedHoldsAlone();
    HoldApart(START);
  }

  lemma PowerStart()
    ensures PowerInv(START)
  {
    hide PowerInv;
    StreamsStart();
  }

  lemma StreamsStepBy(build: Build, b: Board, e: Event)
    requires StreamsInv(b) && CanStep(b, e) && PoweredStart(Seen(b, e.who), e.op)
    ensures StreamsInv(Step(build, b, e))
  {
    hide Apply, Enabled, PoweredStart, StreamsInv;
    SwapKeepsStreams(b);
    StreamsStep(build, Seen(b, e.who), e.op);
    SwapKeepsStreams(Apply(build, Seen(b, e.who), e.op));
  }

  lemma {:induction false} StreamsAlways(build: Build, ss: seq<Board>, es: seq<Event>, k: nat)
    requires PoweredRun(build, ss, es) && k < |ss|
    ensures StreamsInv(ss[k])
  {
    hide StreamsInv, CanStep, Step, PoweredStart;
    if k == 0 {
      StreamsStart();
    } else {
      StreamsAlways(build, ss, es, k - 1);
      StreamsStepBy(build, ss[k - 1], es[k - 1]);
    }
  }

  lemma {:induction false} FsyncAlways(build: Build, ss: seq<Board>, es: seq<Event>, k: nat)
    requires PoweredRun(build, ss, es) && StopsBeforeOff(ss, es) && k < |ss|
    ensures FsyncInv(ss[k])
  {
    if k > 0 {
      FsyncAlways(build, ss, es, k - 1);
      StreamsAlways(build, ss, es, k - 1);
      var b, op := Seen(ss[k - 1], es[k - 1].who), es[k - 1].op;
      assert PoweredStart(b, op) && StopBeforePowerOff(b, op);
      FsyncStep(build, b, op);
    }
  }

  // ----- the epoch -----

  lemma EpochStep(build: Build, b: Board, e: Event)
    requires PowerInv(b) && CanStep(b, e)
    ensures b.epoch <= Step(build, b, e).epoch
  {
    hide Apply, Enabled, PowerInv;
    SwapKeepsPower(b);
    EpochMovesOnCrossings(build, Seen(b, e.who), e.op);
  }

  lemma SwapKeepsPower(b: Board)
    ensures PowerInv(Swap(b)) == PowerInv(b)
  {
  }

  lemma {:induction false} EpochNeverDecreases(build: Build, ss: seq<Board>, es: seq<Event>, j: nat, k: nat)
    requires IsRun(build, ss, es) && j <= k < |ss|
    ensures ss[j].epoch <= ss[k].epoch
  {
    hide PowerInv, CanStep, Step;
    if j < k {
      EpochNeverDecreases(build, ss, es, j, k - 1);
      PowerAlways(build, ss, es, k - 1);
      EpochStep(build, ss[k - 1], es[k - 1]);
    }
  }

  /** A step that leaves an instance accounted leaves the epoch where it is. */
  lemma AccountedStep(build: Build, b: Board, e: Event, who: bool)
    requires PowerInv(b) && CanStep(b, e)
    requires Accounted(DevOf(b, who)) && Accounted(DevOf(Step(build, b, e), who))
    ensures Step(build, b, e).epoch == b.epoch
  {
    hide Apply, Enabled;
    AccountedFreezesEpoch(build, Seen(b, e.who), e.op);
  }

  /** An instance that stays accounted over a stretch of a run sees one epoch throughout it, whatever
      its sibling does. */
  lemma {:induction false} AccountedSeesOneEpoch(build: Build, ss: seq<Board>, es: seq<Event>, who: bool, j: nat, k: nat)
    requires IsRun(build, ss, es) && j <= k < |ss|
    requires forall m :: j <= m <= k ==> Accounted(DevOf(ss[m], who))
    ensures ss[j].epoch == ss[k].epoch
  {
    hide PowerInv, CanStep, Step;
    if j < k {
      AccountedSeesOneEpoch(build, ss, es, who, j, k - 1);
      PowerAlways(build, ss, es, k - 1);
      assert Accounted(DevOf(ss[k - 1], who)) && Accounted(DevOf(ss[k], who));
      AccountedStep(build, ss[k - 1], es[k - 1], who);
    }
  }

  // ----- FSYNC authority -----

  predicate PulsesFor(e: Event, who: bool) {
    e.op.OnOutput? && e.op.output.Pulse? && (if e.who == who then e.op.output.mine else e.op.output.peers)
  }

  /** Every pulse goes out only for streams that hold a reservation of the current epoch at exactly
      the rate the instance runs at; a pulse shared by both streams serves a single rate. */
  lemma PulsesAreReserved(build: Build, ss: seq<Board>, es: seq<Event>, k: nat)
    requires PoweredRun(build, ss, es) && k < |es|
    ensures forall who :: PulsesFor(es[k], who) ==>
              var d := DevOf(ss[k], who);
              Reserves(d, ss[k].epoch) && d.net.reserved == d.net.fps && !d.dying
    ensures PulsesFor(es[k], true) && PulsesFor(es[k], false) ==> ss[k].me.net.fps == ss[k].peer.net.fps
  {
    StreamsAlways(build, ss, es, k);
  }

  /** A reservation of the running epoch can be given back but not re-rated. */
  lemma ReservedRateIsFixed(build: Build, b: Board, op: Op)
    requires Enabled(b, op) && b.epoch >= 1
    requires var b' := Apply(build, b, op);
             b'.epoch == b.epoch && Reserves(b.me, b.epoch) && Reserves(b'.me, b.epoch)
    ensures Apply(build, b, op).me.net.reserved == b.me.net.reserved
  {
  }

  /** What a step outside the acting instance's cold and stream calls leaves of its stamps: the
      latest attempt and commit are neither newer nor, for the attempt, older. */
  predicate StampsStay(d: Dev, d': Dev) {
    d'.hw.cold == d.hw.cold && (d'.run.commit == d.run.commit || d'.run.commit == 0) && (d'.run.fsync ==> d.run.fsync)
  }

  lemma PowerLeavesStamps(b: Board, op: PowerOp)
    ensures StampsStay(b.me, ApplyPower(b, op).me)
  {
  }

  lemma PrepareLeavesStamps(build: Build, b: Board, op: PrepareOp)
    requires PrepareEnabled(b.me, op)
    ensures StampsStay(b.me, ApplyPrepare(build, b, op).me)
  {
  }

  lemma LeaseLeavesStamps(b: Board, op: LeaseOp)
    requires LeaseEnabled(b.me, op)
    ensures StampsStay(b.me, ApplyLease(b, op).me)
  {
  }

  lemma RequestLeavesStamps(build: Build, b: Board, op: RequestOp)
    requires RequestEnabled(b.me, op)
    ensures StampsStay(b.me, ApplyRequest(build, b, op).me)
  {
  }

  lemma StreamLeavesStamps(build: Build, b: Board, op: StreamOp)
    requires StreamEnabled(b.me, op)
    ensures op.StreamCommit? || StampsStay(b.me, ApplyStream(build, b, op).me)
  {
  }

  lemma ColdEndLeavesStamps(d: Dev, epoch: nat, outcome: Outcome)
    requires d.txn.Loading?
    ensures StampsStay(d, ColdEnded(d, epoch, outcome))
  {
  }

  lemma OthersLeaveStamps(build: Build, b: Board, op: Op)
    requires Enabled(b, op) && !op.OnCold? && !op.OnOutput? && (op.OnStream? ==> !op.stream.StreamCommit?)
    ensures StampsStay(b.me, Apply(build, b, op).me)
  {
    hide ApplyPower, ApplyPrepare, ApplyLease, ApplyRequest, ApplyStream;
    match op
    case OnPower(o) => PowerLeavesStamps(b, o);
    case OnRequest(o) => RequestLeavesStamps(build, b, o);
    case OnPrepare(o) => PrepareLeavesStamps(build, b, o);
    case OnLease(o) => LeaseLeavesStamps(b, o);
    case OnStream(o) => StreamLeavesStamps(build, b, o);
    case OnRemove(o) =>
  }

  /** What any step does to the acting instance's stamps: only a commit sets the commit stamp, only a
      cold initialization the attempt's, both to the running epoch, and only a pulse publishes FSYNC. */
  lemma StampsMove(build: Build, b: Board, op: Op)
    requires Enabled(b, op)
    ensures var d, d' := b.me, Apply(build, b, op).me;
            && (d'.run.commit == d.run.commit || d'.run.commit == 0 || d'.run.commit == b.epoch)
            && (d'.hw.cold == d.hw.cold || d'.hw.cold == b.epoch)
            && (d'.run.fsync ==> d.run.fsync || (PulsesFor(Event(true, op), true) && d.run.streaming))
  {
    hide ApplyPower, ApplyPrepare, ApplyLease, ApplyRequest, ApplyRemove, ColdEnded;
    if op.OnCold? && op.cold.ColdEnd? {
      ColdEndLeavesStamps(b.me, b.epoch, op.cold.outcome);
    }
    if !op.OnCold? && !op.OnOutput? && (op.OnStream? ==> !op.stream.StreamCommit?) {
      hide Apply, Enabled;
      OthersLeaveStamps(build, b, op);
    }
  }

  lemma EntitledStepBy(build: Build, b: Board, e: Event, who: bool)
    requires StreamsInv(b) && CanStep(b, e) && StreamsInv(Step(build, b, e))
    requires StreamCurrent(DevOf(b, who), b.epoch)
    requires StreamCurrent(DevOf(Step(build, b, e), who), Step(build, b, e).epoch)
    ensures Step(build, b, e).epoch == b.epoch && DevOf(Step(build, b, e), who).net == DevOf(b, who).net
  {
    hide Apply, Enabled;
    EpochMovesOnCrossings(build, Seen(b, e.who), e.op);
    if e.who == who {
      StampsMove(build, Seen(b, e.who), e.op);
      ReservedRateIsFixed(build, Seen(b, e.who), e.op);
    } else {
      SiblingTouched(build, Seen(b, e.who), e.op);
    }
  }

  /** Whatever the sibling, a failed call, a cancel, an expiry or a removal does in between: as long as
      a stream stays entitled to pulse, its reservation and its live rate stay put. */
  lemma {:induction false} EntitledStreamKeepsRate(build: Build, ss: seq<Board>, es: seq<Event>, who: bool, j: nat, k: nat)
    requires PoweredRun(build, ss, es) && j <= k < |ss|
    requires forall m :: j <= m <= k ==> StreamCurrent(DevOf(ss[m], who), ss[m].epoch)
    ensures ss[k].epoch == ss[j].epoch && DevOf(ss[k], who).net == DevOf(ss[j], who).net
  {
    hide StreamsInv, CanStep, Step, PoweredStart, StreamCurrent;
    if j < k {
      EntitledStreamKeepsRate(build, ss, es, who, j, k - 1);
      StreamsAlways(build, ss, es, k - 1);
      StreamsAlways(build, ss, es, k);
      assert StreamCurrent(DevOf(ss[k - 1], who), ss[k - 1].epoch) && StreamCurrent(DevOf(ss[k], who), ss[k].epoch);
      EntitledStepBy(build, ss[k - 1], es[k - 1], who);
    }
  }

  // ----- pulse before output -----

  /** The pulse at step j serves `who`, and the stream it serves runs without a break up to step k. */
  predicate PulsedSince(ss: seq<Board>, es: seq<Event>, who: bool, j: nat, k: nat)
    requires j < |es| && k < |ss| == |es| + 1
  {
    j < k && PulsesFor(es[j], who) && forall m :: j <= m <= k ==> DevOf(ss[m], who).run.streaming
  }

  lemma FsyncNeedsPulseBy(build: Build, b: Board, e: Event, who: bool)
    requires CanStep(b, e) && DevOf(Step(build, b, e), who).run.fsync
    ensures DevOf(b, who).run.fsync || (PulsesFor(e, who) && DevOf(b, who).run.streaming)
  {
    hide Apply, Enabled;
    if e.who == who {
      StampsMove(build, Seen(b, e.who), e.op);
    } else {
      SiblingTouched(build, Seen(b, e.who), e.op);
    }
  }

  lemma {:induction false} FsyncStemsFromPulse(build: Build, ss: seq<Board>, es: seq<Event>, who: bool, k: nat)
      returns (j: nat)
    requires PoweredRun(build, ss, es) && StopsBeforeOff(ss, es) && k < |ss|
    requires DevOf(ss[k], who).run.fsync
    ensures j < |es| && PulsedSince(ss, es, who, j, k)
  {
    hide CanStep, Step, PoweredStart, StopBeforePowerOff, PulsesFor;
    FsyncAlways(build, ss, es, k);
    if k == 0 {
      assert false;
    } else {
      FsyncNeedsPulseBy(build, ss[k - 1], es[k - 1], who);
      if DevOf(ss[k - 1], who).run.fsync {
        j := FsyncStemsFromPulse(build, ss, es, who, k - 1);
      } else {
        j := k - 1;
      }
    }
  }

  predicate EnablesOutput(e: Event, who: bool) {
    e.who == who && e.op == OnOutput(EnableOutput)
  }

  /** Every CSI output enable comes after a pulse that was authorized by the very stream life it
      enables: between that pulse and the enable the stream never stops. */
  lemma OutputFollowsPulse(build: Build, ss: seq<Board>, es: seq<Event>, who: bool, k: nat) returns (j: nat)
    requires PoweredRun(build, ss, es) && StopsBeforeOff(ss, es) && k < |es| && EnablesOutput(es[k], who)
    ensures j < |es| && PulsedSince(ss, es, who, j, k)
  {
    assert CanStep(ss[k], es[k]);
    j := FsyncStemsFromPulse(build, ss, es, who, k);
  }

  // ----- reservations -----

  /** The rate an instance reserves in the current epoch, if any. */
  datatype Reservation = None | At(fps: nat)

  function ReservationOf(b: Board, who: bool): Reservation {
    var d := DevOf(b, who);
    if Reserves(d, b.epoch) then At(d.net.reserved) else None
  }

  predicate InStart(t: Txn) {
    StreamPhase(t) || t.Abort?
  }

  /** Whether the bind of the running start created the reservation. */
  function BindCreated(t: Txn): bool
    requires InStart(t)
  {
    if t.Cold? || t.Loading? then t.caller.bindReserved else t.bindReserved
  }

  /** A start under way on an idle instance remembers how to undo its own bind and nothing else. */
  predicate StartUndoable(d: Dev, epoch: nat, before: Reservation) {
    && InStart(d.txn) && !d.run.streaming
    && (if BindCreated(d.txn) then before == None
        else before == if Reserves(d, epoch) then At(d.net.reserved) else None)
  }

  lemma StartBindsUndoably(build: Build, b: Board, fp: Fingerprint)
    requires StreamsInv(b) && b.me.request.Free? && b.me.txn.Idle? && !b.me.run.streaming
    ensures var b' := DoStreamBind(b, fp);
            b'.epoch == b.epoch
            && (b'.me.txn.Idle? || StartUndoable(b'.me, b.epoch, ReservationOf(b, true)))
  {
  }

  lemma OwnCallKeepsUndoable(build: Build, b: Board, op: Op, before: Reservation)
    requires Enabled(b, op) && (op.OnCold? || op.OnStream?) && InStart(Apply(build, b, op).me.txn)
    requires StartUndoable(b.me, b.epoch, before)
    ensures var b' := Apply(build, b, op); b'.epoch == b.epoch && StartUndoable(b'.me, b'.epoch, before)
  {
  }

  lemma OwnStepKeepsUndoable(build: Build, b: Board, op: Op, before: Reservation)
    requires Enabled(b, op) && InStart(Apply(build, b, op).me.txn) && StartUndoable(b.me, b.epoch, before)
    ensures var b' := Apply(build, b, op); b'.epoch == b.epoch && StartUndoable(b'.me, b'.epoch, before)
  {
    hide ApplyPower, ApplyPrepare, ApplyCold, ApplyLease, ApplyStream;
    if op.OnCold? || op.OnStream? {
      hide Apply, StartUndoable;
      OwnCallKeepsUndoable(build, b, op, before);
    }
  }

  lemma SiblingStepKeepsUndoable(build: Build, b: Board, op: Op, before: Reservation)
    requires PowerInv(b) && CadenceInv(b) && Enabled(b, op) && StartUndoable(b.peer, b.epoch, before)
    ensures var b' := Apply(build, b, op); b'.epoch == b.epoch && StartUndoable(b'.peer, b'.epoch, before)
  {
    hide Apply, Enabled;
    SiblingTouched(build, b, op);
    assert Accounted(b.peer) && Accounted(Apply(build, b, op).peer);
    AccountedFreezesEpoch(build, b, op);
  }

  lemma StartStaysUndoable(build: Build, b: Board, e: Event, who: bool, before: Reservation)
    requires StreamsInv(b) && CanStep(b, e) && StartUndoable(DevOf(b, who), b.epoch, before)
    requires InStart(DevOf(Step(build, b, e), who).txn)
    ensures var b' := Step(build, b, e); b'.epoch == b.epoch && StartUndoable(DevOf(b', who), b'.epoch, before)
  {
    hide Apply, Enabled, PowerInv, CadenceInv, LeaseInv, ColdInv, StartUndoable;
    SwapKeepsStreams(b);
    if e.who == who {
      OwnStepKeepsUndoable(build, Seen(b, e.who), e.op, before);
    } else {
      SiblingStepKeepsUndoable(build, Seen(b, e.who), e.op, before);
    }
  }

  /** A start of an idle instance that fails gives back exactly what its own bind took: the instance
      reserves afterwards what it reserved before, whatever the sibling did in between. */
  lemma FailedStartRestoresReservation(build: Build, ss: seq<Board>, es: seq<Event>, who: bool, j: nat, k: nat)
    requires PoweredRun(build, ss, es) && j < k < |es|
    requires es[j].who == who && es[j].op.OnStream? && es[j].op.stream.StreamBind?
    requires !DevOf(ss[j], who).run.streaming && (forall m :: j < m <= k ==> InStart(DevOf(ss[m], who).txn))
    requires es[k] == Event(who, OnStream(StreamAbort))
    ensures ss[k + 1].epoch == ss[j].epoch && ReservationOf(ss[k + 1], who) == ReservationOf(ss[j], who)
  {
    hide StreamsInv, StartUndoable;
    var before := ReservationOf(ss[j], who);
    StreamsAlways(build, ss, es, j);
    assert InStart(DevOf(ss[j + 1], who).txn);
    BindStartsUndoable(build, ss[j], es[j]);
    StaysUndoableUntil(build, ss, es, who, before, j + 1, k);
    StreamsAlways(build, ss, es, k);
    AbortUndoes(build, ss[k], es[k], before);
  }

  lemma BindStartsUndoable(build: Build, b: Board, e: Event)
    requires StreamsInv(b) && CanStep(b, e) && e.op.OnStream? && e.op.stream.StreamBind?
    requires !DevOf(b, e.who).run.streaming && InStart(DevOf(Step(build, b, e), e.who).txn)
    ensures var b' := Step(build, b, e);
            b'.epoch == b.epoch && StartUndoable(DevOf(b', e.who), b'.epoch, ReservationOf(b, e.who))
  {
    SwapKeepsStreams(b);
    StartBindsUndoably(build, Seen(b, e.who), e.op.stream.fp);
  }

  lemma {:induction false} StaysUndoableUntil(build: Build, ss: seq<Board>, es: seq<Event>, who: bool, before: Reservation,
                                              j: nat, k: nat)
    requires PoweredRun(build, ss, es) && j <= k < |ss|
    requires StartUndoable(DevOf(ss[j], who), ss[j].epoch, before)
    requires forall m :: j <= m <= k ==> InStart(DevOf(ss[m], who).txn)
    ensures ss[k].epoch == ss[j].epoch && StartUndoable(DevOf(ss[k], who), ss[k].epoch, before)
  {
    hide StreamsInv, StartUndoable, CanStep, Step, PoweredStart;
    if j < k {
      StaysUndoableUntil(build, ss, es, who, before, j, k - 1);
      assert InStart(DevOf(ss[k], who).txn);
      StreamsAlways(build, ss, es, k - 1);
      StartStaysUndoable(build, ss[k - 1], es[k - 1], who, before);
    }
  }

  lemma AbortUndoes(build: Build, b: Board, e: Event, before: Reservation)
    requires StreamsInv(b) && CanStep(b, e) && e.op == OnStream(StreamAbort)
    requires StartUndoable(DevOf(b, e.who), b.epoch, before)
    ensures var b' := Step(build, b, e); b'.epoch == b.epoch && ReservationOf(b', e.who) == before
  {
  }

  /** A reservation that no lease and no running start may give back. */
  predicate Kept(d: Dev, epoch: nat, fps: nat) {
    && Reserves(d, epoch) && d.net.reserved == fps
    && !d.own.reserved && (InStart(d.txn) ==> !BindCreated(d.txn)) && !d.txn.StopDrop?
  }

  /** The output disable of a running stream failed: the stream is over and its reservation is kept. */
  lemma FailedStopKeeps(build: Build, b: Board)
    requires StreamsInv(b) && b.me.txn.Idle? && !b.me.dying && b.me.run.streaming && Reserves(b.me, b.epoch)
    ensures var b' := ApplyStream(build, b, StreamOff(false));
            !b'.me.run.streaming && b'.epoch == b.epoch && Kept(b'.me, b.epoch, b.me.net.reserved)
  {
  }

  lemma OwnPrepareKeeps(build: Build, b: Board, op: PrepareOp, fps: nat)
    requires PowerInv(b) && b.epoch >= 1 && PrepareEnabled(b.me, op) && Kept(b.me, b.epoch, fps)
    requires ApplyPrepare(build, b, op).epoch == b.epoch
    ensures Kept(ApplyPrepare(build, b, op).me, b.epoch, fps)
  {
  }

  lemma OwnStreamKeeps(build: Build, b: Board, op: StreamOp, fps: nat)
    requires b.epoch >= 1 && StreamEnabled(b.me, op) && Kept(b.me, b.epoch, fps)
    requires !ApplyStream(build, b, op).me.txn.StopDrop?
    ensures Kept(ApplyStream(build, b, op).me, b.epoch, fps)
  {
  }

  lemma OwnPowerKeeps(b: Board, op: PowerOp, fps: nat)
    requires b.epoch >= 1 && b.me.txn.Idle? && Kept(b.me, b.epoch, fps)
    requires ApplyPower(b, op).epoch == b.epoch
    ensures Kept(ApplyPower(b, op).me, b.epoch, fps)
  {
  }

  lemma OwnLeaseKeeps(b: Board, op: LeaseOp, fps: nat)
    requires LeaseEnabled(b.me, op) && Kept(b.me, b.epoch, fps) && ApplyLease(b, op).epoch == b.epoch
    ensures Kept(ApplyLease(b, op).me, b.epoch, fps)
  {
  }

  lemma OwnRequestKeeps(build: Build, b: Board, op: RequestOp, fps: nat)
    requires RequestEnabled(b.me, op) && Kept(b.me, b.epoch, fps)
    ensures Kept(ApplyRequest(build, b, op).me, b.epoch, fps)
  {
  }

  lemma OwnStepKeeps(build: Build, b: Board, op: Op, fps: nat)
    requires PowerInv(b) && b.epoch >= 1 && Enabled(b, op) && Kept(b.me, b.epoch, fps)
    requires var b' := Apply(build, b, op); b'.epoch == b.epoch && !b'.me.txn.StopDrop?
    ensures Kept(Apply(build, b, op).me, b.epoch, fps)
  {
    hide ApplyPower, ApplyRequest, ApplyPrepare, ApplyLease, ApplyStream;
    hide RequestEnabled, PrepareEnabled, LeaseEnabled, StreamEnabled, PowerInv;
    match op
    case OnRequest(o) => OwnRequestKeeps(build, b, o, fps);
    case OnLease(o) => OwnLeaseKeeps(b, o, fps);
    case OnPower(o) => OwnPowerKeeps(b, o, fps);
    case OnPrepare(o) => OwnPrepareKeeps(build, b, o, fps);
    case OnStream(o) => OwnStreamKeeps(build, b, o, fps);
    case _ =>
  }

  lemma SiblingStepKeeps(build: Build, b: Board, op: Op, fps: nat)
    requires Enabled(b, op) && Kept(b.peer, b.epoch, fps)
    ensures Kept(Apply(build, b, op).peer, b.epoch, fps)
  {
    hide Apply, Enabled;
    SiblingTouched(build, b, op);
  }

  lemma KeptStepBy(build: Build, b: Board, e: Event, who: bool, fps: nat)
    requires StreamsInv(b) && CanStep(b, e) && Kept(DevOf(b, who), b.epoch, fps)
    requires var b' := Step(build, b, e); b'.epoch == b.epoch && !DevOf(b', who).txn.StopDrop?
    ensures Kept(DevOf(Step(build, b, e), who), b.epoch, fps)
  {
    hide Apply, Enabled, Kept;
    if e.who == who {
      OwnStepKeeps(build, Seen(b, e.who), e.op, fps);
    } else {
      SiblingStepKeeps(build, Seen(b, e.who), e.op, fps);
    }
  }

  /** A reservation kept by a failed output disable survives every later start, prepare, cancel, expiry
      and retry of the stop, until a stop that ends a stream disables the output successfully (it then
      enters its drop section) or the epoch moves. */
  lemma {:induction false} KeptReservationSurvives(build: Build, ss: seq<Board>, es: seq<Event>, who: bool, fps: nat,
                                                   j: nat, k: nat)
    requires PoweredRun(build, ss, es) && j <= k < |ss|
    requires Kept(DevOf(ss[j], who), ss[j].epoch, fps)
    requires forall m :: j <= m <= k ==> ss[m].epoch == ss[j].epoch && !DevOf(ss[m], who).txn.StopDrop?
    ensures Kept(DevOf(ss[k], who), ss[k].epoch, fps)
  {
    hide StreamsInv, CanStep, Step, PoweredStart, Kept;
    if j < k {
      KeptReservationSurvives(build, ss, es, who, fps, j, k - 1);
      StreamsAlways(build, ss, es, k - 1);
      assert ss[k - 1].epoch == ss[k].epoch && !DevOf(ss[k], who).txn.StopDrop?;
      KeptStepBy(build, ss[k - 1], es[k - 1], who, fps);
    }
  }

  /** Told from the stop itself: what the failed output disable of a running stream leaves reserved is
      still reserved at every later moment before such a stop or an epoch advance. */
  lemma FailedStopReservationOutlives(build: Build, ss: seq<Board>, es: seq<Event>, who: bool, j: nat, k: nat)
    requires PoweredRun(build, ss, es) && j < k < |ss|
    requires es[j] == Event(who, OnStream(StreamOff(false)))
    requires var d := DevOf(ss[j], who); d.run.streaming && Reserves(d, ss[j].epoch) && !d.dying
    requires forall m :: j < m <= k ==> ss[m].epoch == ss[j].epoch && !DevOf(ss[m], who).txn.StopDrop?
    ensures ReservationOf(ss[k], who) == ReservationOf(ss[j], who) == At(DevOf(ss[j], who).net.reserved)
  {
    hide StreamsInv;
    StreamsAlways(build, ss, es, j);
    FailedStopKeepsBy(build, ss[j], es[j]);
    KeptReservationSurvives(build, ss, es, who, DevOf(ss[j], who).net.reserved, j + 1, k);
  }

  lemma FailedStopKeepsBy(build: Build, b: Board, e: Event)
    requires StreamsInv(b) && CanStep(b, e) && e.op == OnStream(StreamOff(false))
    requires var d := DevOf(b, e.who); d.run.streaming && Reserves(d, b.epoch) && !d.dying
    ensures var b' := Step(build, b, e);
            b'.epoch == b.epoch && Kept(DevOf(b', e.who), b.epoch, DevOf(b, e.who).net.reserved)
  {
    SwapKeepsStreams(b);
    FailedStopKeeps(build, Seen(b, e.who));
  }

  // ----- the lease timer -----

  /** Outside a request every held lease of a live instance is ready or stale, its generations match
      and its timeout is queued or already waits for the instance lock. */
  lemma LeaseAlwaysTimed(build: Build, ss: seq<Board>, es: seq<Event>, who: bool, k: nat)
    requires PoweredRun(build, ss, es) && k < |ss|
    requires var d := DevOf(ss[k], who); d.own.lease && d.txn.Idle? && d.request.Free? && !d.dying
    ensures var d := DevOf(ss[k], who); LeaseArmed(d) && TimeoutUnderway(d)
  {
    StreamsAlways(build, ss, es, k);
  }

  /** A timer callback that ends a lease stems from the latest arming of that very lease, although a
      consuming s_power cancels the work without waiting for it. */
  lemma ExpiryEndsItsOwnLease(build: Build, ss: seq<Board>, es: seq<Event>, k: nat)
    requires PoweredRun(build, ss, es) && k < |es| && es[k].op == OnRequest(TimerRun)
    requires EndsBy(DevOf(ss[k + 1], es[k].who).txn, TimedOut)
    ensures var d := DevOf(ss[k], es[k].who);
            d.own.lease && d.timer.firing == d.timer.lease != 0 && !d.run.streaming
  {
    StreamsAlways(build, ss, es, k);
    assert CanStep(ss[k], es[k]);
  }

  // ----- cold initialization -----

  /** The event starts a mode-table walk of `who`. */
  predicate StartsWalk(b: Board, e: Event, who: bool) {
    e.who == who && e.op == OnCold(ColdBegin(false)) && DevOf(b, who).txn.Cold? && DevOf(b, who).hw.cold != b.epoch
  }

  lemma ColdStampGrowsBy(build: Build, b: Board, e: Event, who: bool)
    requires StreamsInv(b) && CanStep(b, e)
    ensures DevOf(b, who).hw.cold <= DevOf(Step(build, b, e), who).hw.cold
  {
    hide Apply, Enabled;
    if e.who == who {
      StampsMove(build, Seen(b, e.who), e.op);
    } else {
      SiblingTouched(build, Seen(b, e.who), e.op);
    }
  }

  lemma {:induction false} ColdStampNeverDecreases(build: Build, ss: seq<Board>, es: seq<Event>, who: bool, j: nat, k: nat)
    requires PoweredRun(build, ss, es) && j <= k < |ss|
    ensures DevOf(ss[j], who).hw.cold <= DevOf(ss[k], who).hw.cold
  {
    hide StreamsInv, CanStep, Step, PoweredStart;
    if j < k {
      ColdStampNeverDecreases(build, ss, es, who, j, k - 1);
      StreamsAlways(build, ss, es, k - 1);
      ColdStampGrowsBy(build, ss[k - 1], es[k - 1], who);
    }
  }

  /** One instance starts at most one mode-table walk in one power epoch, and each starts from
      power-on serializer addresses on an instance that owns power. */
  lemma OneWalkPerEpoch(build: Build, ss: seq<Board>, es: seq<Event>, who: bool, j: nat, k: nat)
    requires PoweredRun(build, ss, es) && j < k < |es|
    requires StartsWalk(ss[j], es[j], who) && StartsWalk(ss[k], es[k], who)
    ensures ss[j].epoch < ss[k].epoch
    ensures Accounted(DevOf(ss[k], who)) && !DevOf(ss[k], who).hw.remapped
  {
    StreamsAlways(build, ss, es, j);
    StreamsAlways(build, ss, es, k);
    WalkStartsFresh(build, Seen(ss[k], who));
    assert ss[j + 1] == Step(build, ss[j], es[j]);
    assert DevOf(ss[j + 1], who).hw.cold == ss[j].epoch;
    ColdStampNeverDecreases(build, ss, es, who, j + 1, k);
  }

  /** After a walk has started, however it ended, every later attempt of that instance in the same epoch writes
      nothing and fails: serializers and boot record stay as they were, the hardware is left invalid, and the
      caller is sent to its failure path with ESTALE, or with the preflight's error when that came first. */
  lemma RetryInEpochWritesNothing(build: Build, ss: seq<Board>, es: seq<Event>, who: bool, refused: bool, j: nat, k: nat)
    requires PoweredRun(build, ss, es) && j < k < |es| && ss[k].epoch == ss[j].epoch
    requires StartsWalk(ss[j], es[j], who) && es[k] == Event(who, OnCold(ColdBegin(refused)))
    ensures var d, d' := DevOf(ss[k], who), DevOf(ss[k + 1], who);
            && d'.hw == d.hw.(valid := false, epoch := 0) && d'.run == d.run.(commit := 0)
            && (d'.txn.Abort? || EndsBy(d'.txn, FailedLease))
            && d'.txn.ret == if refused then EINVAL else ESTALE
  {
    hide StreamsInv;
    StreamsAlways(build, ss, es, k);
    assert CanStep(ss[j], es[j]) && ss[j + 1] == Step(build, ss[j], es[j]);
    assert DevOf(ss[j + 1], who).hw.cold == ss[j].epoch;
    ColdStampNeverDecreases(build, ss, es, who, j + 1, k);
    assert CanStep(ss[k], es[k]) && ss[k + 1] == Step(build, ss[k], es[k]);
    StampNotAhead(ss[k], who);
    RetryWritesNothing(build, Seen(ss[k], who), refused);
  }

  lemma StampNotAhead(b: Board, who: bool)
    requires StreamsInv(b)
    ensures DevOf(b, who).hw.cold <= b.epoch
  {
  }

  /** Valid hardware always stems from the latest cold attempt: same epoch, same fingerprint, and a
      last boot check that ran after configuration and passed. */
  lemma ValidHardwareIsProven(build: Build, ss: seq<Board>, es: seq<Event>, who: bool, k: nat)
    requires PoweredRun(build, ss, es) && k < |ss| && DevOf(ss[k], who).hw.valid
    ensures var hw := DevOf(ss[k], who).hw;
            hw.boot == Boot(hw.epoch, hw.fp, PostConfig, false) && hw.cold == hw.epoch <= ss[k].epoch
  {
    StreamsAlways(build, ss, es, k);
  }
}
