/** A lease gives back exactly the reservation it took: over its whole life, renewals, control writes and the sibling's
    steps included, its end leaves the instance reserving what it reserved when the lease was published. */
module LeaseReservation {
  import opened PreviewPolicy
  import opened Fingerprint
  import opened BootStages
  import opened Protocol
  import opened ProtocolInvariants
  import opened ProtocolRuns

  function Reserved(d: Dev, epoch: nat): Reservation {
    if Reserves(d, epoch) then Reservation.At(d.net.reserved) else None
  }

  /** A held lease remembers how to undo its own reservation and nothing else; on its way to give its power back it
      has undone it. */
  predicate LeaseUndoable(d: Dev, epoch: nat, before: Reservation) {
    && d.own.lease
    && if !d.txn.Relinquish? && d.own.reserved then before == None else before == Reserved(d, epoch)
  }

  lemma PublicationUndoable(build: Build, b: Board)
    requires StreamsInv(b) && b.me.txn.Acquired? && DoPublishLease(build, b).me.own.lease
    ensures var b' := DoPublishLease(build, b);
            b'.epoch == b.epoch && LeaseUndoable(b'.me, b.epoch, Reserved(b.me, b.epoch))
  {
    hide LeaseInv, ColdInv, Equal;
  }

  lemma OwnPowerKeepsUndoable(b: Board, op: PowerOp, before: Reservation)
    requires b.me.txn.Idle? && LeaseUndoable(b.me, b.epoch, before)
    requires ApplyPower(b, op).me.own.lease && ApplyPower(b, op).epoch == b.epoch
    ensures LeaseUndoable(ApplyPower(b, op).me, b.epoch, before)
  {
  }

  lemma OwnPrepareKeepsUndoable(build: Build, b: Board, op: PrepareOp, before: Reservation)
    requires PowerInv(b) && PrepareEnabled(b.me, op) && LeaseUndoable(b.me, b.epoch, before)
    requires ApplyPrepare(build, b, op).epoch == b.epoch
    ensures LeaseUndoable(ApplyPrepare(build, b, op).me, b.epoch, before)
  {
    hide Equal;
  }

  lemma OwnLeaseKeepsUndoable(b: Board, op: LeaseOp, before: Reservation)
    requires StreamsInv(b) && LeaseEnabled(b.me, op) && LeaseUndoable(b.me, b.epoch, before) && !op.RelinquishPower?
    ensures LeaseUndoable(ApplyLease(b, op).me, b.epoch, before)
  {
    hide LeaseInv, ColdInv;
  }

  lemma OwnStreamKeepsUndoable(build: Build, b: Board, op: StreamOp, before: Reservation)
    requires StreamsInv(b) && StreamEnabled(b.me, op) && (op.StreamBind? ==> b.me.own.count > 0)
    requires LeaseUndoable(b.me, b.epoch, before)
    ensures LeaseUndoable(ApplyStream(build, b, op).me, b.epoch, before)
  {
    hide LeaseInv, ColdInv, Equal;
  }

  lemma OwnRequestKeepsUndoable(build: Build, b: Board, op: RequestOp, before: Reservation)
    requires RequestEnabled(b.me, op) && LeaseUndoable(b.me, b.epoch, before)
    requires b.me.txn.Relinquish? ==> !op.AdmitPrepare? && !op.AdmitCancel? && !op.TimerRun?
    ensures LeaseUndoable(ApplyRequest(build, b, op).me, b.epoch, before)
  {
    hide Equal, RequestEqual;
  }

  lemma OwnRestKeepsUndoable(build: Build, b: Board, op: Op, before: Reservation)
    requires StreamsInv(b) && Enabled(b, op) && (op.OnOutput? || op.OnRemove? || op.OnCold?)
    requires LeaseUndoable(b.me, b.epoch, before)
    requires var b' := Apply(build, b, op); b'.me.own.lease && b'.epoch == b.epoch
    ensures LeaseUndoable(Apply(build, b, op).me, b.epoch, before)
  {
    hide LeaseInv, ColdInv;
  }

  lemma OwnStepKeepsUndoable(build: Build, b: Board, op: Op, before: Reservation)
    requires StreamsInv(b) && Enabled(b, op) && PoweredStart(b, op) && LeaseUndoable(b.me, b.epoch, before)
    requires var b' := Apply(build, b, op); b'.me.own.lease && b'.epoch == b.epoch
    ensures LeaseUndoable(Apply(build, b, op).me, b.epoch, before)
  {
    hide StreamsInv, LeaseUndoable, ApplyPower, ApplyOutput, ApplyRemove, ApplyPrepare, ApplyCold;
    hide ApplyStream, OutputEnabled, RemoveEnabled, PrepareEnabled, ColdEnabled, StreamEnabled, ApplyRequest;
    match op
    case OnPower(o) => OwnPowerKeepsUndoable(b, o, before);
    case OnRequest(o) => OwnRequestKeepsUndoable(build, b, o, before);
    case OnPrepare(o) =>
      assert PowerInv(b) by {
        StreamsHavePower(b);
      }
      OwnPrepareKeepsUndoable(build, b, o, before);
    case OnLease(o) => OwnLeaseKeepsUndoable(b, o, before);
    case OnStream(o) => OwnStreamKeepsUndoable(build, b, o, before);
    case _ => OwnRestKeepsUndoable(build, b, op, before);
  }

  lemma StreamsHavePower(b: Board)
    requires StreamsInv(b)
    ensures PowerInv(b)
  {
  }

  lemma UndoableStepBy(build: Build, b: Board, e: Event, who: bool, before: Reservation)
    requires StreamsInv(b) && CanStep(b, e) && PoweredStart(Seen(b, e.who), e.op)
    requires LeaseUndoable(DevOf(b, who), b.epoch, before) && DevOf(Step(build, b, e), who).own.lease
    ensures var b' := Step(build, b, e); b'.epoch == b.epoch && LeaseUndoable(DevOf(b', who), b'.epoch, before)
  {
    hide Apply, Enabled, StreamsInv, PowerInv, PoweredStart;
    SwapKeepsStreams(b);
    StreamsHavePower(b);
    AccountedStep(build, b, e, who);
    if e.who == who {
      OwnStepKeepsUndoable(build, Seen(b, e.who), e.op, before);
    } else {
      SiblingTouched(build, Seen(b, e.who), e.op);
    }
  }

  lemma {:induction false} UndoableUntil(build: Build, ss: seq<Board>, es: seq<Event>, who: bool, before: Reservation,
                                         j: nat, k: nat)
    requires PoweredRun(build, ss, es) && j <= k < |ss|
    requires LeaseUndoable(DevOf(ss[j], who), ss[j].epoch, before)
    requires forall m :: j <= m <= k ==> DevOf(ss[m], who).own.lease
    ensures ss[k].epoch == ss[j].epoch && LeaseUndoable(DevOf(ss[k], who), ss[k].epoch, before)
  {
    hide StreamsInv, LeaseUndoable, CanStep, Step, PoweredStart;
    if j < k {
      UndoableUntil(build, ss, es, who, before, j, k - 1);
      assert DevOf(ss[k], who).own.lease;
      StreamsAlways(build, ss, es, k - 1);
      UndoableStepBy(build, ss[k - 1], es[k - 1], who, before);
    }
  }

  lemma PublishUndoableBy(build: Build, b: Board, e: Event)
    requires StreamsInv(b) && CanStep(b, e) && e.op == OnPrepare(PublishLease)
    requires DevOf(Step(build, b, e), e.who).own.lease
    ensures var b' := Step(build, b, e);
            b'.epoch == b.epoch && LeaseUndoable(DevOf(b', e.who), b'.epoch, ReservationOf(b, e.who))
  {
    hide StreamsInv, LeaseUndoable, DoPublishLease;
    SwapKeepsStreams(b);
    PublicationUndoable(build, Seen(b, e.who));
  }

  lemma RelinquishBy(build: Build, b: Board, e: Event, before: Reservation)
    requires StreamsInv(b) && CanStep(b, e) && e.op.OnLease? && e.op.lease.RelinquishPower?
    requires LeaseUndoable(DevOf(b, e.who), b.epoch, before)
    ensures var b' := Step(build, b, e);
            && !DevOf(b', e.who).own.lease && !DevOf(b', e.who).own.reserved
            && ReservationOf(b', e.who) == if b'.epoch == b.epoch then before else None
  {
    hide LeaseInv, ColdInv;
  }

  /** The life of a lease leaves no reservation behind and takes none away: when its end gives its power back, the
      instance reserves what it reserved before the lease was published, or nothing when that ends the epoch.  So a
      cancelled, expired or failed prepare never blocks the rate of the sibling, and never takes a reservation that
      was there before. */
  lemma LeaseLeavesNoReservation(build: Build, ss: seq<Board>, es: seq<Event>, who: bool, j: nat, k: nat)
    requires PoweredRun(build, ss, es) && j < k < |es|
    requires es[j] == Event(who, OnPrepare(PublishLease))
    requires forall m :: j < m <= k ==> DevOf(ss[m], who).own.lease
    requires es[k].who == who && es[k].op.OnLease? && es[k].op.lease.RelinquishPower?
    ensures ss[k].epoch == ss[j].epoch
    ensures ReservationOf(ss[k + 1], who) == if ss[k + 1].epoch == ss[j].epoch then ReservationOf(ss[j], who) else None
    ensures !DevOf(ss[k + 1], who).own.lease
  {
    hide StreamsInv, LeaseUndoable, ReservationOf;
    var before := ReservationOf(ss[j], who);
    StreamsAlways(build, ss, es, j);
    StreamsAlways(build, ss, es, k);
    assert CanStep(ss[j], es[j]) && ss[j + 1] == Step(build, ss[j], es[j]);
    assert CanStep(ss[k], es[k]) && ss[k + 1] == Step(build, ss[k], es[k]);
    hide CanStep, Step;
    assert DevOf(ss[j + 1], who).own.lease;
    PublishUndoableBy(build, ss[j], es[j]);
    UndoableUntil(build, ss, es, who, before, j + 1, k);
    RelinquishBy(build, ss[k], es[k], before);
  }
}
