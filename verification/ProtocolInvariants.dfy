/** What every step of the board protocol keeps.  Each group states one invariant per instance and
    one lemma: any enabled op of the acting instance keeps it for both instances. */
module ProtocolInvariants {
  import opened PreviewPolicy
  import opened Fingerprint
  import opened BootStages
  import opened Protocol

  // ----- what a step can do to the sibling -----

  /** The sibling as it was but for its live rate and, when the board powers up, its serializers' addresses. */
  predicate Touched(p: Dev, p': Dev) {
    && p' == p.(net := p.net.(fps := p'.net.fps), hw := p.hw.(remapped := p'.hw.remapped))
    && (p'.hw.remapped ==> p.hw.remapped)
  }

  predicate PulsesPeer(op: Op) {
    op.OnOutput? && op.output.Pulse? && op.output.peers
  }

  lemma PowerTouches(b: Board, op: PowerOp)
    ensures Touched(b.peer, ApplyPower(b, op).peer)
  {
  }

  lemma PrepareTouches(build: Build, b: Board, op: PrepareOp)
    requires PrepareEnabled(b.me, op)
    ensures Touched(b.peer, ApplyPrepare(build, b, op).peer)
  {
  }

  lemma LeaseTouches(b: Board, op: LeaseOp)
    requires LeaseEnabled(b.me, op)
    ensures Touched(b.peer, ApplyLease(b, op).peer)
  {
  }

  lemma StreamTouches(build: Build, b: Board, op: StreamOp)
    requires StreamEnabled(b.me, op)
    ensures Touched(b.peer, ApplyStream(build, b, op).peer)
  {
  }

  /** All that a step of one instance can change in the other: the live rate, the serializers'
      addresses, and the FSYNC state of a stream it pulses for. */
  lemma SiblingTouched(build: Build, b: Board, op: Op)
    requires Enabled(b, op)
    ensures Touched(Pulsed(b.peer, PulsesPeer(op)), Apply(build, b, op).peer)
    ensures PulsesPeer(op) ==> StreamCurrent(b.peer, b.epoch)
  {
    hide ApplyPower, ApplyPrepare, ApplyLease, ApplyStream, StreamCurrent;
    hide PrepareEnabled, LeaseEnabled, StreamEnabled;
    match op
    case OnPower(o) => PowerTouches(b, o);
    case OnPrepare(o) => PrepareTouches(build, b, o);
    case OnLease(o) => LeaseTouches(b, o);
    case OnStream(o) => StreamTouches(build, b, o);
    case _ =>
  }

  // ----- power conservation: needs no discipline of the caller -----

  /** The instance owns one global power user: through a lease, through its local count, or because
      a prepare has acquired it and not yet published the lease. */
  predicate Accounted(d: Dev) {
    d.own.lease || d.own.count > 0 || d.txn.Acquired? || d.txn.Unpublished?
  }

  function Units(d: Dev): nat {
    if Accounted(d) then 1 else 0
  }

  /** The running call works on a held lease. */
  predicate OnHeldLease(t: Txn) {
    t.Arming? || t.EndingLease? || t.Relinquish?
    || (t.Cold? && t.caller.ForPrepare?) || (t.Loading? && t.caller.ForPrepare?)
  }

  predicate PowerLocal(d: Dev) {
    && !(d.own.lease && d.own.count > 0)
    && (d.txn.Acquired? || d.txn.Unpublished? ==> !d.own.lease && d.own.count == 0)
    && (OnHeldLease(d.txn) ==> d.own.lease)
    && (d.own.reserved ==> d.own.lease)
  }

  /** The board has exactly as many power users as accounted instances, and no instance is counted
      through a lease and a local count at once. */
  predicate PowerInv(b: Board) {
    b.users == Units(b.me) + Units(b.peer) && PowerLocal(b.me) && PowerLocal(b.peer)
  }

  lemma PowerKeepsPower(b: Board, op: PowerOp)
    requires PowerInv(b) && b.me.txn.Idle?
    ensures PowerInv(ApplyPower(b, op))
  {
  }

  lemma OutputKeepsPower(b: Board, op: OutputOp)
    requires PowerInv(b) && OutputEnabled(b, op)
    ensures PowerInv(ApplyOutput(b, op))
  {
  }

  lemma RemoveKeepsPower(b: Board, op: RemoveOp)
    requires PowerInv(b) && RemoveEnabled(b, op)
    ensures PowerInv(ApplyRemove(b, op))
  {
  }

  lemma RequestKeepsPower(build: Build, b: Board, op: RequestOp)
    requires PowerInv(b) && RequestEnabled(b.me, op)
    ensures PowerInv(ApplyRequest(build, b, op))
  {
  }

  lemma RebindKeepsPower(b: Board)
    requires PowerInv(b) && b.me.txn.Admitted? && b.me.own.lease
    ensures PowerInv(DoRebindLease(b))
  {
  }

  lemma PrepareKeepsPower(build: Build, b: Board, op: PrepareOp)
    requires PowerInv(b) && PrepareEnabled(b.me, op)
    ensures PowerInv(ApplyPrepare(build, b, op))
  {
    hide DoRebindLease;
    if op.RebindLease? {
      RebindKeepsPower(b);
    }
  }

  lemma ColdKeepsPower(b: Board, op: ColdOp)
    requires PowerInv(b) && ColdEnabled(b.me, op)
    ensures PowerInv(ApplyCold(b, op))
  {
  }

  lemma LeaseKeepsPower(b: Board, op: LeaseOp)
    requires PowerInv(b) && LeaseEnabled(b.me, op)
    ensures PowerInv(ApplyLease(b, op))
  {
  }

  lemma StreamKeepsPower(build: Build, b: Board, op: StreamOp)
    requires PowerInv(b) && StreamEnabled(b.me, op)
    ensures PowerInv(ApplyStream(build, b, op))
  {
  }

  /** Power conservation holds over every step, whatever the caller does. */
  lemma PowerStep(build: Build, b: Board, op: Op)
    requires PowerInv(b) && Enabled(b, op)
    ensures PowerInv(Apply(build, b, op))
  {
    match op
    case OnPower(o) => PowerKeepsPower(b, o);
    case OnOutput(o) => OutputKeepsPower(b, o);
    case OnRemove(o) => RemoveKeepsPower(b, o);
    case OnRequest(o) => RequestKeepsPower(build, b, o);
    case OnPrepare(o) => PrepareKeepsPower(build, b, o);
    case OnCold(o) => ColdKeepsPower(b, o);
    case OnLease(o) => LeaseKeepsPower(b, o);
    case OnStream(o) => StreamKeepsPower(build, b, o);
  }

  /** A first power-on that the reset line refused. */
  predicate FailedFirstOn(b: Board, op: Op) {
    && b.users == 0 && !b.me.own.lease && b.me.own.count == 0
    && ((op == OnPower(PowerOn(false)) && !b.me.dying) || op == OnPrepare(AcquirePower(false)))
  }

  /** The epoch advances by one exactly on a crossing of the user count between zero and non-zero
      and on a failed first power-on. */
  lemma EpochMovesOnCrossings(build: Build, b: Board, op: Op)
    requires PowerInv(b) && Enabled(b, op)
    ensures var b' := Apply(build, b, op);
            b'.epoch == if (b.users == 0) != (b'.users == 0) || FailedFirstOn(b, op) then b.epoch + 1 else b.epoch
  {
  }

  /** While an instance stays accounted the epoch cannot move, whatever either instance does. */
  lemma AccountedFreezesEpoch(build: Build, b: Board, op: Op)
    requires PowerInv(b) && Enabled(b, op)
    requires var b' := Apply(build, b, op);
             (Accounted(b.me) && Accounted(b'.me)) || (Accounted(b.peer) && Accounted(b'.peer))
    ensures Apply(build, b, op).epoch == b.epoch
  {
    PowerStep(build, b, op);
    EpochMovesOnCrossings(build, b, op);
  }

  // ----- cadence: streams start powered -----

  predicate PreparePhase(t: Txn) {
    t.Admitted? || t.Acquired? || t.Unpublished? || OnHeldLease(t)
  }

  /** Between the bind of a start and its commit. */
  predicate StreamPhase(t: Txn) {
    t.Check? || t.Replay? || t.Commit?
    || (t.Cold? && t.caller.ForStream?) || (t.Loading? && t.caller.ForStream?)
  }

  predicate EpochsBounded(d: Dev, epoch: nat) {
    d.net.epoch <= epoch && d.hw.epoch <= epoch && d.run.commit <= epoch && d.hw.cold <= epoch
  }

  predicate CadenceLocal(d: Dev, epoch: nat) {
    && EpochsBounded(d, epoch)
    && (Reserves(d, epoch) ==> d.net.reserved == d.net.fps)
    && (StreamCurrent(d, epoch) ==> Reserves(d, epoch))
    && (d.run.streaming ==> !d.own.lease && !PreparePhase(d.txn) && !d.txn.StopDrop?)
    && (StreamPhase(d.txn) ==> d.own.count > 0 && Reserves(d, epoch) && d.net.reserved == d.txn.fp.fps)
    && (d.txn.Abort? ==> d.own.count > 0)
    && (d.txn.StopDrop? ==> !d.own.lease)
  }

  predicate Agree(b: Board) {
    Linked(b) && Reserves(b.me, b.epoch) && Reserves(b.peer, b.epoch) ==> b.me.net.reserved == b.peer.net.reserved
  }

  /** A stream that may authorize a pulse holds a reservation of the current epoch, equal to its live
      rate, and two live reservations of the current epoch agree. */
  predicate CadenceInv(b: Board) {
    b.epoch >= 1 && CadenceLocal(b.me, b.epoch) && CadenceLocal(b.peer, b.epoch) && Agree(b)
  }

  lemma PowerOnKeepsCadence(b: Board, ok: bool)
    requires PowerInv(b) && CadenceInv(b) && b.me.txn.Idle?
    ensures CadenceInv(DoPowerOn(b, ok))
  {
  }

  lemma PowerOffKeepsCadence(b: Board, ok: bool)
    requires PowerInv(b) && CadenceInv(b) && b.me.txn.Idle?
    ensures CadenceInv(DoPowerOff(b, ok))
  {
  }

  lemma SetIntervalKeepsCadence(b: Board, fps: nat)
    requires PowerInv(b) && CadenceInv(b) && b.me.txn.Idle?
    ensures CadenceInv(DoSetInterval(b, fps))
  {
  }

  lemma PowerKeepsCadence(b: Board, op: PowerOp)
    requires PowerInv(b) && CadenceInv(b) && b.me.txn.Idle?
    ensures CadenceInv(ApplyPower(b, op))
  {
    hide PowerInv, DoPowerOn, DoPowerOff, DoSetInterval;
    match op
    case PowerOn(ok) => PowerOnKeepsCadence(b, ok);
    case PowerOff(ok) => PowerOffKeepsCadence(b, ok);
    case SetInterval(fps) => SetIntervalKeepsCadence(b, fps);
    case Tune(_) =>
  }

  lemma OutputKeepsCadence(b: Board, op: OutputOp)
    requires PowerInv(b) && CadenceInv(b) && OutputEnabled(b, op)
    ensures CadenceInv(ApplyOutput(b, op))
  {
  }

  lemma RemoveKeepsCadence(b: Board, op: RemoveOp)
    requires PowerInv(b) && CadenceInv(b) && RemoveEnabled(b, op)
    ensures CadenceInv(ApplyRemove(b, op))
  {
  }

  lemma RequestKeepsCadence(build: Build, b: Board, op: RequestOp)
    requires PowerInv(b) && CadenceInv(b) && RequestEnabled(b.me, op)
    ensures CadenceInv(ApplyRequest(build, b, op))
  {
  }

  lemma RebindLeaseKeepsCadence(b: Board)
    requires PowerInv(b) && CadenceInv(b) && b.me.txn.Admitted? && b.me.own.lease
    ensures CadenceInv(DoRebindLease(b))
  {
  }

  lemma PublishLeaseKeepsCadence(build: Build, b: Board)
    requires PowerInv(b) && CadenceInv(b) && b.me.txn.Acquired?
    ensures CadenceInv(DoPublishLease(build, b))
  {
  }

  lemma PrepareKeepsCadence(build: Build, b: Board, op: PrepareOp)
    requires PowerInv(b) && CadenceInv(b) && PrepareEnabled(b.me, op)
    ensures CadenceInv(ApplyPrepare(build, b, op))
  {
    match op
    case RebindLease => RebindLeaseKeepsCadence(b);
    case PublishLease => PublishLeaseKeepsCadence(build, b);
    case AcquirePower(_) =>
    case ReleaseUnpublished(_) =>
  }

  lemma ColdLeavesCadence(d: Dev, epoch: nat, op: ColdOp)
    requires CadenceLocal(d, epoch) && ColdEnabled(d, op)
    ensures var d' := if op.ColdBegin? then ColdBegun(d, epoch, op.refused) else ColdEnded(d, epoch, op.outcome);
            CadenceLocal(d', epoch) && d'.net == d.net && d'.dying == d.dying
  {
  }

  lemma ColdKeepsCadence(b: Board, op: ColdOp)
    requires PowerInv(b) && CadenceInv(b) && ColdEnabled(b.me, op)
    ensures CadenceInv(ApplyCold(b, op))
  {
    hide PowerInv, CadenceLocal, ColdBegun, ColdEnded;
    ColdLeavesCadence(b.me, b.epoch, op);
  }

  lemma LeaseKeepsCadence(b: Board, op: LeaseOp)
    requires PowerInv(b) && CadenceInv(b) && LeaseEnabled(b.me, op)
    ensures CadenceInv(ApplyLease(b, op))
  {
  }

  lemma StreamBindKeepsCadence(b: Board, fp: Fingerprint)
    requires PowerInv(b) && CadenceInv(b) && b.me.request.Free? && b.me.txn.Idle? && b.me.own.count > 0
    ensures CadenceInv(DoStreamBind(b, fp))
  {
  }

  /** After its bind a start, and every stop, can only give the reservation back. */
  lemma StreamLeavesCadence(build: Build, b: Board, op: StreamOp)
    requires PowerLocal(b.me) && CadenceLocal(b.me, b.epoch) && b.epoch >= 1
    requires StreamEnabled(b.me, op) && !op.StreamBind?
    ensures var d, d' := b.me, ApplyStream(build, b, op).me;
            && CadenceLocal(d', b.epoch) && d'.dying == d.dying && (d'.net == d.net || !Reserves(d', b.epoch))
            && ApplyStream(build, b, op) == b.(me := d')
  {
  }

  lemma StreamKeepsCadence(build: Build, b: Board, op: StreamOp)
    requires PowerInv(b) && CadenceInv(b)
    requires StreamEnabled(b.me, op) && (op.StreamBind? ==> b.me.own.count > 0)
    ensures CadenceInv(ApplyStream(build, b, op))
  {
    hide DoStreamBind;
    if op.StreamBind? {
      StreamBindKeepsCadence(b, op.fp);
    } else {
      hide PowerLocal, CadenceLocal;
      StreamLeavesCadence(build, b, op);
    }
  }

  /** No step strips or contradicts the reservation of a stream that may pulse. */
  lemma CadenceStep(build: Build, b: Board, op: Op)
    requires PowerInv(b) && CadenceInv(b) && Enabled(b, op) && PoweredStart(b, op)
    ensures CadenceInv(Apply(build, b, op))
  {
    match op
    case OnPower(o) => PowerKeepsCadence(b, o);
    case OnOutput(o) => OutputKeepsCadence(b, o);
    case OnRemove(o) => RemoveKeepsCadence(b, o);
    case OnRequest(o) => RequestKeepsCadence(build, b, o);
    case OnPrepare(o) => PrepareKeepsCadence(build, b, o);
    case OnCold(o) => ColdKeepsCadence(b, o);
    case OnLease(o) => LeaseKeepsCadence(b, o);
    case OnStream(o) => StreamKeepsCadence(build, b, o);
  }

  // ----- the lease timer -----

  predicate EndsBy(t: Txn, why: Ending) {
    (t.EndingLease? || t.Relinquish?) && t.why == why
  }

  predicate PrepareLoads(t: Txn) {
    (t.Cold? || t.Loading?) && t.caller.ForPrepare?
  }

  predicate TimerNumbers(t: Timer) {
    && (t.pending == 0 || t.pending == t.arms) && (t.firing == 0 || t.firing == t.arms)
    && (t.lease == 0 || t.lease == t.arms) && (t.pending == 0 || t.firing == 0)
  }

  /** The lease is ready or stale, its generations match and it has been armed. */
  predicate LeaseArmed(d: Dev) {
    (d.ask.state == Ready || d.ask.state == Stale) && d.ask.gen == d.ask.leaseGen && d.timer.lease != 0
  }

  /** A timeout of the held lease is queued, or has fired and waits for the instance lock. */
  predicate TimeoutUnderway(d: Dev) {
    d.timer.pending == d.timer.lease || d.timer.firing == d.timer.lease
  }

  predicate LeaseLocal(d: Dev) {
    && TimerNumbers(d.timer)
    && (d.request.Draining? || d.request.DrainingCancel? ==> d.timer.pending == 0)
    && (PreparePhase(d.txn) && !EndsBy(d.txn, TimedOut) ==> d.timer.pending == 0 && d.timer.firing == 0)
    && (EndsBy(d.txn, TimedOut) ==> d.timer.firing != 0 && d.timer.firing == d.timer.lease)
    && (EndsBy(d.txn, Unarmed) ==> d.dying)
    && (d.own.lease && !OnHeldLease(d.txn) ==> LeaseArmed(d))
    && (PrepareLoads(d.txn) ==> d.ask.state == Preparing && d.ask.gen == d.txn.caller.gen)
    && (d.txn.Arming? ==> d.ask.state == Ready && d.ask.gen == d.ask.leaseGen == d.txn.gen)
    && (d.ask.state == Preparing ==> PrepareLoads(d.txn) || EndsBy(d.txn, FailedLease))
    && (d.own.lease && d.txn.Idle? && d.request.Free? && !d.dying ==> TimeoutUnderway(d))
  }

  /** Outside a request every held lease of a live instance is armed and its timeout is underway;
      a callback that ends a lease stems from the latest arming of that very lease; queueing a
      timeout fails only on an instance that is being removed. */
  predicate LeaseInv(b: Board) {
    LeaseLocal(b.me) && LeaseLocal(b.peer)
  }

  lemma PowerOnKeepsLease(b: Board, ok: bool)
    requires LeaseLocal(b.me) && b.me.txn.Idle?
    ensures LeaseLocal(DoPowerOn(b, ok).me)
  {
  }

  lemma PowerKeepsLease(b: Board, op: PowerOp)
    requires LeaseLocal(b.me) && b.me.txn.Idle?
    ensures LeaseLocal(ApplyPower(b, op).me)
  {
    hide DoPowerOn;
    if op.PowerOn? {
      PowerOnKeepsLease(b, op.ok);
    }
  }

  lemma OutputKeepsLease(b: Board, op: OutputOp)
    requires PowerLocal(b.me) && CadenceLocal(b.me, b.epoch) && LeaseLocal(b.me) && OutputEnabled(b, op)
    ensures LeaseLocal(ApplyOutput(b, op).me)
  {
  }

  lemma RemoveKeepsLease(b: Board, op: RemoveOp)
    requires PowerLocal(b.me) && CadenceLocal(b.me, b.epoch) && LeaseLocal(b.me) && RemoveEnabled(b, op)
    ensures LeaseLocal(ApplyRemove(b, op).me)
  {
  }

  lemma RequestKeepsLease(build: Build, b: Board, op: RequestOp)
    requires PowerLocal(b.me) && CadenceLocal(b.me, b.epoch) && LeaseLocal(b.me) && RequestEnabled(b.me, op)
    ensures LeaseLocal(ApplyRequest(build, b, op).me)
  {
  }

  lemma RebindLeaseKeepsLease(b: Board)
    requires PowerLocal(b.me) && CadenceLocal(b.me, b.epoch) && LeaseLocal(b.me) && b.me.txn.Admitted? && b.me.own.lease
    ensures LeaseLocal(DoRebindLease(b).me)
  {
  }

  lemma PublishLeaseKeepsLease(build: Build, b: Board)
    requires PowerLocal(b.me) && CadenceLocal(b.me, b.epoch) && LeaseLocal(b.me) && b.me.txn.Acquired?
    ensures LeaseLocal(DoPublishLease(build, b).me)
  {
  }

  lemma PrepareKeepsLease(build: Build, b: Board, op: PrepareOp)
    requires PowerLocal(b.me) && CadenceLocal(b.me, b.epoch) && LeaseLocal(b.me) && PrepareEnabled(b.me, op)
    ensures LeaseLocal(ApplyPrepare(build, b, op).me)
  {
    match op
    case RebindLease => RebindLeaseKeepsLease(b);
    case PublishLease => PublishLeaseKeepsLease(build, b);
    case AcquirePower(_) =>
    case ReleaseUnpublished(_) =>
  }

  lemma ColdKeepsLease(b: Board, op: ColdOp)
    requires PowerLocal(b.me) && CadenceLocal(b.me, b.epoch) && LeaseLocal(b.me) && ColdEnabled(b.me, op)
    ensures LeaseLocal(ApplyCold(b, op).me)
  {
  }

  lemma LeaseKeepsLease(b: Board, op: LeaseOp)
    requires PowerLocal(b.me) && CadenceLocal(b.me, b.epoch) && LeaseLocal(b.me) && LeaseEnabled(b.me, op)
    ensures LeaseLocal(ApplyLease(b, op).me)
  {
  }

  lemma StreamKeepsLease(build: Build, b: Board, op: StreamOp)
    requires PowerLocal(b.me) && CadenceLocal(b.me, b.epoch) && LeaseLocal(b.me)
    requires StreamEnabled(b.me, op) && (op.StreamBind? ==> b.me.own.count > 0)
    ensures LeaseLocal(ApplyStream(build, b, op).me)
  {
  }

  /** What the sibling's steps can touch has no part in the timer protocol. */
  lemma TouchKeepsLease(p: Dev, p': Dev, pulse: bool)
    requires LeaseLocal(p) && Touched(Pulsed(p, pulse), p')
    ensures LeaseLocal(p')
  {
  }

  /** The timer protocol holds over every step. */
  lemma LeaseStep(build: Build, b: Board, op: Op)
    requires PowerInv(b) && CadenceInv(b) && LeaseInv(b) && Enabled(b, op) && PoweredStart(b, op)
    ensures LeaseInv(Apply(build, b, op))
  {
    hide ApplyPower, ApplyOutput, ApplyRemove, ApplyRequest, ApplyPrepare, ApplyCold, ApplyLease, ApplyStream;
    hide PowerLocal, CadenceLocal, LeaseLocal, Touched, Agree, OutputEnabled, RemoveEnabled, RequestEnabled;
    hide PrepareEnabled, ColdEnabled, LeaseEnabled, StreamEnabled;
    SiblingTouched(build, b, op);
    TouchKeepsLease(b.peer, Apply(build, b, op).peer, PulsesPeer(op));
    match op
    case OnPower(o) => PowerKeepsLease(b, o);
    case OnOutput(o) => OutputKeepsLease(b, o);
    case OnRemove(o) => RemoveKeepsLease(b, o);
    case OnRequest(o) => RequestKeepsLease(build, b, o);
    case OnPrepare(o) => PrepareKeepsLease(build, b, o);
    case OnCold(o) => ColdKeepsLease(b, o);
    case OnLease(o) => LeaseKeepsLease(b, o);
    case OnStream(o) => StreamKeepsLease(build, b, o);
  }

  // ----- cold initialization -----

  predicate ColdLocal(d: Dev, epoch: nat, users: nat) {
    && (d.hw.valid ==> d.hw.boot == Boot(d.hw.epoch, d.hw.fp, PostConfig, false) && d.hw.cold == d.hw.epoch)
    && (d.txn.Loading? ==> d.hw.cold == epoch && d.hw.boot == Boot(epoch, d.txn.fp, NoStage, false))
    && (users > 0 && d.hw.remapped ==> d.hw.cold == epoch)
  }

  /** Valid hardware stems from a completed attempt of the same epoch and fingerprint whose last boot
      check passed, and on a powered board only an attempt of this epoch may have left the
      serializers away from their power-on addresses. */
  predicate ColdInv(b: Board) {
    ColdLocal(b.me, b.epoch, b.users) && ColdLocal(b.peer, b.epoch, b.users)
  }

  lemma PowerOnKeepsCold(b: Board, ok: bool)
    requires PowerInv(b) && CadenceInv(b) && ColdInv(b) && b.me.txn.Idle?
    ensures ColdInv(DoPowerOn(b, ok))
  {
  }

  lemma PowerOffKeepsCold(b: Board, ok: bool)
    requires PowerInv(b) && CadenceInv(b) && ColdInv(b) && b.me.txn.Idle?
    ensures ColdInv(DoPowerOff(b, ok))
  {
  }

  lemma PowerKeepsCold(b: Board, op: PowerOp)
    requires PowerInv(b) && CadenceInv(b) && ColdInv(b) && b.me.txn.Idle?
    ensures ColdInv(ApplyPower(b, op))
  {
    hide PowerInv, CadenceInv, DoPowerOn, DoPowerOff;
    match op
    case PowerOn(ok) => PowerOnKeepsCold(b, ok);
    case PowerOff(ok) => PowerOffKeepsCold(b, ok);
    case _ =>
  }

  lemma OutputKeepsCold(b: Board, op: OutputOp)
    requires PowerInv(b) && CadenceInv(b) && ColdInv(b) && OutputEnabled(b, op)
    ensures ColdInv(ApplyOutput(b, op))
  {
  }

  lemma RemoveKeepsCold(b: Board, op: RemoveOp)
    requires PowerInv(b) && CadenceInv(b) && ColdInv(b) && RemoveEnabled(b, op)
    ensures ColdInv(ApplyRemove(b, op))
  {
  }

  lemma RequestKeepsCold(build: Build, b: Board, op: RequestOp)
    requires PowerInv(b) && CadenceInv(b) && ColdInv(b) && RequestEnabled(b.me, op)
    ensures ColdInv(ApplyRequest(build, b, op))
  {
  }

  lemma AcquireKeepsCold(b: Board, ok: bool)
    requires PowerInv(b) && CadenceInv(b) && ColdInv(b) && b.me.txn.Admitted?
    ensures ColdInv(DoAcquirePower(b, ok))
  {
  }

  lemma RebindKeepsCold(b: Board)
    requires ColdInv(b) && b.me.txn.Admitted? && b.me.own.lease
    ensures ColdInv(DoRebindLease(b))
  {
  }

  lemma PublishKeepsCold(build: Build, b: Board)
    requires ColdInv(b) && b.me.txn.Acquired?
    ensures ColdInv(DoPublishLease(build, b))
  {
  }

  lemma ReleaseKeepsCold(b: Board, ok: bool)
    requires PowerInv(b) && CadenceInv(b) && ColdInv(b) && b.me.txn.Unpublished?
    ensures ColdInv(DoReleaseUnpublished(b, ok))
  {
  }

  lemma PrepareKeepsCold(build: Build, b: Board, op: PrepareOp)
    requires PowerInv(b) && CadenceInv(b) && ColdInv(b) && PrepareEnabled(b.me, op)
    ensures ColdInv(ApplyPrepare(build, b, op))
  {
    hide PowerInv, CadenceInv, ColdInv, DoRebindLease, DoAcquirePower, DoPublishLease, DoReleaseUnpublished;
    match op
    case RebindLease => RebindKeepsCold(b);
    case AcquirePower(ok) => AcquireKeepsCold(b, ok);
    case PublishLease => PublishKeepsCold(build, b);
    case ReleaseUnpublished(ok) => ReleaseKeepsCold(b, ok);
  }

  lemma ColdKeepsCold(b: Board, op: ColdOp)
    requires PowerInv(b) && CadenceInv(b) && ColdInv(b) && ColdEnabled(b.me, op)
    ensures ColdInv(ApplyCold(b, op))
  {
  }

  lemma LeaseKeepsCold(b: Board, op: LeaseOp)
    requires PowerInv(b) && CadenceInv(b) && ColdInv(b) && LeaseEnabled(b.me, op)
    ensures ColdInv(ApplyLease(b, op))
  {
  }

  lemma StreamKeepsCold(build: Build, b: Board, op: StreamOp)
    requires PowerInv(b) && CadenceInv(b) && ColdInv(b)
    requires StreamEnabled(b.me, op) && (op.StreamBind? ==> b.me.own.count > 0)
    ensures ColdInv(ApplyStream(build, b, op))
  {
  }

  /** The hardware record stays truthful over every step. */
  lemma ColdStep(build: Build, b: Board, op: Op)
    requires PowerInv(b) && CadenceInv(b) && ColdInv(b) && Enabled(b, op) && PoweredStart(b, op)
    ensures ColdInv(Apply(build, b, op))
  {
    match op
    case OnPower(o) => PowerKeepsCold(b, o);
    case OnOutput(o) => OutputKeepsCold(b, o);
    case OnRemove(o) => RemoveKeepsCold(b, o);
    case OnRequest(o) => RequestKeepsCold(build, b, o);
    case OnPrepare(o) => PrepareKeepsCold(build, b, o);
    case OnCold(o) => ColdKeepsCold(b, o);
    case OnLease(o) => LeaseKeepsCold(b, o);
    case OnStream(o) => StreamKeepsCold(build, b, o);
  }

  /** A walk of the mode table that starts now starts from power-on serializer addresses, on an
      instance that owns power, and is the first one of this instance in the epoch. */
  lemma WalkStartsFresh(build: Build, b: Board)
    requires PowerInv(b) && CadenceInv(b) && ColdInv(b) && b.me.txn.Cold?
    requires ColdBegun(b.me, b.epoch, false).txn.Loading?
    ensures Accounted(b.me) && !b.me.hw.remapped && b.me.hw.cold < b.epoch
  {
  }

  /** A retry inside the epoch of an earlier attempt touches no register and ends with ESTALE. */
  lemma RetryWritesNothing(build: Build, b: Board, refused: bool)
    requires b.me.txn.Cold? && b.me.hw.cold == b.epoch
    ensures var d := ColdBegun(b.me, b.epoch, refused);
            && d.hw.remapped == b.me.hw.remapped && d.hw.boot == b.me.hw.boot && !d.hw.valid
            && (d.txn.Abort? || EndsBy(d.txn, FailedLease))
            && d.txn.ret == if refused then EINVAL else ESTALE
  {
  }

  // ----- pulse before output -----

  predicate FsyncInv(b: Board) {
    (b.me.run.fsync ==> b.me.run.streaming) && (b.peer.run.fsync ==> b.peer.run.streaming)
  }

  lemma PowerKeepsFsync(b: Board, op: PowerOp)
    requires PowerInv(b) && CadenceInv(b) && FsyncInv(b) && b.me.txn.Idle?
    requires op.PowerOff? && b.me.own.count == 1 ==> !b.me.run.streaming
    ensures FsyncInv(ApplyPower(b, op))
  {
  }

  lemma OutputKeepsFsync(b: Board, op: OutputOp)
    requires PowerInv(b) && CadenceInv(b) && FsyncInv(b) && OutputEnabled(b, op)
    ensures FsyncInv(ApplyOutput(b, op))
  {
  }

  lemma RemoveKeepsFsync(b: Board, op: RemoveOp)
    requires PowerInv(b) && CadenceInv(b) && FsyncInv(b) && RemoveEnabled(b, op)
    ensures FsyncInv(ApplyRemove(b, op))
  {
  }

  lemma RequestKeepsFsync(build: Build, b: Board, op: RequestOp)
    requires PowerInv(b) && CadenceInv(b) && FsyncInv(b) && RequestEnabled(b.me, op)
    ensures FsyncInv(ApplyRequest(build, b, op))
  {
  }

  lemma PrepareKeepsFsync(build: Build, b: Board, op: PrepareOp)
    requires PowerInv(b) && CadenceInv(b) && FsyncInv(b) && PrepareEnabled(b.me, op)
    ensures FsyncInv(ApplyPrepare(build, b, op))
  {
  }

  lemma ColdKeepsFsync(b: Board, op: ColdOp)
    requires PowerInv(b) && CadenceInv(b) && FsyncInv(b) && ColdEnabled(b.me, op)
    ensures FsyncInv(ApplyCold(b, op))
  {
  }

  lemma LeaseKeepsFsync(b: Board, op: LeaseOp)
    requires PowerInv(b) && CadenceInv(b) && FsyncInv(b) && LeaseEnabled(b.me, op)
    ensures FsyncInv(ApplyLease(b, op))
  {
  }

  lemma StreamKeepsFsync(build: Build, b: Board, op: StreamOp)
    requires PowerInv(b) && CadenceInv(b) && FsyncInv(b)
    requires StreamEnabled(b.me, op) && (op.StreamBind? ==> b.me.own.count > 0)
    ensures FsyncInv(ApplyStream(build, b, op))
  {
  }

  /** A published FSYNC state always belongs to a running stream. */
  lemma FsyncStep(build: Build, b: Board, op: Op)
    requires PowerInv(b) && CadenceInv(b) && FsyncInv(b) && Enabled(b, op)
    requires PoweredStart(b, op) && StopBeforePowerOff(b, op)
    ensures FsyncInv(Apply(build, b, op))
  {
    match op
    case OnPower(o) => PowerKeepsFsync(b, o);
    case OnOutput(o) => OutputKeepsFsync(b, o);
    case OnRemove(o) => RemoveKeepsFsync(b, o);
    case OnRequest(o) => RequestKeepsFsync(build, b, o);
    case OnPrepare(o) => PrepareKeepsFsync(build, b, o);
    case OnCold(o) => ColdKeepsFsync(b, o);
    case OnLease(o) => LeaseKeepsFsync(b, o);
    case OnStream(o) => StreamKeepsFsync(build, b, o);
  }

  // ----- who holds the request lock -----

  /** A call that will give the request lock back. */
  predicate HoldsRequest(t: Txn) {
    match t
    case Idle => false
    case EndingLease(why, _) => why != TimedOut
    case Relinquish(why, _) => why != TimedOut
    case StopDrop(holds) => holds
    case _ => true
  }

  predicate RequestLocal(d: Dev) {
    HoldsRequest(d.txn) ==> d.request.Held?
  }

  predicate RequestInv(b: Board) {
    RequestLocal(b.me) && RequestLocal(b.peer)
  }

  lemma OwnCallKeepsRequest(build: Build, b: Board, op: Op)
    requires RequestLocal(b.me) && Enabled(b, op) && (op.OnPrepare? || op.OnCold? || op.OnLease? || op.OnStream?)
    ensures RequestLocal(Apply(build, b, op).me)
  {
  }

  lemma OwnStepKeepsRequest(build: Build, b: Board, op: Op)
    requires RequestLocal(b.me) && Enabled(b, op)
    ensures RequestLocal(Apply(build, b, op).me)
  {
    if op.OnPrepare? || op.OnCold? || op.OnLease? || op.OnStream? {
      OwnCallKeepsRequest(build, b, op);
    }
  }

  /** A call that will give the request lock back is the one that holds it. */
  lemma RequestStep(build: Build, b: Board, op: Op)
    requires RequestInv(b) && Enabled(b, op)
    ensures RequestInv(Apply(build, b, op))
  {
    hide Apply, Enabled;
    OwnStepKeepsRequest(build, b, op);
    SiblingTouched(build, b, op);
  }

  /** While a request drains the timer it keeps its place until it is admitted itself. */
  lemma DrainingStays(build: Build, b: Board, op: Op)
    requires RequestLocal(b.me) && Enabled(b, op) && (b.me.request.Draining? || b.me.request.DrainingCancel?)
    requires op.OnRequest? ==> !op.request.AdmitPrepare? && !op.request.AdmitCancel?
    ensures Apply(build, b, op).me.request == b.me.request
  {
  }
}
