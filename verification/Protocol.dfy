/** The shared-board protocol of two deserializer instances, as a transition system on values.

    One `Op` is one stretch of code that no other thread can observe half done: a section under the
    board power lock together with the instance-local code around it.  An instance that is inside a
    long call keeps its place in `txn` (it holds the instance lock) and `request` (it holds the
    request lock), so steps of the sibling, of the workers and of the lease timer interleave freely
    between its sections.  I2C, GPIO, firmware and control results are parameters of the ops.

    `Apply` acts on a board seen from the acting instance: `me` acts, `peer` is the sibling. */
module Protocol {
  import opened PreviewPolicy
  import opened Fingerprint
  import opened BootStages

  datatype Errno = Success | ESTALE | EBUSY | ENODEV | EINVAL | EIO

  datatype PrepState = PrepIdle | Preparing | Ready | Stale | Consumed | Failed | Expired

  /** The boot-check record of the latest cold initialization; epoch 0 means there was none. */
  datatype Boot = Boot(epoch: nat, fp: Fingerprint, stage: Stage, failed: bool)

  const NO_BOOT := Boot(0, NO_FINGERPRINT, NoStage, false)

  /** Who holds prepare_request_lock. */
  datatype Request = Free | Draining(fp: Fingerprint, gen: nat) | DrainingCancel | Held

  /** Who asked for a cold initialization. */
  datatype Caller = ForPrepare(gen: nat) | ForStream(bindReserved: bool)

  /** Why a lease ends. */
  datatype Ending = FailedLease | Unarmed | Cancelled | TimedOut

  /** Where the holder of the instance lock is. */
  datatype Txn =
    | Idle
    | Admitted(fp: Fingerprint, gen: nat, hardwareCurrent: bool)
    | Acquired(fp: Fingerprint, gen: nat)
    | Unpublished(ret: Errno)
    | Cold(caller: Caller, fp: Fingerprint)
    | Loading(caller: Caller, fp: Fingerprint)
    | Arming(gen: nat)
    | EndingLease(why: Ending, ret: Errno)
    | Relinquish(why: Ending, ret: Errno)
    | Check(fp: Fingerprint, bindReserved: bool)
    | Replay(fp: Fingerprint, bindReserved: bool)
    | Commit(fp: Fingerprint, bindReserved: bool)
    | Abort(bindReserved: bool, ret: Errno)
    | StopDrop(holdsRequest: bool)

  /** The board power this instance owns. */
  datatype Ownership = Ownership(count: nat, lease: bool, reserved: bool)

  /** The userspace request: its state and generation, the generation the lease was armed for, and
      the requested fingerprint. */
  datatype Ask = Ask(state: PrepState, gen: nat, leaseGen: nat, fp: Fingerprint)

  /** The lease timeout.  Each arming has a number; `lease` is the latest arming of the lease now
      held, `pending` and `firing` are the arming that the queued work and the running callback stem
      from.  0 means none. */
  datatype Timer = Timer(arms: nat, lease: nat, pending: nat, firing: nat)

  /** The FSYNC reservation (epoch and rate) and the live rate. */
  datatype Cadence = Cadence(epoch: nat, reserved: nat, fps: nat)

  /** What is programmed.  `remapped` is hardware: a serializer may no longer answer at its power-on
      address. */
  datatype Hardware = Hardware(valid: bool, epoch: nat, fp: Fingerprint, cold: nat, boot: Boot, reinit: bool,
                               remapped: bool)

  datatype Stream = Stream(streaming: bool, streamOn: bool, commit: nat, fsync: bool)

  /** One deserializer instance. */
  datatype Dev = Dev(own: Ownership, ask: Ask, timer: Timer, net: Cadence, hw: Hardware, run: Stream, dying: bool,
                     request: Request, txn: Txn)

  datatype Board = Board(users: nat, epoch: nat, me: Dev, peer: Dev)

  function Swap(b: Board): Board {
    Board(b.users, b.epoch, b.peer, b.me)
  }

  /** What resetting the exposure session at prepare admission did. */
  datatype Session = SessionKept | SessionReset | SessionNeedsReinit | SessionRefused

  /** What a control or format write under the instance lock does to the prepared state. */
  datatype Tuning = Retune | RequireReinit | ReinitDone

  // The ops, by the part of the driver they belong to.

  datatype PowerOp = PowerOn(ok: bool) | PowerOff(ok: bool) | SetInterval(fps: nat) | Tune(kind: Tuning)

  datatype OutputOp = Pulse(mine: bool, peers: bool) | EnableOutput

  datatype RemoveOp = RemoveBegin | RemoveReconcile | SurvivorStop(ok: bool)

  datatype RequestOp =
    | RequestPrepare(fp: Fingerprint, gen: nat)
    | AdmitPrepare(preflight: bool, session: Session)
    | RequestCancel
    | AdmitCancel
    | TimerFire
    | TimerRun

  datatype PrepareOp = RebindLease | AcquirePower(ok: bool) | PublishLease | ReleaseUnpublished(ok: bool)

  datatype ColdOp = ColdBegin(refused: bool) | ColdEnd(outcome: Outcome)

  datatype LeaseOp = ArmLease | DropForRelease | RelinquishPower(ok: bool)

  datatype StreamOp =
    | StreamBind(fp: Fingerprint)
    | StreamCheck
    | StreamReplay(ok: bool)
    | StreamCommit
    | StreamAbort
    | StreamOff(ok: bool)
    | DropStopped

  datatype Op =
    | OnPower(power: PowerOp)
    | OnOutput(output: OutputOp)
    | OnRemove(remove: RemoveOp)
    | OnRequest(request: RequestOp)
    | OnPrepare(prepare: PrepareOp)
    | OnCold(cold: ColdOp)
    | OnLease(lease: LeaseOp)
    | OnStream(stream: StreamOp)

  // ----- shared predicates -----

  /** max9296_stream_epoch_current(): the stream may authorize a pulse. */
  predicate StreamCurrent(d: Dev, epoch: nat) {
    d.run.streaming && d.hw.valid && d.hw.epoch == epoch && d.run.commit == epoch
  }

  predicate Reserves(d: Dev, epoch: nat) {
    d.net.epoch == epoch
  }

  /** Both probes committed and neither instance is being removed. */
  predicate Linked(b: Board) {
    !b.me.dying && !b.peer.dying
  }

  predicate CanArm(d: Dev, gen: nat) {
    !d.dying && d.own.lease && d.own.count == 0 && (d.ask.state == Ready || d.ask.state == Stale)
    && d.ask.gen == gen && d.ask.leaseGen == gen
  }

  // ----- shared sections -----

  function PoweredUp(d: Dev): Dev {
    d.(hw := d.hw.(remapped := false))
  }

  function SetPower(b: Board, on: bool, ok: bool): (Board, Errno) {
    if on then
      if b.users > 0 then (b.(users := b.users + 1), Success)
      else if ok then (Board(1, b.epoch + 1, PoweredUp(b.me), PoweredUp(b.peer)), Success)
      else (b.(epoch := b.epoch + 1), EIO)
    else if b.users == 0 then (b, Success)
    else if b.users > 1 then (b.(users := b.users - 1), Success)
    else
      (Board(0, b.epoch + 1, b.me.(run := b.me.run.(streaming := false)), b.peer), if ok then Success else EIO)
  }

  predicate RateConflict(b: Board, fps: nat) {
    || (Reserves(b.me, b.epoch) && b.me.net.reserved != fps)
    || (Linked(b) && Reserves(b.peer, b.epoch) && b.peer.net.reserved != fps)
  }

  function Configure(b: Board, fps: nat, bind: bool): (Board, Errno) {
    if b.me.dying then (b, ENODEV)
    else if RateConflict(b, fps) then (b, ESTALE)
    else
      (b.(me := b.me.(net := if bind then Cadence(b.epoch, fps, fps) else b.me.net.(fps := fps)),
          peer := if Linked(b) then b.peer.(net := b.peer.net.(fps := fps)) else b.peer),
       Success)
  }

  function Dropped(d: Dev): Dev {
    d.(net := Cadence(0, 0, d.net.fps))
  }

  function StaleAsk(a: Ask): Ask {
    if a.state == Ready || a.state == Consumed then a.(state := Stale) else a
  }

  function MarkedStale(d: Dev): Dev {
    d.(ask := StaleAsk(d.ask))
  }

  function Unprogrammed(d: Dev): Dev {
    d.(hw := d.hw.(valid := false, epoch := 0), run := d.run.(commit := 0))
  }

  /** max9296_invalidate_exposure_hardware_locked() */
  function Invalidated(d: Dev): Dev {
    d.(ask := StaleAsk(d.ask), hw := d.hw.(valid := false, epoch := 0, reinit := true), run := d.run.(commit := 0))
  }

  /** Leaves the call: the instance lock and the request lock are free again. */
  function Exit(d: Dev): Dev {
    d.(txn := Idle, request := Free)
  }

  /** Queues the timeout for the lease or, when the lease cannot be armed, ends it. */
  function Armed(d: Dev, gen: nat, unarmed: Errno): Dev {
    if CanArm(d, gen) && d.timer.pending == 0 then
      var n := d.timer.arms + 1;
      d.(timer := Timer(n, n, n, d.timer.firing), txn := Idle, request := Free)
    else if d.own.lease then d.(txn := EndingLease(Unarmed, unarmed))
    else Exit(d)
  }

  /** A refused request leaves a held lease as it was, with a fresh timeout. */
  function Preserved(d: Dev): Dev {
    if d.own.lease then Armed(d, d.ask.gen, ESTALE) else Exit(d)
  }

  predicate BindChanged(before: Dev, after: Dev) {
    after.net.epoch != before.net.epoch || after.net.reserved != before.net.reserved
  }

  predicate HardwareMatches(build: Build, d: Dev, epoch: nat, fp: Fingerprint) {
    d.hw.valid && d.hw.epoch == epoch && Equal(build, d.hw.fp, fp)
  }

  // ----- power -----

  function DoPowerOn(b: Board, ok: bool): Board {
    var d := b.me;
    if d.dying then b
    else if d.own.count > 0 then b.(me := d.(own := d.own.(count := d.own.count + 1)))
    else if d.own.lease then
      b.(me := d.(own := Ownership(1, false, false), timer := d.timer.(pending := 0, lease := 0),
                  ask := d.ask.(leaseGen := 0, state := if d.ask.state == Stale then Stale else Consumed)))
    else
      var (b', ret) := SetPower(b, true, ok);
      if ret != Success then b' else b'.(me := b'.me.(own := b'.me.own.(count := 1)))
  }

  function DoPowerOff(b: Board, ok: bool): Board {
    var d := b.me;
    if d.dying || d.own.count == 0 then b
    else
      var b' := b.(me := d.(own := d.own.(count := d.own.count - 1)));
      if d.own.count > 1 then b' else SetPower(b', false, ok).0
  }

  // ----- prepare -----

  function DoSetInterval(b: Board, fps: nat): Board {
    var (b', ret) := Configure(b, fps, false);
    if ret != Success || b.me.net.fps == fps then b' else b'.(me := MarkedStale(b'.me))
  }

  function Tuned(d: Dev, kind: Tuning): Dev {
    match kind
    case Retune => MarkedStale(d)
    case RequireReinit => MarkedStale(d).(hw := d.hw.(reinit := true))
    case ReinitDone => d.(hw := d.hw.(reinit := false))
  }

  function Requested(d: Dev, request: Request): Dev {
    d.(request := request, timer := d.timer.(pending := 0))
  }

  /** Why prepare admission turns a request away while it keeps the lease as it was. */
  predicate Refused(build: Build, d: Dev, epoch: nat, fp: Fingerprint, gen: nat, preflight: bool, session: Session) {
    || !preflight
    || (d.ask.gen == gen && gen != 0 && !RequestEqual(build, d.ask.fp, fp))
    || (d.hw.valid && d.hw.epoch == epoch && !Equal(build, d.hw.fp, fp))
    || session == SessionRefused
  }

  function AdmittedDev(build: Build, d: Dev, epoch: nat, preflight: bool, session: Session): Dev
    requires d.request.Draining?
  {
    var fp, gen := d.request.fp, d.request.gen;
    if d.dying || d.ask.state == Preparing || d.run.streaming then d.(request := Free)
    else if Refused(build, d, epoch, fp, gen, preflight, session) then Preserved(d.(request := Held))
    else if d.hw.reinit || session == SessionNeedsReinit
    then Invalidated(d).(request := Held, txn := Admitted(fp, gen, false))
    else d.(request := Held, txn := Admitted(fp, gen, d.hw.valid && d.hw.epoch == epoch))
  }

  function DoRebindLease(b: Board): Board
    requires b.me.txn.Admitted?
  {
    var t := b.me.txn;
    var (b', ret) := Configure(b, t.fp.fps, true);
    if ret != Success then b.(me := Preserved(b.me))
    else
      var own := b.me.own.(reserved := b.me.own.reserved || BindChanged(b.me, b'.me));
      if t.hardwareCurrent
      then b'.(me := Armed(b'.me.(own := own, ask := Ask(Ready, t.gen, t.gen, t.fp)), t.gen, ESTALE))
      else b'.(me := b'.me.(own := own, ask := Ask(Preparing, t.gen, 0, t.fp), txn := Cold(ForPrepare(t.gen), t.fp)))
  }

  function DoAcquirePower(b: Board, ok: bool): Board
    requires b.me.txn.Admitted?
  {
    var t := b.me.txn;
    if b.me.own.count > 0
    then b.(me := b.me.(own := b.me.own.(count := 0), txn := Acquired(t.fp, t.gen)))
    else
      var (b', ret) := SetPower(b, true, ok);
      b'.(me := if ret != Success then Exit(b'.me) else b'.me.(txn := Acquired(t.fp, t.gen)))
  }

  function DoPublishLease(build: Build, b: Board): Board
    requires b.me.txn.Acquired?
  {
    var t := b.me.txn;
    var (b', ret) := Configure(b, t.fp.fps, true);
    if ret != Success then b.(me := b.me.(txn := Unpublished(ret)))
    else
      var d := b'.me.(own := b.me.own.(reserved := BindChanged(b.me, b'.me), lease := true));
      b'.(me := if HardwareMatches(build, d, b.epoch, t.fp)
                then d.(ask := Ask(Ready, t.gen, t.gen, t.fp), txn := Arming(t.gen))
                else d.(ask := Ask(Preparing, t.gen, 0, t.fp), txn := Cold(ForPrepare(t.gen), t.fp)))
  }

  function DoReleaseUnpublished(b: Board, ok: bool): Board {
    var b' := SetPower(b, false, ok).0;
    b'.(me := Exit(b'.me))
  }

  // ----- cold initialization -----

  /** The failure tail of max9296_prepare_hardware_locked() and where its caller goes next. */
  function ColdFailed(d: Dev, caller: Caller, ret: Errno): Dev {
    Unprogrammed(d).(txn := match caller
                            case ForPrepare(_) => EndingLease(FailedLease, ret)
                            case ForStream(bindReserved) => Abort(bindReserved, ret))
  }

  function ColdBegun(d: Dev, epoch: nat, refused: bool): Dev
    requires d.txn.Cold?
  {
    var t := d.txn;
    if refused then ColdFailed(d, t.caller, EINVAL)
    else if d.hw.cold == epoch then ColdFailed(d, t.caller, ESTALE)
    else
      d.(hw := Hardware(false, 0, d.hw.fp, epoch, Boot(epoch, t.fp, NoStage, false), d.hw.reinit, true),
         run := d.run.(commit := 0), txn := Loading(t.caller, t.fp))
  }

  function Judged(boot: Boot, outcome: Outcome): Boot {
    boot.(stage := StageOf(outcome), failed := CheckFailed(outcome))
  }

  function ColdEnded(d: Dev, epoch: nat, outcome: Outcome): Dev
    requires d.txn.Loading?
  {
    var t := d.txn;
    var boot := Judged(d.hw.boot, outcome);
    if outcome != Completed then ColdFailed(d.(hw := d.hw.(boot := boot)), t.caller, EIO)
    else
      var done := d.(hw := d.hw.(boot := boot, reinit := false, fp := t.fp, epoch := epoch, valid := true));
      match t.caller
      case ForPrepare(gen) => done.(ask := d.ask.(state := Ready, leaseGen := gen), txn := Arming(gen))
      case ForStream(bindReserved) => done.(txn := Replay(t.fp, bindReserved))
  }

  // ----- the end of a lease -----

  /** The lease's own reservation goes back first, in a section of its own. */
  function DroppedForRelease(d: Dev): Dev
    requires d.txn.EndingLease?
  {
    var drop := d.own.reserved && (d.txn.why == TimedOut ==> !d.run.streaming);
    (if drop then Dropped(d) else d).(txn := Relinquish(d.txn.why, d.txn.ret))
  }

  function EndState(why: Ending): PrepState {
    match why
    case FailedLease => Failed
    case Unarmed => Failed
    case Cancelled => PrepIdle
    case TimedOut => Expired
  }

  function DoRelinquishPower(b: Board, ok: bool): Board
    requires b.me.txn.Relinquish?
  {
    var d, why := b.me, b.me.txn.why;
    var ended := d.(own := d.own.(lease := false, reserved := false), timer := d.timer.(lease := 0),
                    ask := d.ask.(leaseGen := 0, state := EndState(why)));
    var b' := SetPower(b.(me := ended), false, ok).0;
    if why == TimedOut
    then b'.(me := b'.me.(txn := Idle, timer := b'.me.timer.(firing := 0)))
    else b'.(me := Exit(b'.me))
  }

  function CancelAdmitted(d: Dev): Dev {
    if d.dying || d.ask.state == Preparing || d.run.streaming || d.own.count > 0 then d.(request := Free)
    else if d.own.lease then d.(request := Held, txn := EndingLease(Cancelled, Success))
    else d.(request := Free, ask := d.ask.(state := PrepIdle))
  }

  function Fired(d: Dev): Dev {
    d.(timer := d.timer.(firing := d.timer.pending, pending := 0))
  }

  function TimerRan(d: Dev): Dev {
    if CanArm(d, d.ask.leaseGen) then d.(txn := EndingLease(TimedOut, Success))
    else d.(timer := d.timer.(firing := 0))
  }

  // ----- stream -----

  function DoStreamBind(b: Board, fp: Fingerprint): Board {
    var (b', ret) := Configure(b, fp.fps, true);
    if b.me.dying || b.me.ask.state == Preparing || ret != Success then b
    else b'.(me := b'.me.(request := Held, txn := Check(fp, BindChanged(b.me, b'.me))))
  }

  function StreamChecked(build: Build, d: Dev, epoch: nat): Dev
    requires d.txn.Check?
  {
    var t := d.txn;
    if d.hw.valid && d.hw.epoch == epoch && !Equal(build, d.hw.fp, t.fp) then d.(txn := Abort(t.bindReserved, ESTALE))
    else if d.hw.reinit then Invalidated(d).(txn := Cold(ForStream(t.bindReserved), t.fp))
    else if !d.hw.valid || d.hw.epoch != epoch then d.(txn := Cold(ForStream(t.bindReserved), t.fp))
    else d.(txn := Replay(t.fp, t.bindReserved))
  }

  function Replayed(d: Dev, ok: bool): Dev
    requires d.txn.Replay?
  {
    var t := d.txn;
    d.(txn := if ok then Commit(t.fp, t.bindReserved) else Abort(t.bindReserved, EIO))
  }

  function Committed(d: Dev, epoch: nat): Dev
    requires d.txn.Commit?
  {
    if d.dying then d.(txn := Abort(d.txn.bindReserved, ENODEV))
    else Exit(d.(run := Stream(true, true, epoch, d.run.fsync)))
  }

  function Aborted(d: Dev): Dev
    requires d.txn.Abort?
  {
    Exit(if d.txn.bindReserved && !d.run.streaming then Dropped(d) else d)
  }

  const STOPPED := Stream(false, false, 0, false)

  function StreamedOff(d: Dev, ok: bool): Dev {
    if d.dying || d.ask.state == Preparing then d
    else d.(run := STOPPED, txn := if d.run.streaming && ok then StopDrop(false) else Idle)
  }

  function StopDropped(d: Dev): Dev
    requires d.txn.StopDrop?
  {
    if d.txn.holdsRequest then Exit(Dropped(d)) else Dropped(d).(txn := Idle)
  }

  function Pulsed(d: Dev, pulse: bool): Dev {
    if pulse then d.(run := d.run.(fsync := true)) else d
  }

  // ----- removal -----

  function DoRemoveReconcile(b: Board): Board {
    var d := b.me;
    var gone := Unprogrammed(d).(own := Ownership(0, false, false), ask := d.ask.(leaseGen := 0),
                                 timer := d.timer.(pending := 0, lease := 0));
    if (d.own.lease || d.own.count > 0) && b.users > 0
    then b.(me := gone, users := b.users - 1, epoch := if b.users == 1 then b.epoch + 1 else b.epoch)
    else b.(me := gone)
  }

  function SurvivorStopped(d: Dev, ok: bool): Dev {
    if d.run.streaming && ok && !d.own.reserved
    then d.(run := STOPPED, request := Held, txn := StopDrop(true))
    else d.(run := STOPPED)
  }

  // ----- the step -----
  //
  // `...Enabled` says what the locks and the place of the running call admit.  No discipline of the
  // caller is assumed there; see `PoweredStart` and `StopBeforePowerOff`.

  predicate OutputEnabled(b: Board, op: OutputOp) {
    match op
    case Pulse(mine, peers) =>
      (mine || peers) && !b.me.dying && (mine ==> StreamCurrent(b.me, b.epoch))
      && (peers ==> !b.peer.dying && StreamCurrent(b.peer, b.epoch))
    case EnableOutput => b.me.txn.Idle? && !b.me.dying && StreamCurrent(b.me, b.epoch) && b.me.run.fsync
  }

  predicate RemoveEnabled(b: Board, op: RemoveOp) {
    match op
    case RemoveBegin => !b.me.dying
    case RemoveReconcile => b.me.dying && b.me.request.Free? && b.me.timer.firing == 0 && b.me.txn.Idle?
    case SurvivorStop(_) => b.peer.dying && !b.me.dying && b.me.request.Free? && b.me.txn.Idle?
  }

  predicate RequestEnabled(d: Dev, op: RequestOp) {
    match op
    case RequestPrepare(_, gen) => d.request.Free? && gen > 0
    case AdmitPrepare(_, _) => d.request.Draining? && d.txn.Idle? && d.timer.firing == 0
    case RequestCancel => d.request.Free?
    case AdmitCancel => d.request.DrainingCancel? && d.txn.Idle? && d.timer.firing == 0
    case TimerFire => d.timer.pending != 0 && d.timer.firing == 0
    case TimerRun => d.timer.firing != 0 && d.txn.Idle?
  }

  predicate PrepareEnabled(d: Dev, op: PrepareOp) {
    match op
    case RebindLease => d.txn.Admitted? && d.own.lease
    case AcquirePower(_) => d.txn.Admitted? && !d.own.lease
    case PublishLease => d.txn.Acquired?
    case ReleaseUnpublished(_) => d.txn.Unpublished?
  }

  predicate ColdEnabled(d: Dev, op: ColdOp) {
    match op
    case ColdBegin(_) => d.txn.Cold?
    case ColdEnd(_) => d.txn.Loading?
  }

  predicate LeaseEnabled(d: Dev, op: LeaseOp) {
    match op
    case ArmLease => d.txn.Arming?
    case DropForRelease => d.txn.EndingLease?
    case RelinquishPower(_) => d.txn.Relinquish?
  }

  predicate StreamEnabled(d: Dev, op: StreamOp) {
    match op
    case StreamBind(_) => d.request.Free? && d.txn.Idle?
    case StreamCheck => d.txn.Check?
    case StreamReplay(_) => d.txn.Replay?
    case StreamCommit => d.txn.Commit?
    case StreamAbort => d.txn.Abort?
    case StreamOff(_) => d.txn.Idle?
    case DropStopped => d.txn.StopDrop?
  }

  predicate Enabled(b: Board, op: Op) {
    match op
    case OnPower(_) => b.me.txn.Idle?
    case OnOutput(o) => OutputEnabled(b, o)
    case OnRemove(o) => RemoveEnabled(b, o)
    case OnRequest(o) => RequestEnabled(b.me, o)
    case OnPrepare(o) => PrepareEnabled(b.me, o)
    case OnCold(o) => ColdEnabled(b.me, o)
    case OnLease(o) => LeaseEnabled(b.me, o)
    case OnStream(o) => StreamEnabled(b.me, o)
  }

  function ApplyPower(b: Board, op: PowerOp): Board {
    match op
    case PowerOn(ok) => DoPowerOn(b, ok)
    case PowerOff(ok) => DoPowerOff(b, ok)
    case SetInterval(fps) => DoSetInterval(b, fps)
    case Tune(kind) => b.(me := Tuned(b.me, kind))
  }

  function ApplyOutput(b: Board, op: OutputOp): Board {
    match op
    case Pulse(mine, peers) => b.(me := Pulsed(b.me, mine), peer := Pulsed(b.peer, peers))
    case EnableOutput => b.(me := b.me.(run := b.me.run.(streamOn := false)))
  }

  function ApplyRemove(b: Board, op: RemoveOp): Board {
    match op
    case RemoveBegin => b.(me := b.me.(dying := true))
    case RemoveReconcile => DoRemoveReconcile(b)
    case SurvivorStop(ok) => b.(me := SurvivorStopped(b.me, ok))
  }

  function ApplyRequest(build: Build, b: Board, op: RequestOp): Board
    requires RequestEnabled(b.me, op)
  {
    match op
    case RequestPrepare(fp, gen) => b.(me := Requested(b.me, Draining(fp, gen)))
    case AdmitPrepare(preflight, session) => b.(me := AdmittedDev(build, b.me, b.epoch, preflight, session))
    case RequestCancel => b.(me := Requested(b.me, DrainingCancel))
    case AdmitCancel => b.(me := CancelAdmitted(b.me))
    case TimerFire => b.(me := Fired(b.me))
    case TimerRun => b.(me := TimerRan(b.me))
  }

  function ApplyPrepare(build: Build, b: Board, op: PrepareOp): Board
    requires PrepareEnabled(b.me, op)
  {
    match op
    case RebindLease => DoRebindLease(b)
    case AcquirePower(ok) => DoAcquirePower(b, ok)
    case PublishLease => DoPublishLease(build, b)
    case ReleaseUnpublished(ok) => DoReleaseUnpublished(b, ok)
  }

  function ApplyCold(b: Board, op: ColdOp): Board
    requires ColdEnabled(b.me, op)
  {
    match op
    case ColdBegin(refused) => b.(me := ColdBegun(b.me, b.epoch, refused))
    case ColdEnd(outcome) => b.(me := ColdEnded(b.me, b.epoch, outcome))
  }

  function ApplyLease(b: Board, op: LeaseOp): Board
    requires LeaseEnabled(b.me, op)
  {
    match op
    case ArmLease => b.(me := Armed(b.me, b.me.txn.gen, if b.me.dying then ENODEV else EBUSY))
    case DropForRelease => b.(me := DroppedForRelease(b.me))
    case RelinquishPower(ok) => DoRelinquishPower(b, ok)
  }

  function ApplyStream(build: Build, b: Board, op: StreamOp): Board
    requires StreamEnabled(b.me, op)
  {
    match op
    case StreamBind(fp) => DoStreamBind(b, fp)
    case StreamCheck => b.(me := StreamChecked(build, b.me, b.epoch))
    case StreamReplay(ok) => b.(me := Replayed(b.me, ok))
    case StreamCommit => b.(me := Committed(b.me, b.epoch))
    case StreamAbort => b.(me := Aborted(b.me))
    case StreamOff(ok) => b.(me := StreamedOff(b.me, ok))
    case DropStopped => b.(me := StopDropped(b.me))
  }

  function Apply(build: Build, b: Board, op: Op): Board
    requires Enabled(b, op)
  {
    match op
    case OnPower(o) => ApplyPower(b, o)
    case OnOutput(o) => ApplyOutput(b, o)
    case OnRemove(o) => ApplyRemove(b, o)
    case OnRequest(o) => ApplyRequest(build, b, o)
    case OnPrepare(o) => ApplyPrepare(build, b, o)
    case OnCold(o) => ApplyCold(b, o)
    case OnLease(o) => ApplyLease(b, o)
    case OnStream(o) => ApplyStream(build, b, o)
  }

  /** The two orders the driver relies on its V4L2 caller for: a stream starts only on an instance
      with a positive power count, and the count reaches zero only when the stream is off. */
  predicate PoweredStart(b: Board, op: Op) {
    op.OnStream? && op.stream.StreamBind? ==> b.me.own.count > 0
  }

  predicate StopBeforePowerOff(b: Board, op: Op) {
    op.OnPower? && op.power.PowerOff? && b.me.own.count == 1 ==> !b.me.run.streaming
  }
}
