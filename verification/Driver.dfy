/** The driver's shared state and entry points in their own form: one object per deserializer
    instance, one for the board, and methods that change them in place.

    The board keeps the history of its steps.  `Valid` says that this history is a run of the
    transition system and ends in the present state, so every theorem about runs is one about these
    objects.  A method that is one section of a longer call records one step; a whole call is a
    sequence of sections with steps of other threads (`Others`) in between. */
module Driver {
  import opened PreviewPolicy
  import opened Fingerprint
  import opened BootStages
  import opened Protocol
  import opened ProtocolInvariants
  import opened ProtocolRuns
  import opened PreparedHardware

  /** The timeout of the lease is queued. */
  predicate TimeoutQueued(t: Timer) {
    t.pending == t.lease != 0
  }

  /** struct max9296_dev, its fields grouped by what they record. */
  class Deserializer {
    var own: Ownership
    var ask: Ask
    var timer: Timer
    var net: Cadence
    var hw: Hardware
    var run: Stream
    var dying: bool
    var request: Request
    var txn: Txn

    constructor ()
      ensures View() == PROBED
    {
      own, ask, timer := PROBED.own, PROBED.ask, PROBED.timer;
      net, hw, run := PROBED.net, PROBED.hw, PROBED.run;
      dying, request, txn := false, Free, Idle;
    }

    function View(): Dev
      reads this
    {
      Dev(own, ask, timer, net, hw, run, dying, request, txn)
    }

    /** Takes over a state some other thread's section leaves behind. */
    method Store(d: Dev)
      modifies this
      ensures View() == d
    {
      own, ask, timer, net, hw, run := d.own, d.ask, d.timer, d.net, d.hw, d.run;
      dying, request, txn := d.dying, d.request, d.txn;
    }

    /** max9296_mark_prepare_stale_locked() */
    method MarkStale()
      modifies `ask
      ensures ask == StaleAsk(old(ask))
    {
      if ask.state == Ready || ask.state == Consumed {
        ask := ask.(state := Stale);
      }
    }

    method InvalidateExposureHardware()
      modifies `ask, `hw, `run
      ensures View() == Invalidated(old(View()))
    {
      hw := hw.(reinit := true);
      MarkStale();
      hw := hw.(valid := false, epoch := 0);
      run := run.(commit := 0);
    }

    /** max9296_drop_fsync_contract_locked() */
    method DropContract()
      modifies `net
      ensures View() == Dropped(old(View()))
    {
      net := net.(epoch := 0, reserved := 0);
    }

    /** Unlocks the instance lock and the request lock. */
    method Leave()
      modifies `txn, `request
      ensures View() == Exit(old(View()))
    {
      txn, request := Idle, Free;
    }

    /** The lease's one global user becomes the local count's; the timeout is cancelled, not awaited. */
    method ConsumeLease()
      modifies `own, `timer, `ask
      ensures own == old(own).(lease := false, reserved := false)
      ensures timer == old(timer).(pending := 0, lease := 0)
      ensures ask == old(ask).(leaseGen := 0, state := if old(ask).state == Stale then Stale else Consumed)
    {
      own := own.(lease := false, reserved := false);
      timer := timer.(pending := 0, lease := 0);
      ask := ask.(leaseGen := 0);
      if ask.state != Stale {
        ask := ask.(state := Consumed);
      }
    }

    /** max9296_queue_prepare_lease_locked() and, when it refuses, the way to release_unarmed_lease. */
    method QueueLease(gen: nat, unarmed: Errno) returns (armed: bool)
      modifies `timer, `txn, `request
      ensures View() == Armed(old(View()), gen, unarmed)
      ensures armed <==> CanArm(old(View()), gen) && old(timer).pending == 0
    {
      armed := CanArm(View(), gen) && timer.pending == 0;
      if armed {
        timer := Timer(timer.arms + 1, timer.arms + 1, timer.arms + 1, timer.firing);
        Leave();
      } else if own.lease {
        txn := EndingLease(Unarmed, unarmed);
      } else {
        Leave();
      }
    }

    /** The preserve_lease exit of a request that was turned away. */
    method PreserveLease()
      modifies `timer, `txn, `request
      ensures View() == Preserved(old(View()))
    {
      if own.lease {
        var _ := QueueLease(ask.gen, ESTALE);
      } else {
        Leave();
      }
    }

    /** What admits a request: the instance is free for one, the preflight and the session accept it, a request
        under the same generation is the same request, and hardware in use is programmed for it. */
    predicate Passes(build: Build, boardEpoch: nat, preflight: bool, session: Session)
      requires request.Draining?
      reads this
    {
      && !dying && ask.state != Preparing && !run.streaming
      && preflight && session != SessionRefused
      && (ask.gen == request.gen && request.gen != 0 ==> RequestEqual(build, ask.fp, request.fp))
      && (hw.valid && hw.epoch == boardEpoch ==> Equal(build, hw.fp, request.fp))
    }

    /** The admission checks of max9296_prepare_request() up to the point where ownership decides. */
    method Admit(build: Build, boardEpoch: nat, preflight: bool, session: Session) returns (admitted: bool)
      requires request.Draining? && txn.Idle?
      modifies this
      ensures View() == AdmittedDev(build, old(View()), boardEpoch, preflight, session)
      ensures admitted <==> old(Passes(build, boardEpoch, preflight, session))
      ensures if admitted then txn.Admitted? else txn.Idle? || txn.EndingLease?
      ensures !admitted ==> own == old(own) && ask == old(ask) && hw == old(hw) && run == old(run) && net == old(net)
      ensures !admitted && old(CanArm(View(), ask.gen) && timer.pending == 0 && !run.streaming) ==>
                txn.Idle? && TimeoutQueued(timer)
      ensures admitted ==> txn.fp == old(request.fp) && txn.gen == old(request.gen) && own == old(own)
      ensures admitted ==>
                if old(hw.reinit) || session == SessionNeedsReinit
                then !txn.hardwareCurrent && !hw.valid && hw.reinit && ask.state != Ready && ask.state != Consumed
                else hw == old(hw) && ask == old(ask)
                     && (txn.hardwareCurrent <==> Fit(build, View(), boardEpoch, txn.fp))
    {
      var fp, gen := request.fp, request.gen;
      admitted := false;
      if dying || ask.state == Preparing || run.streaming {
        request := Free;
      } else {
        request := Held;
        var current := hw.valid && hw.epoch == boardEpoch;
        if !preflight
        || (ask.gen == gen && gen != 0 && !RequestEqual(build, ask.fp, fp))
        || (current && !Equal(build, hw.fp, fp))
        || session == SessionRefused {
          PreserveLease();
        } else {
          if session == SessionNeedsReinit || hw.reinit {
            InvalidateExposureHardware();
            current := false;
          }
          txn := Admitted(fp, gen, current);
          admitted := true;
        }
      }
    }

    /** A held lease takes the identity of a new request: ready at once on current hardware, else to be programmed. */
    method RenewIdentity(reserved: bool)
      requires txn.Admitted?
      modifies `own, `ask, `txn
      ensures own == old(own).(reserved := reserved)
      ensures if old(txn).hardwareCurrent
              then ask == Ask(Ready, old(txn).gen, old(txn).gen, old(txn).fp) && txn == old(txn)
              else ask == Ask(Preparing, old(txn).gen, 0, old(txn).fp)
                   && txn == Cold(ForPrepare(old(txn).gen), old(txn).fp)
    {
      own := own.(reserved := reserved);
      if txn.hardwareCurrent {
        ask := Ask(Ready, txn.gen, txn.gen, txn.fp);
      } else {
        ask := Ask(Preparing, txn.gen, 0, txn.fp);
        txn := Cold(ForPrepare(txn.gen), txn.fp);
      }
    }

    /** A fresh lease is published with its identity; it is armed next when the hardware is current. */
    method PublishLease(build: Build, boardEpoch: nat, reserved: bool)
      requires txn.Acquired?
      modifies `own, `ask, `txn
      ensures own == old(own).(lease := true, reserved := reserved)
      ensures if HardwareMatches(build, old(View()), boardEpoch, old(txn).fp)
              then ask == Ask(Ready, old(txn).gen, old(txn).gen, old(txn).fp) && txn == Arming(old(txn).gen)
              else ask == Ask(Preparing, old(txn).gen, 0, old(txn).fp)
                   && txn == Cold(ForPrepare(old(txn).gen), old(txn).fp)
    {
      var t := txn;
      own := own.(lease := true, reserved := reserved);
      ask := Ask(Preparing, t.gen, 0, t.fp);
      if !hw.valid || hw.epoch != boardEpoch || !Equal(build, hw.fp, t.fp) {
        txn := Cold(ForPrepare(t.gen), t.fp);
      } else {
        ask := Ask(Ready, t.gen, t.gen, t.fp);
        txn := Arming(t.gen);
      }
    }

    /** The lease is over; its power goes back next. */
    method CloseLease(why: Ending)
      modifies `own, `timer, `ask
      ensures own == old(own).(lease := false, reserved := false)
      ensures timer == old(timer).(lease := 0)
      ensures ask == old(ask).(leaseGen := 0, state := EndState(why))
    {
      own := own.(lease := false, reserved := false);
      timer := timer.(lease := 0);
      ask := ask.(leaseGen := 0, state := EndState(why));
    }

    /** Leaves the call that ended a lease; the timeout callback holds no request lock. */
    method LeaveLease(why: Ending)
      modifies `txn, `request, `timer
      ensures View() == if why == TimedOut then old(View()).(txn := Idle, timer := old(timer).(firing := 0))
                        else Exit(old(View()))
    {
      if why == TimedOut {
        txn := Idle;
        timer := timer.(firing := 0);
      } else {
        Leave();
      }
    }

    /** What a removed instance forgets. */
    method Forget()
      modifies `own, `ask, `timer, `hw, `run
      ensures own == Ownership(0, false, false) && ask == old(ask).(leaseGen := 0)
      ensures timer == old(timer).(pending := 0, lease := 0)
      ensures hw == old(hw).(valid := false, epoch := 0) && run == old(run).(commit := 0)
    {
      own := Ownership(0, false, false);
      ask := ask.(leaseGen := 0);
      timer := timer.(pending := 0, lease := 0);
      hw := hw.(valid := false, epoch := 0);
      run := run.(commit := 0);
    }

    /** The end of the mode-table walk: the boot record, then success or the failed exit. */
    method FinishCold(boardEpoch: nat, outcome: Outcome)
      requires txn.Loading?
      modifies `hw, `ask, `run, `txn
      ensures View() == ColdEnded(old(View()), boardEpoch, outcome)
    {
      var t := txn;
      hw := hw.(boot := Judged(hw.boot, outcome));
      if outcome != Completed {
        FailCold(t.caller, EIO);
      } else {
        hw := hw.(reinit := false, fp := t.fp, epoch := boardEpoch, valid := true);
        match t.caller {
          case ForPrepare(gen) =>
            ask := ask.(state := Ready, leaseGen := gen);
            txn := Arming(gen);
          case ForStream(bindReserved) =>
            txn := Replay(t.fp, bindReserved);
        }
      }
    }

    /** The failed exit of max9296_prepare_hardware_locked(). */
    method FailCold(caller: Caller, ret: Errno)
      modifies `hw, `run, `txn
      ensures View() == ColdFailed(old(View()), caller, ret)
    {
      hw := hw.(valid := false, epoch := 0);
      run := run.(commit := 0);
      match caller {
        case ForPrepare(_) => txn := EndingLease(FailedLease, ret);
        case ForStream(bindReserved) => txn := Abort(bindReserved, ret);
      }
    }
  }

  /** The op that takes the request lock for this request. */
  function OpenOp(request: Request): RequestOp
    requires request.DrainingCancel? || request.Draining?
  {
    if request.DrainingCancel? then RequestCancel else RequestPrepare(request.fp, request.gen)
  }

  /** A request whose lease has ended keeps its identity; its state says how. */
  function EndedAsk(ask: Ask, why: Ending): Ask {
    ask.(leaseGen := 0, state := if why == Cancelled then PrepIdle else if why == TimedOut then Expired else Failed)
  }

  /** What the end of a lease leaves of its reservation: nothing of one the lease took, unless an expiry meets a
      running stream, and all of one it found. */
  predicate GaveBack(d: Dev, d': Dev, epoch': nat, keep: bool) {
    if d.own.reserved && !keep then !Reserves(d', epoch') else SameReservation(d.net, d'.net)
  }

  /** A prepare that was ready or consumed and is no longer what a new request may rely on. */
  function Outdated(ask: Ask): Ask {
    if ask.state in {Ready, Consumed} then ask.(state := Stale) else ask
  }

  /** Where a cold initialization leaves its caller. */
  predicate FailedFor(caller: Caller, t: Txn) {
    if caller.ForStream? then t.Abort? && t.ret != Success else t.EndingLease? && t.why == FailedLease
  }

  predicate LoadedFor(caller: Caller, t: Txn) {
    if caller.ForStream? then t.Replay? else t.Arming?
  }

  /** The same reservation; the live rate may have moved. */
  predicate SameReservation(n: Cadence, n': Cadence) {
    n'.epoch == n.epoch && n'.reserved == n.reserved
  }

  /** How a cold initialization ends for its caller, as far as this instance and its surroundings decide it. */
  function ColdVerdict(d: Dev, epoch: nat, w: Weather): Errno {
    if w.refused then EINVAL
    else if d.hw.cold == epoch then ESTALE
    else if w.outcome != Completed then EIO
    else Success
  }

  /** How the hardware part of a bound start on an instance in state `d` has to end: hardware in use for another
      fingerprint is never touched, fit hardware is reused, anything else is initialized. */
  function HardwareVerdict(build: Build, d: Dev, epoch: nat, fp: Fingerprint, w: Weather): Errno {
    if d.hw.valid && d.hw.epoch == epoch && !Equal(build, d.hw.fp, fp) then ESTALE
    else if Fit(build, d, epoch, fp) then Success
    else ColdVerdict(d, epoch, w)
  }

  /** And the whole start, unless a removal overtakes it. */
  function StartVerdict(build: Build, d: Dev, epoch: nat, fp: Fingerprint, w: Weather): Errno {
    var ret := HardwareVerdict(build, d, epoch, fp, w);
    if ret == Success && !w.replay then EIO else ret
  }

  /** What the surroundings answer to one call: the steps other threads take in each of its gaps, the worker
      status, and the results of preflight, hardware, firmware and control accesses. */
  datatype Weather = Weather(gap: nat -> seq<Event>, worker: Errno, power: bool, preflight: bool, session: Session,
                             refused: bool, outcome: Outcome, replay: bool, disable: bool, off: bool)

  /** A step some other thread takes while a call of `who` is under way.  While the call only drains
      the timer it does not hold the instance lock, so everything but its own admission may happen. */
  predicate Foreign(e: Event, who: bool, draining: bool) {
    e.who != who
    || (if draining then !(e.op.OnRequest? && (e.op.request.AdmitPrepare? || e.op.request.AdmitCancel?))
        else e.op.OnOutput? || e.op.OnRemove? || e.op.OnRequest?)
  }

  /** What no other thread changes on an instance whose lock is held. */
  predicate Undisturbed(d: Dev, d': Dev) {
    && d'.txn == d.txn && d'.own == d.own && d'.ask == d.ask && (d.request == Free || d'.request == d.request)
    && d'.run == d.run.(fsync := d'.run.fsync) && (d'.run.fsync ==> d.run.fsync || d.run.streaming)
    && d'.hw == d.hw.(remapped := d'.hw.remapped)
    && d'.net == d.net.(fps := d'.net.fps) && (d.dying ==> d'.dying)
  }

  lemma SiblingStepDisturbsNothing(build: Build, b: Board, op: Op)
    requires Enabled(b, op)
    ensures Undisturbed(b.peer, Apply(build, b, op).peer)
  {
    hide Apply, Enabled;
    SiblingTouched(build, b, op);
  }

  lemma WorkerStepDisturbsNothing(build: Build, b: Board, op: Op)
    requires Enabled(b, op) && !b.me.txn.Idle? && Foreign(Event(true, op), true, false)
    ensures Undisturbed(b.me, Apply(build, b, op).me)
  {
  }

  lemma ForeignStepDisturbsNothing(build: Build, b: Board, e: Event, who: bool)
    requires CanStep(b, e) && !DevOf(b, who).txn.Idle? && Foreign(e, who, false)
    ensures Undisturbed(DevOf(b, who), DevOf(Step(build, b, e), who))
  {
    hide Apply, Enabled, Undisturbed;
    if e.who == who {
      WorkerStepDisturbsNothing(build, Seen(b, e.who), e.op);
    } else {
      SiblingStepDisturbsNothing(build, Seen(b, e.who), e.op);
    }
  }

  lemma UndisturbedKeeps(build: Build, d: Dev, d': Dev, epoch: nat, fp: Fingerprint, gen: nat)
    requires Undisturbed(d, d')
    ensures Underway(d, epoch, fp, gen) ==> Underway(d', epoch, fp, gen)
    ensures ReadyFor(build, d, epoch, fp, gen) ==> ReadyFor(build, d', epoch, fp, gen)
    ensures Fit(build, d, epoch, fp) ==> Fit(build, d', epoch, fp)
    ensures NoDebt(d) ==> NoDebt(d')
    ensures SameReservation(d.net, d'.net) && d'.hw.cold == d.hw.cold && d'.hw == d.hw.(remapped := d'.hw.remapped)
    ensures Accounted(d) ==> Accounted(d')
    ensures d'.own == d.own && d'.txn == d.txn && d'.ask == d.ask && (d.dying ==> d'.dying)
    ensures d'.run.streaming == d.run.streaming
  {
  }

  lemma VerdictStays(build: Build, d: Dev, d': Dev, epoch: nat, fp: Fingerprint, w: Weather)
    requires Undisturbed(d, d')
    ensures HardwareVerdict(build, d', epoch, fp, w) == HardwareVerdict(build, d, epoch, fp, w)
    ensures StartVerdict(build, d', epoch, fp, w) == StartVerdict(build, d, epoch, fp, w)
    ensures ColdVerdict(d', epoch, w) == ColdVerdict(d, epoch, w)
  {
  }

  /** The three cases of the hardware verdict, and what an invalidation leaves of the last. */
  lemma VerdictCases(build: Build, d: Dev, epoch: nat, fp: Fingerprint, w: Weather)
    ensures d.hw.valid && d.hw.epoch == epoch && !Equal(build, d.hw.fp, fp) ==>
              HardwareVerdict(build, d, epoch, fp, w) == ESTALE && !Fit(build, d, epoch, fp)
    ensures Fit(build, d, epoch, fp) ==> HardwareVerdict(build, d, epoch, fp, w) == Success
    ensures !(d.hw.valid && d.hw.epoch == epoch && !Equal(build, d.hw.fp, fp)) && !Fit(build, d, epoch, fp) ==>
              HardwareVerdict(build, d, epoch, fp, w) == ColdVerdict(d, epoch, w)
  {
  }

  lemma ColdVerdictLooks(d: Dev, d': Dev, epoch: nat, w: Weather)
    requires d'.hw.cold == d.hw.cold
    ensures ColdVerdict(d', epoch, w) == ColdVerdict(d, epoch, w)
  {
  }

  /** The verdict looks at the hardware only. */
  lemma VerdictIgnoresCall(build: Build, d: Dev, d': Dev, epoch: nat, fp: Fingerprint, w: Weather)
    requires d'.hw == d.hw
    ensures StartVerdict(build, d', epoch, fp, w) == StartVerdict(build, d, epoch, fp, w)
  {
  }

  /** While an instance that owns power is inside a call, no step of another thread moves the epoch. */
  lemma ForeignStepKeepsEpoch(build: Build, b: Board, e: Event, who: bool)
    requires PowerInv(b) && CanStep(b, e) && !DevOf(b, who).txn.Idle? && Foreign(e, who, false)
    requires Accounted(DevOf(b, who))
    ensures Step(build, b, e).epoch == b.epoch && Accounted(DevOf(Step(build, b, e), who))
  {
    hide Apply, Enabled, Undisturbed, PowerInv, CanStep, Step, Foreign;
    ForeignStepDisturbsNothing(build, b, e, who);
    UndisturbedKeeps(build, DevOf(b, who), DevOf(Step(build, b, e), who), b.epoch, NO_FINGERPRINT, 0);
    AccountedStep(build, b, e, who);
  }

  predicate Drains(r: Request) {
    r.Draining? || r.DrainingCancel?
  }

  /** A request that drains the timer keeps its place until it is admitted itself. */
  lemma ForeignStepKeepsDraining(build: Build, b: Board, e: Event, who: bool)
    requires RequestInv(b) && CanStep(b, e) && Foreign(e, who, true) && Drains(DevOf(b, who).request)
    ensures DevOf(Step(build, b, e), who).request == DevOf(b, who).request
  {
    hide Apply, Enabled, RequestLocal;
    if e.who == who {
      DrainingStays(build, Seen(b, e.who), e.op);
    } else {
      SiblingTouched(build, Seen(b, e.who), e.op);
    }
  }

  lemma SelfUndisturbed(d: Dev)
    ensures Undisturbed(d, d)
  {
  }

  lemma UndisturbedChains(d: Dev, d': Dev, d'': Dev)
    requires Undisturbed(d, d') && Undisturbed(d', d'')
    ensures Undisturbed(d, d'') && d''.txn == d.txn
  {
  }

  /** What a step of another thread leaves alone, told from the state the gap began with. */
  lemma ForeignStep(build: Build, b: Board, e: Event, who: bool, draining: bool, first: Dev)
    requires PowerInv(b) && RequestInv(b) && CanStep(b, e) && Foreign(e, who, draining)
    ensures var d, d' := DevOf(b, who), DevOf(Step(build, b, e), who);
            && (!draining && !first.txn.Idle? && Undisturbed(first, d) ==> Undisturbed(first, d') && d'.txn == first.txn)
            && (!draining && !first.txn.Idle? && Undisturbed(first, d) && Accounted(d) ==>
                  Step(build, b, e).epoch == b.epoch && Accounted(d'))
            && (draining && Drains(d.request) ==> d'.request == d.request)
  {
    hide Apply, Enabled, CanStep, Step, Undisturbed, Foreign, PowerInv, RequestInv, Accounted;
    var d, d' := DevOf(b, who), DevOf(Step(build, b, e), who);
    if draining {
      if Drains(d.request) {
        ForeignStepKeepsDraining(build, b, e, who);
      }
    } else if !first.txn.Idle? && Undisturbed(first, d) {
      UndisturbedKeeps(build, first, d, 0, NO_FINGERPRINT, 0);
      ForeignStepDisturbsNothing(build, b, e, who);
      UndisturbedChains(first, d, d');
      if Accounted(d) {
        ForeignStepKeepsEpoch(build, b, e, who);
      }
    }
  }

  lemma UnheldLeaseReservesNothing(b: Board, who: bool)
    requires PowerInv(b) && !DevOf(b, who).own.lease
    ensures !DevOf(b, who).own.reserved
  {
  }

  /** Where the rebind of a held lease leaves the call. */
  lemma ReboundLease(b: Board)
    requires b.me.txn.Admitted? && b.me.own.lease
    ensures var t, b' := b.me.txn, DoRebindLease(b);
            && b'.epoch == b.epoch && b'.me.hw == b.me.hw
            && (b'.me.txn.Cold? <==> !b.me.dying && !RateConflict(b, t.fp.fps) && !t.hardwareCurrent)
            && (b'.me.txn.Idle? || b'.me.txn.EndingLease? || b'.me.txn == Cold(ForPrepare(t.gen), t.fp))
            && (b'.me.txn.Cold? ==> Underway(b'.me, b.epoch, t.fp, t.gen))
            && (!RateConflict(b, t.fp.fps) && !b.me.dying ==> Underway(b'.me, b.epoch, t.fp, t.gen))
  {
  }

  /** Where the publication of a fresh lease leaves the call. */
  lemma PublishedLease(build: Build, b: Board)
    requires b.me.txn.Acquired? && NoDebt(b.me)
    ensures var b' := DoPublishLease(build, b);
            && b'.epoch == b.epoch
            && (b'.me.txn.Unpublished? <==> b.me.dying || RateConflict(b, b.me.txn.fp.fps))
            && (b'.me.txn.Arming? ==> Fit(build, b.me, b.epoch, b.me.txn.fp))
            && (b'.me.txn.Cold? ==> !Fit(build, b.me, b.epoch, b.me.txn.fp))
            && if b'.me.txn.Unpublished? then b'.me.own == b.me.own
               else if b'.me.txn.Arming? then
                 b'.me.txn == Arming(b.me.txn.gen) && ReadyFor(build, b'.me, b.epoch, b.me.txn.fp, b.me.txn.gen)
               else
                 && b'.me.txn == Cold(ForPrepare(b.me.txn.gen), b.me.txn.fp)
                 && Underway(b'.me, b.epoch, b.me.txn.fp, b.me.txn.gen)
  {
  }

  /** A completed initialization makes a prepare under way ready. */
  lemma CompletedIsReady(build: Build, d: Dev, epoch: nat, gen: nat)
    requires d.txn.Loading? && d.txn.caller == ForPrepare(gen) && Underway(d, epoch, d.txn.fp, gen)
    ensures ReadyFor(build, ColdEnded(d, epoch, Completed), epoch, d.txn.fp, gen)
  {
  }

  /** What a power-on leaves of the acting instance, and when it fails. */
  lemma TurnedOn(b: Board, ok: bool)
    ensures var (b', ret) := Protocol.SetPower(b, true, ok);
            && ret == (if b.users == 0 && !ok then EIO else Success)
            && b'.me == b.me.(hw := b'.me.hw)
  {
  }

  /** Nothing else happens on the board during the call. */
  ghost predicate Quiet(w: Weather) {
    forall i: nat {:trigger w.gap(i)} :: w.gap(i) == []
  }

  /** Whether a prepare that renews a held lease succeeds when nothing interferes. */
  predicate RenewalWorks(b: Board, fp: Fingerprint, current: bool, w: Weather) {
    !RateConflict(b, fp.fps) && (current || ColdVerdict(b.me, b.epoch, w) == Success)
  }

  /** The epoch in which a fresh lease is published. */
  function LeaseEpoch(b: Board): nat {
    if b.me.own.count == 0 && b.users == 0 then b.epoch + 1 else b.epoch
  }

  /** Whether the publication of a fresh lease succeeds when nothing interferes. */
  predicate PublicationWorks(build: Build, b: Board, fp: Fingerprint, w: Weather) {
    !RateConflict(b, fp.fps) && (Fit(build, b.me, b.epoch, fp) || ColdVerdict(b.me, b.epoch, w) == Success)
  }

  /** Whether a prepare that takes a fresh lease does. */
  predicate LeaseWorks(build: Build, b: Board, fp: Fingerprint, w: Weather) {
    (b.me.own.count > 0 || b.users > 0 || w.power) && PublicationWorks(build, b.(epoch := LeaseEpoch(b)), fp, w)
  }

  lemma PublicationLooks(build: Build, b: Board, b': Board, fp: Fingerprint, w: Weather)
    requires b'.epoch == b.epoch && b'.me.net == b.me.net && b'.peer.net == b.peer.net
    requires b'.me.dying == b.me.dying && b'.peer.dying == b.peer.dying
    requires b'.me.hw == b.me.hw.(remapped := b'.me.hw.remapped)
    ensures PublicationWorks(build, b', fp, w) == PublicationWorks(build, b, fp, w)
  {
  }

  /** Whether an admitted prepare succeeds when nothing interferes.  Hardware that owes a reinitialization counts as
      not programmed. */
  predicate PrepareWorks(build: Build, b: Board, fp: Fingerprint, w: Weather) {
    var owes := b.me.hw.reinit || w.session == SessionNeedsReinit;
    var seen := if owes then b.(me := Unprogrammed(b.me)) else b;
    if b.me.own.lease then RenewalWorks(seen, fp, Fit(build, seen.me, b.epoch, fp), w)
    else LeaseWorks(build, seen, fp, w)
  }

  /** Admission changes nothing the rest of the prepare looks at but what it says about the hardware. */
  lemma AdmittedWorks(build: Build, b: Board, w: Weather)
    requires b.me.request.Draining? && AdmittedDev(build, b.me, b.epoch, w.preflight, w.session).txn.Admitted?
    requires b.me.txn.Idle?
    ensures var d, fp := AdmittedDev(build, b.me, b.epoch, w.preflight, w.session), b.me.request.fp;
            && d.own == b.me.own && d.timer == b.me.timer && d.dying == b.me.dying && d.txn.fp == fp
            && PrepareWorks(build, b, fp, w) ==
               if d.own.lease then RenewalWorks(b.(me := d), fp, d.txn.hardwareCurrent, w)
               else LeaseWorks(build, b.(me := d), fp, w)
  {
    hide Equal, RequestEqual;
  }

  lemma OpenedWorks(build: Build, b: Board, request: Request, fp: Fingerprint, w: Weather)
    ensures PrepareWorks(build, b.(me := Requested(b.me, request)), fp, w) == PrepareWorks(build, b, fp, w)
  {
  }

  lemma AcquiredBoard(b: Board, ok: bool)
    requires b.me.txn.Admitted?
    ensures var (b', ret) := Protocol.SetPower(b, true, ok);
            ret == (if b.users == 0 && !ok then EIO else Success) && b'.me == b.me.(hw := b'.me.hw)
    ensures var b' := DoAcquirePower(b, ok);
            && b'.me.own.lease == b.me.own.lease && b'.me.own.reserved == b.me.own.reserved
            && b'.me.hw == b.me.hw.(remapped := b'.me.hw.remapped)
            && (b'.me.txn.Acquired? || b'.me.txn.Idle?)
    ensures var b' := DoAcquirePower(b, ok);
            b'.me.txn.Acquired? ==>
            && b'.epoch == LeaseEpoch(b) && b'.me.net == b.me.net && b'.peer.net == b.peer.net
            && b'.me.dying == b.me.dying && b'.peer.dying == b.peer.dying && b'.me.timer == b.me.timer
            && b'.me.own.count == 0 && b'.me.hw == b.me.hw.(remapped := b'.me.hw.remapped)
  {
  }

  class SharedBoard {
    const build: Build
    const d0: Deserializer
    const d1: Deserializer
    var users: nat
    var epoch: nat
    ghost var states: seq<Board>
    ghost var events: seq<Event>

    constructor (build: Build)
      ensures Valid() && View() == START && events == [] && fresh(d0) && fresh(d1)
    {
      this.build := build;
      d0 := new Deserializer();
      d1 := new Deserializer();
      users, epoch := 0, 1;
      new;
      states, events := [START], [];
    }

    function View(): Board
      reads this, d0, d1
    {
      Board(users, epoch, d0.View(), d1.View())
    }

    function At(who: bool): Deserializer {
      if who then d0 else d1
    }

    /** The board as the acting instance sees it. */
    function Sight(who: bool): Board
      reads this, d0, d1
    {
      Seen(View(), who)
    }

    /** The history is a run of the protocol that ends in the present state. */
    ghost predicate Valid()
      reads this, d0, d1
    {
      d0 != d1 && IsRun(build, states, events) && states[|events|] == View()
    }

    /** The history has grown by exactly this step. */
    ghost predicate Took(before: seq<Board>, past: seq<Event>, e: Event)
      reads this, d0, d1
    {
      Valid() && events == past + [e] && states == before + [View()]
    }

    ghost method Record(who: bool, op: Op)
      requires d0 != d1 && IsRun(build, states, events) && Enabled(Seen(states[|events|], who), op)
      requires Sight(who) == Apply(build, Seen(states[|events|], who), op)
      modifies `states, `events
      ensures Took(old(states), old(events), Event(who, op))
    {
      hide Apply, Enabled;
      states, events := states + [View()], events + [Event(who, op)];
    }

    // ----- shared sections -----

    /** max9296_set_power(): the user count decides whether the physical sequence runs. */
    method SetPower(who: bool, on: bool, ok: bool) returns (ret: Errno)
      requires d0 != d1
      modifies `users, `epoch, d0`hw, d1`hw, d0`run, d1`run
      ensures (Sight(who), ret) == Protocol.SetPower(old(Sight(who)), on, ok)
    {
      var me, peer := At(who), At(!who);
      var first;
      if on {
        first := users == 0;
        users := users + 1;
      } else {
        if users == 0 {
          return Success;
        }
        users := users - 1;
        first := users == 0;
      }
      ret := Success;
      if first {
        epoch := epoch + 1;
        if on {
          if ok {
            me.hw := me.hw.(remapped := false);
            peer.hw := peer.hw.(remapped := false);
          } else {
            ret := EIO;
            users := 0;
          }
        } else {
          me.run := me.run.(streaming := false);
          ret := if ok then Success else EIO;
        }
      }
    }

    /** max9296_configure_shared_fsync_locked(): no rate moves until every live reservation agrees. */
    method ConfigureSharedFsync(who: bool, fps: nat, bind: bool) returns (ret: Errno)
      requires d0 != d1
      modifies d0`net, d1`net
      ensures (Sight(who), ret) == Configure(old(Sight(who)), fps, bind)
    {
      var me, peer := At(who), At(!who);
      if me.dying {
        return ENODEV;
      }
      var linked := !peer.dying;
      if (me.net.epoch == epoch && me.net.reserved != fps)
      || (linked && peer.net.epoch == epoch && peer.net.reserved != fps) {
        return ESTALE;
      }
      if bind {
        me.net := me.net.(epoch := epoch, reserved := fps);
      }
      me.net := me.net.(fps := fps);
      if linked {
        peer.net := peer.net.(fps := fps);
      }
      return Success;
    }

    // ----- power and rate -----

    method TakeReference(who: bool, ok: bool) returns (ret: Errno)
      requires Valid() && At(who).txn.Idle?
      modifies this, d0, d1
      ensures Took(old(states), old(events), Event(who, OnPower(PowerOn(ok))))
      ensures ret == if old(At(who).dying) then ENODEV
                     else if old(At(who).own.count == 0 && !At(who).own.lease && users == 0) && !ok then EIO
                     else Success
      ensures ret != Success ==> At(who).own == old(At(who).own) && At(who).ask == old(At(who).ask)
      ensures ret == Success ==>
                At(who).own == if old(At(who).own.count == 0 && At(who).own.lease) then Ownership(1, false, false)
                               else old(At(who).own).(count := old(At(who).own.count) + 1)
      ensures ret == Success && old(At(who).own.count == 0 && At(who).own.lease) ==>
                && At(who).ask.leaseGen == 0 && (At(who).ask.state == Stale <==> old(At(who).ask.state) == Stale)
                && (At(who).ask.state == Stale || At(who).ask.state == Consumed)
                && At(who).timer.pending == 0 && users == old(users)
      ensures At(who).net == old(At(who).net)
    {
      hide ApplyOutput, ApplyRemove, ApplyRequest, ApplyPrepare, ApplyCold, ApplyLease, ApplyStream;
      hide Protocol.SetPower;
      TurnedOn(Sight(who), ok);
      var me := At(who);
      ret := Success;
      if me.dying {
        ret := ENODEV;
      } else {
        if me.own.count == 0 {
          if me.own.lease {
            me.ConsumeLease();
          } else {
            ret := SetPower(who, true, ok);
          }
        }
        if ret == Success {
          me.own := me.own.(count := me.own.count + 1);
        }
      }
      Record(who, OnPower(PowerOn(ok)));
    }

    method ReturnReference(who: bool, ok: bool) returns (ret: Errno)
      requires Valid() && At(who).txn.Idle?
      modifies this, d0, d1
      ensures Took(old(states), old(events), Event(who, OnPower(PowerOff(ok))))
      ensures ret == if old(At(who).dying) then ENODEV
                     else if old(At(who).own.count == 0) then EINVAL
                     else if old(At(who).own.count == 1 && users == 1) && !ok then EIO
                     else Success
      ensures At(who).own == if ret == Success || ret == EIO then old(At(who).own).(count := old(At(who).own.count) - 1)
                             else old(At(who).own)
      ensures At(who).net == old(At(who).net) && At(who).ask == old(At(who).ask)
    {
      hide ApplyOutput, ApplyRemove, ApplyRequest, ApplyPrepare, ApplyCold, ApplyLease, ApplyStream;
      var me := At(who);
      ret := Success;
      if me.dying {
        ret := ENODEV;
      } else if me.own.count == 0 {
        ret := EINVAL;
      } else {
        me.own := me.own.(count := me.own.count - 1);
        if me.own.count == 0 {
          ret := SetPower(who, false, ok);
        }
      }
      Record(who, OnPower(PowerOff(ok)));
    }

    method SPower(who: bool, on: bool, ok: bool) returns (ret: Errno)
      requires Valid() && At(who).txn.Idle?
      modifies this, d0, d1
      ensures Took(old(states), old(events), Event(who, OnPower(if on then PowerOn(ok) else PowerOff(ok))))
      ensures ret == ENODEV <==> old(At(who).dying)
      ensures ret == EINVAL <==> !old(At(who).dying) && !on && old(At(who).own.count == 0)
      ensures ret == EIO <==>
                && !old(At(who).dying) && !ok
                && if on then old(At(who).own.count == 0 && !At(who).own.lease && users == 0)
                   else old(At(who).own.count == 1 && users == 1)
    {
      hide Apply, Enabled, CanStep, Step, IsRun;
      if on {
        ret := TakeReference(who, ok);
      } else {
        ret := ReturnReference(who, ok);
      }
    }

    /** Some live instance holds a reservation of this epoch at another rate. */
    predicate Contradicted(who: bool, fps: nat)
      reads this, d0, d1
    {
      || (At(who).net.epoch == epoch && At(who).net.reserved != fps)
      || (!At(who).dying && !At(!who).dying && At(!who).net.epoch == epoch && At(!who).net.reserved != fps)
    }

    /** max9296_s_frame_interval(): a rate of the current mode, refused while it contradicts a live
        reservation of either instance. */
    method SFrameInterval(who: bool, numerator: nat, denominator: nat, maxFps: nat) returns (ret: Errno)
      requires Valid() && At(who).txn.Idle?
      modifies this, d0, d1
      ensures numerator == 0 || denominator == 0 || !(1 <= denominator / numerator <= build.max360)
              || denominator / numerator > maxFps
              ==> ret == EINVAL && View() == old(View()) && events == old(events) && Valid()
      ensures ret != EINVAL
              ==> Took(old(states), old(events), Event(who, OnPower(SetInterval(denominator / numerator))))
                  && (ret == ENODEV <==> old(At(who).dying))
                  && (ret == ESTALE <==> old(!At(who).dying && Contradicted(who, denominator / numerator)))
                  && ret in {Success, ENODEV, ESTALE}
      ensures ret != Success ==> View() == old(View())
      ensures ret == Success ==>
                && At(who).net == old(At(who).net).(fps := denominator / numerator)
                && (!At(!who).dying ==> At(!who).net == old(At(!who).net).(fps := denominator / numerator))
                && At(who).ask == if old(At(who).net.fps) == denominator / numerator then old(At(who).ask)
                                  else Outdated(old(At(who).ask))
    {
      hide ApplyOutput, ApplyRemove, ApplyRequest, ApplyPrepare, ApplyCold, ApplyLease, ApplyStream;
      if numerator == 0 || denominator == 0 {
        return EINVAL;
      }
      var fps := denominator / numerator;
      if fps < 1 || fps > build.max360 || fps > maxFps {
        return EINVAL;
      }
      var oldFps := At(who).net.fps;
      ret := ConfigureSharedFsync(who, fps, false);
      if ret == Success && oldFps != fps {
        At(who).MarkStale();
      }
      Record(who, OnPower(SetInterval(fps)));
    }

    /** A control or format write that touches the prepared state. */
    method WriteControl(who: bool, kind: Tuning)
      requires Valid() && At(who).txn.Idle?
      modifies this, d0, d1
      ensures Took(old(states), old(events), Event(who, OnPower(Tune(kind))))
      ensures At(who).ask == if kind == ReinitDone then old(At(who).ask) else Outdated(old(At(who).ask))
      ensures At(who).hw == old(At(who).hw).(reinit := if kind == RequireReinit then true
                                                       else if kind == ReinitDone then false
                                                       else old(At(who).hw.reinit))
      ensures At(who).own == old(At(who).own) && At(who).net == old(At(who).net) && At(who).run == old(At(who).run)
    {
      hide ApplyOutput, ApplyRemove, ApplyRequest, ApplyPrepare, ApplyCold, ApplyLease, ApplyStream;
      match kind {
        case Retune =>
          At(who).MarkStale();
        case RequireReinit =>
          At(who).hw := At(who).hw.(reinit := true);
          At(who).MarkStale();
        case ReinitDone =>
          At(who).hw := At(who).hw.(reinit := false);
      }
      Record(who, OnPower(Tune(kind)));
    }

    // ----- FSYNC and output -----

    predicate StreamEpochCurrent(d: Deserializer)
      reads this, d
    {
      d.run.streaming && d.hw.valid && d.hw.epoch == epoch && d.run.commit == epoch
    }

    /** max9296_fsync_pulse_current(): the pulse and the published state are one section under the board
        lock, and both exist only when every stream it serves is entitled to it. */
    method FsyncPulse(owner: bool, mine: bool, peers: bool) returns (pulse: bool)
      requires Valid() && (mine || peers)
      modifies this, d0, d1
      ensures pulse == old(OutputEnabled(Sight(owner), Pulse(mine, peers)))
      ensures pulse <==> old(!At(owner).dying && (mine ==> StreamEpochCurrent(At(owner)))
                             && (peers ==> !At(!owner).dying && StreamEpochCurrent(At(!owner))))
      ensures pulse ==> At(owner).run == old(At(owner).run).(fsync := mine || old(At(owner).run.fsync))
                        && At(!owner).run == old(At(!owner).run).(fsync := peers || old(At(!owner).run.fsync))
      ensures if pulse then Took(old(states), old(events), Event(owner, OnOutput(Pulse(mine, peers))))
              else Valid() && View() == old(View()) && events == old(events)
    {
      hide ApplyPower, ApplyRemove, ApplyRequest, ApplyPrepare, ApplyCold, ApplyLease, ApplyStream;
      var me, peer := At(owner), At(!owner);
      pulse := !me.dying && (mine ==> StreamEpochCurrent(me)) && (peers ==> !peer.dying && StreamEpochCurrent(peer));
      if pulse {
        if mine {
          me.run := me.run.(fsync := true);
        }
        if peers {
          peer.run := peer.run.(fsync := true);
        }
        Record(owner, OnOutput(Pulse(mine, peers)));
      }
    }

    /** max9296_enable_output_locked() */
    method EnableCsiOutput(who: bool) returns (enabled: bool)
      requires Valid() && At(who).txn.Idle?
      modifies this, d0, d1
      ensures enabled == old(OutputEnabled(Sight(who), EnableOutput))
      ensures enabled <==> old(!At(who).dying && StreamEpochCurrent(At(who)) && At(who).run.fsync)
      ensures enabled ==> At(who).run == old(At(who).run).(streamOn := false)
      ensures if enabled then Took(old(states), old(events), Event(who, OnOutput(EnableOutput)))
              else Valid() && View() == old(View()) && events == old(events)
    {
      hide ApplyPower, ApplyRemove, ApplyRequest, ApplyPrepare, ApplyCold, ApplyLease, ApplyStream;
      var me := At(who);
      enabled := !me.dying && StreamEpochCurrent(me) && me.run.fsync;
      if enabled {
        me.run := me.run.(streamOn := false);
        Record(who, OnOutput(EnableOutput));
      }
    }

    // ----- removal -----

    method BeginRemove(who: bool)
      requires Valid() && !At(who).dying
      modifies this, d0, d1
      ensures Took(old(states), old(events), Event(who, OnRemove(RemoveBegin)))
      ensures At(who).dying
      ensures At(who).View() == old(At(who).View()).(dying := true) && At(!who).View() == old(At(!who).View())
    {
      hide ApplyPower, ApplyOutput, ApplyRequest, ApplyPrepare, ApplyCold, ApplyLease, ApplyStream;
      At(who).dying := true;
      Record(who, OnRemove(RemoveBegin));
    }

    /** The accounting section of max9296_remove(): the one global user of this instance goes back
        exactly once, and the epoch moves when it was the last. */
    method ReconcileRemoved(who: bool)
      requires Valid() && RemoveEnabled(Sight(who), RemoveReconcile)
      modifies this, d0, d1
      ensures Took(old(states), old(events), Event(who, OnRemove(RemoveReconcile)))
      ensures !Accounted(At(who).View())
      ensures At(who).dying && At(!who).View() == old(At(!who).View())
    {
      hide IsRun, ApplyPower, ApplyOutput, ApplyRequest, ApplyPrepare, ApplyCold, ApplyLease, ApplyStream;
      hide SurvivorStopped;
      var me := At(who);
      var accounted := me.own.lease || me.own.count > 0;
      me.Forget();
      if accounted && users > 0 {
        users := users - 1;
        if users == 0 {
          epoch := epoch + 1;
        }
      }
      Record(who, OnRemove(RemoveReconcile));
    }

    /** The forced stop of a survivor whose FSYNC worker is gone. */
    method StopSurvivor(who: bool, ok: bool)
      requires Valid() && RemoveEnabled(Sight(who), SurvivorStop(ok))
      modifies this, d0, d1
      ensures Took(old(states), old(events), Event(who, OnRemove(SurvivorStop(ok))))
      ensures !At(who).run.streaming && !At(who).run.fsync && (At(who).txn.Idle? || At(who).txn.StopDrop?)
      ensures At(who).net == old(At(who).net) && At(who).own == old(At(who).own)
      ensures At(who).txn.StopDrop? <==> old(At(who).run.streaming && !At(who).own.reserved) && ok
    {
      hide ApplyPower, ApplyOutput, ApplyRequest, ApplyPrepare, ApplyCold, ApplyLease, ApplyStream;
      var me := At(who);
      var wasStreaming := me.run.streaming;
      me.run := me.run.(streaming := false, streamOn := false, commit := 0, fsync := false);
      if wasStreaming && ok && !me.own.reserved {
        me.request, me.txn := Held, StopDrop(true);
      }
      Record(who, OnRemove(SurvivorStop(ok)));
    }

    // ----- prepare: sections -----

    method OpenRequest(who: bool, request: Request)
      requires Valid() && At(who).request.Free?
      requires request.DrainingCancel? || (request.Draining? && request.gen > 0)
      modifies this, d0, d1
      ensures Took(old(states), old(events), Event(who, OnRequest(OpenOp(request))))
      ensures At(who).request == request && At(who).txn == old(At(who).txn)
      ensures Sight(who) == old(Sight(who)).(me := Requested(old(At(who).View()), request))
    {
      hide ApplyPower, ApplyOutput, ApplyRemove, ApplyPrepare, ApplyCold, ApplyLease, ApplyStream;
      var me := At(who);
      me.request := request;
      me.timer := me.timer.(pending := 0);
      Record(who, OnRequest(OpenOp(request)));
    }

    /** A lease that can be kept by a request that is turned away. */
    predicate Armable(who: bool)
      reads this, d0, d1
    {
      CanArm(At(who).View(), At(who).ask.gen) && At(who).timer.pending == 0 && !At(who).run.streaming
    }

    method AdmitRequest(who: bool, preflight: bool, session: Session) returns (admitted: bool)
      requires Valid() && RequestEnabled(At(who).View(), AdmitPrepare(preflight, session))
      modifies this, d0, d1
      ensures Took(old(states), old(events), Event(who, OnRequest(AdmitPrepare(preflight, session))))
      ensures admitted <==> old(At(who).Passes(build, epoch, preflight, session))
      ensures if admitted then At(who).txn.Admitted? else At(who).txn.Idle? || At(who).txn.EndingLease?
      ensures !admitted ==> At(who).own == old(At(who).own) && At(who).ask == old(At(who).ask)
                            && At(who).hw == old(At(who).hw) && At(who).run == old(At(who).run)
                            && At(who).net == old(At(who).net)
      ensures !admitted && old(Armable(who)) ==> At(who).txn.Idle? && TimeoutQueued(At(who).timer)
      ensures admitted ==>
                && At(who).txn.fp == old(At(who).request.fp) && At(who).txn.gen == old(At(who).request.gen)
                && At(who).own == old(At(who).own)
                && if old(At(who).hw.reinit) || session == SessionNeedsReinit
                   then !At(who).txn.hardwareCurrent && !At(who).hw.valid && At(who).hw.reinit
                   else At(who).hw == old(At(who).hw)
                        && (At(who).txn.hardwareCurrent <==> Fit(build, At(who).View(), epoch, At(who).txn.fp))
      ensures admitted ==> NoDebt(At(who).View()) && epoch == old(epoch)
                           && (At(who).txn.hardwareCurrent ==> Fit(build, At(who).View(), epoch, At(who).txn.fp))
      ensures Sight(who) == old(Sight(who)).(me := AdmittedDev(build, old(At(who).View()), epoch, preflight, session))
    {
      hide ApplyPower, ApplyOutput, ApplyRemove, ApplyPrepare, ApplyCold, ApplyLease, ApplyStream;
      admitted := At(who).Admit(build, epoch, preflight, session);
      Record(who, OnRequest(AdmitPrepare(preflight, session)));
    }

    /** A held lease: the bind that must agree, then warm reuse or a new initialization. */
    method RebindHeldLease(who: bool) returns (ready: bool)
      requires Valid() && PrepareEnabled(At(who).View(), RebindLease)
      modifies this, d0, d1
      ensures Took(old(states), old(events), Event(who, OnPrepare(RebindLease)))
      ensures At(who).txn.Idle? || At(who).txn.EndingLease? || At(who).txn.Cold?
      ensures ready <==>
                old(!At(who).dying && !RateConflict(Sight(who), At(who).txn.fp.fps) && At(who).txn.hardwareCurrent
                    && At(who).own.count == 0 && At(who).timer.pending == 0)
      ensures epoch == old(epoch)
      ensures At(who).txn.Cold? ==>
                At(who).timer == old(At(who).timer) && At(who).dying == old(At(who).dying)
                && At(who).own.count == old(At(who).own.count)
      ensures At(who).txn.Cold? <==>
                old(!At(who).dying && !RateConflict(Sight(who), At(who).txn.fp.fps) && !At(who).txn.hardwareCurrent)
      ensures At(who).txn.Cold? ==>
                && At(who).txn == Cold(ForPrepare(old(At(who).txn.gen)), old(At(who).txn.fp))
                && At(who).hw == old(At(who).hw)
                && Underway(At(who).View(), epoch, old(At(who).txn.fp), old(At(who).txn.gen))
      ensures ready ==>
                && At(who).txn.Idle? && TimeoutQueued(At(who).timer) && old(At(who).txn.hardwareCurrent)
                && At(who).hw == old(At(who).hw) && epoch == old(epoch)
                && At(who).ask == Ask(Ready, old(At(who).txn.gen), old(At(who).txn.gen), old(At(who).txn.fp))
                && Underway(At(who).View(), epoch, old(At(who).txn.fp), old(At(who).txn.gen))
    {
      hide IsRun, ApplyPower, ApplyOutput, ApplyRemove, ApplyRequest, ApplyCold, ApplyLease, ApplyStream;
      hide DoAcquirePower, DoPublishLease, DoReleaseUnpublished, Equal;
      hide Underway;
      ReboundLease(Sight(who));
      var me := At(who);
      var t, prior := me.txn, me.net;
      var ret := ConfigureSharedFsync(who, t.fp.fps, true);
      ready := false;
      if ret != Success {
        me.PreserveLease();
      } else {
        var reserved := me.own.reserved || me.net.epoch != prior.epoch || me.net.reserved != prior.reserved;
        me.RenewIdentity(reserved);
        if t.hardwareCurrent {
          ready := me.QueueLease(t.gen, ESTALE);
        }
      }
      Record(who, OnPrepare(RebindLease));
    }

    /** A leaked local reference becomes the lease's user; otherwise one is acquired. */
    method AcquireForPrepare(who: bool, ok: bool) returns (ret: Errno)
      requires Valid() && PrepareEnabled(At(who).View(), AcquirePower(ok))
      modifies this, d0, d1
      ensures Took(old(states), old(events), Event(who, OnPrepare(AcquirePower(ok))))
      ensures if ret == Success then At(who).txn == Acquired(old(At(who).txn.fp), old(At(who).txn.gen))
              else At(who).txn.Idle?
      ensures ret == if old(At(who).own.count == 0 && users == 0) && !ok then EIO else Success
      ensures At(who).own.lease == old(At(who).own.lease) && At(who).own.reserved == old(At(who).own.reserved)
      ensures At(who).hw == old(At(who).hw).(remapped := At(who).hw.remapped)
      ensures ret == Success ==>
                && epoch == old(LeaseEpoch(Sight(who))) && At(who).net == old(At(who).net)
                && At(!who).net == old(At(!who).net) && At(who).dying == old(At(who).dying)
                && At(!who).dying == old(At(!who).dying) && At(who).timer == old(At(who).timer)
                && At(who).own.count == 0
    {
      hide IsRun, ApplyPower, ApplyOutput, ApplyRemove, ApplyRequest, ApplyCold, ApplyLease, ApplyStream;
      hide DoRebindLease, DoPublishLease, DoReleaseUnpublished;
      AcquiredBoard(Sight(who), ok);
      hide Protocol.SetPower;
      var me := At(who);
      var t := me.txn;
      if me.own.count > 0 {
        me.own := me.own.(count := 0);
        ret := Success;
      } else {
        ret := SetPower(who, true, ok);
      }
      if ret == Success {
        me.txn := Acquired(t.fp, t.gen);
      } else {
        me.Leave();
      }
      Record(who, OnPrepare(AcquirePower(ok)));
    }

    method PublishFreshLease(who: bool)
      requires Valid() && PrepareEnabled(At(who).View(), PublishLease) && NoDebt(At(who).View())
      modifies this, d0, d1
      ensures Took(old(states), old(events), Event(who, OnPrepare(PublishLease)))
      ensures At(who).txn.Unpublished? <==> old(At(who).dying || RateConflict(Sight(who), At(who).txn.fp.fps))
      ensures At(who).txn.Arming? ==> old(Fit(build, At(who).View(), epoch, At(who).txn.fp))
      ensures At(who).txn.Cold? ==> !old(Fit(build, At(who).View(), epoch, At(who).txn.fp))
      ensures if At(who).txn.Unpublished? then At(who).own == old(At(who).own)
              else if At(who).txn.Arming? then
                && At(who).txn == Arming(old(At(who).txn.gen))
                && ReadyFor(build, At(who).View(), epoch, old(At(who).txn.fp), old(At(who).txn.gen))
              else
                && At(who).txn == Cold(ForPrepare(old(At(who).txn.gen)), old(At(who).txn.fp))
                && Underway(At(who).View(), epoch, old(At(who).txn.fp), old(At(who).txn.gen))
      ensures At(who).timer == old(At(who).timer) && At(who).dying == old(At(who).dying) && epoch == old(epoch)
              && At(who).own.count == old(At(who).own.count) && At(who).hw == old(At(who).hw)
    {
      hide IsRun, ApplyPower, ApplyOutput, ApplyRemove, ApplyRequest, ApplyCold, ApplyLease, ApplyStream;
      hide DoRebindLease, DoAcquirePower, DoReleaseUnpublished, Equal;
      hide ReadyFor, Underway, Fit, NoDebt;
      PublishedLease(build, Sight(who));
      var me := At(who);
      var t, prior := me.txn, me.net;
      var ret := ConfigureSharedFsync(who, t.fp.fps, true);
      if ret != Success {
        me.txn := Unpublished(ret);
      } else {
        me.PublishLease(build, epoch, me.net.epoch != prior.epoch || me.net.reserved != prior.reserved);
      }
      Record(who, OnPrepare(PublishLease));
    }

    method ReleaseUnpublishedPower(who: bool, ok: bool)
      requires Valid() && PrepareEnabled(At(who).View(), ReleaseUnpublished(ok))
      modifies this, d0, d1
      ensures Took(old(states), old(events), Event(who, OnPrepare(ReleaseUnpublished(ok))))
      ensures At(who).txn.Idle? && At(who).own == old(At(who).own)
    {
      hide ApplyPower, ApplyOutput, ApplyRemove, ApplyRequest, ApplyCold, ApplyLease, ApplyStream;
      var _ := SetPower(who, false, ok);
      At(who).Leave();
      Record(who, OnPrepare(ReleaseUnpublished(ok)));
    }

    // ----- cold initialization: sections -----

    /** The first half of max9296_prepare_hardware_locked(): refuse without a write, or stamp the epoch
        and start the mode-table walk. */
    method BeginCold(who: bool, refused: bool) returns (started: bool)
      requires Valid() && ColdEnabled(At(who).View(), ColdBegin(refused))
      modifies this, d0, d1
      ensures Took(old(states), old(events), Event(who, OnCold(ColdBegin(refused))))
      ensures started <==> At(who).txn.Loading?
      ensures started <==> !refused && old(At(who).hw.cold) != old(epoch)
      ensures started ==> At(who).txn == Loading(old(At(who).txn.caller), old(At(who).txn.fp))
      ensures At(who).own == old(At(who).own) && At(who).net == old(At(who).net) && At(who).ask == old(At(who).ask)
      ensures epoch == old(epoch)
      ensures !started ==>
                FailedFor(old(At(who).txn.caller), At(who).txn) && At(who).txn.ret == if refused then EINVAL else ESTALE
      ensures At(who).hw.reinit == old(At(who).hw.reinit) && !At(who).hw.valid && At(who).run.commit == 0
      ensures At(who).View() == ColdBegun(old(At(who).View()), old(epoch), refused)
    {
      hide IsRun, ApplyPower, ApplyOutput, ApplyRemove, ApplyRequest, ApplyPrepare, ApplyLease, ApplyStream;
      hide ColdEnded;
      var me := At(who);
      var t := me.txn;
      started := false;
      if refused {
        me.FailCold(t.caller, EINVAL);
      } else if me.hw.cold == epoch {
        me.FailCold(t.caller, ESTALE);
      } else {
        me.hw := me.hw.(valid := false, epoch := 0, cold := epoch, boot := Boot(epoch, t.fp, NoStage, false),
                        remapped := true);
        me.run := me.run.(commit := 0);
        me.txn := Loading(t.caller, t.fp);
        started := true;
      }
      Record(who, OnCold(ColdBegin(refused)));
    }

    method EndCold(who: bool, outcome: Outcome)
      requires Valid() && ColdEnabled(At(who).View(), ColdEnd(outcome))
      modifies this, d0, d1
      ensures Took(old(states), old(events), Event(who, OnCold(ColdEnd(outcome))))
      ensures At(who).View() == ColdEnded(old(At(who).View()), epoch, outcome)
      ensures if outcome == Completed then LoadedFor(old(At(who).txn.caller), At(who).txn)
              else FailedFor(old(At(who).txn.caller), At(who).txn) && At(who).txn.ret == EIO
                   && !At(who).hw.valid && At(who).hw.reinit == old(At(who).hw.reinit)
      ensures At(who).own == old(At(who).own) && At(who).net == old(At(who).net) && epoch == old(epoch)
      ensures outcome == Completed ==>
                && At(who).hw.valid && At(who).hw.fp == old(At(who).txn.fp) && At(who).hw.epoch == epoch
                && !At(who).hw.reinit
                && match old(At(who).txn.caller)
                   case ForPrepare(gen) =>
                     At(who).txn == Arming(gen) && At(who).ask == old(At(who).ask).(state := Ready, leaseGen := gen)
                   case ForStream(bindReserved) =>
                     At(who).txn == Replay(old(At(who).txn.fp), bindReserved) && At(who).ask == old(At(who).ask)
      ensures At(who).timer == old(At(who).timer) && At(who).dying == old(At(who).dying)
    {
      hide IsRun, ApplyPower, ApplyOutput, ApplyRemove, ApplyRequest, ApplyPrepare, ApplyLease, ApplyStream;
      hide ColdBegun;
      At(who).FinishCold(epoch, outcome);
      Record(who, OnCold(ColdEnd(outcome)));
    }

    // ----- the end of a lease: sections -----

    method ArmHeldLease(who: bool) returns (armed: bool)
      requires Valid() && LeaseEnabled(At(who).View(), ArmLease)
      modifies this, d0, d1
      ensures Took(old(states), old(events), Event(who, OnLease(ArmLease)))
      ensures At(who).txn.Idle? || At(who).txn.EndingLease?
      ensures armed <==> old(CanArm(At(who).View(), At(who).txn.gen) && At(who).timer.pending == 0)
      ensures armed ==> At(who).txn.Idle? && TimeoutQueued(At(who).timer)
      ensures !armed && old(At(who).own.lease) ==> At(who).txn.EndingLease? && At(who).txn.why == Unarmed
      ensures var d, d' := old(At(who).View()), At(who).View();
              d' == d.(timer := d'.timer, txn := d'.txn, request := d'.request) && epoch == old(epoch)
    {
      hide ApplyPower, ApplyOutput, ApplyRemove, ApplyRequest, ApplyPrepare, ApplyCold, ApplyStream;
      var me := At(who);
      armed := me.QueueLease(me.txn.gen, if me.dying then ENODEV else EBUSY);
      Record(who, OnLease(ArmLease));
    }

    method DropLeaseReservation(who: bool)
      requires Valid() && LeaseEnabled(At(who).View(), DropForRelease)
      modifies this, d0, d1
      ensures Took(old(states), old(events), Event(who, OnLease(DropForRelease)))
      ensures At(who).txn == Relinquish(old(At(who).txn.why), old(At(who).txn.ret))
      ensures At(who).net ==
              if old(At(who).own.reserved && (At(who).txn.why == TimedOut ==> !At(who).run.streaming))
              then Cadence(0, 0, old(At(who).net.fps)) else old(At(who).net)
      ensures At(who).own == old(At(who).own) && At(who).ask == old(At(who).ask)
    {
      hide ApplyPower, ApplyOutput, ApplyRemove, ApplyRequest, ApplyPrepare, ApplyCold, ApplyStream;
      var me := At(who);
      var t := me.txn;
      if me.own.reserved && (t.why == TimedOut ==> !me.run.streaming) {
        me.DropContract();
      }
      me.txn := Relinquish(t.why, t.ret);
      Record(who, OnLease(DropForRelease));
    }

    method RelinquishLease(who: bool, ok: bool) returns (ret: Errno)
      requires Valid() && LeaseEnabled(At(who).View(), RelinquishPower(ok))
      modifies this, d0, d1
      ensures Took(old(states), old(events), Event(who, OnLease(RelinquishPower(ok))))
      ensures At(who).txn.Idle? && !At(who).own.lease && !At(who).own.reserved
      ensures ret == if old(users) == 1 && !ok then EIO else Success
      ensures At(who).net == old(At(who).net) && At(who).ask == EndedAsk(old(At(who).ask), old(At(who).txn.why))
    {
      hide IsRun, ApplyPower, ApplyOutput, ApplyRemove, ApplyRequest, ApplyPrepare, ApplyCold, ApplyStream;
      hide Armed, DroppedForRelease;
      var me := At(who);
      var why := me.txn.why;
      me.CloseLease(why);
      ret := SetPower(who, false, ok);
      me.LeaveLease(why);
      Record(who, OnLease(RelinquishPower(ok)));
    }

    method AdmitCancellation(who: bool) returns (ending: bool, ret: Errno)
      requires Valid() && RequestEnabled(At(who).View(), AdmitCancel)
      modifies this, d0, d1
      ensures Took(old(states), old(events), Event(who, OnRequest(AdmitCancel)))
      ensures if ending then At(who).txn == EndingLease(Cancelled, Success) else At(who).txn.Idle?
      ensures At(who).own == old(At(who).own) && At(who).run == old(At(who).run) && At(who).dying == old(At(who).dying)
      ensures ret != Success ==> At(who).ask == old(At(who).ask)
      ensures ret == if old(At(who).dying) then ENODEV
                     else if old(At(who).ask.state == Preparing || At(who).run.streaming || At(who).own.count > 0) then EBUSY
                     else Success
      ensures ending <==> ret == Success && old(At(who).own.lease)
      ensures ret == Success && !ending ==> At(who).ask == old(At(who).ask).(state := PrepIdle)
      ensures ending ==> At(who).ask == old(At(who).ask)
      ensures At(who).net == old(At(who).net)
    {
      hide IsRun, ApplyPower, ApplyOutput, ApplyRemove, ApplyPrepare, ApplyCold, ApplyLease, ApplyStream;
      var me := At(who);
      ending, ret := false, Success;
      if me.dying {
        me.request, ret := Free, ENODEV;
      } else if me.ask.state == Preparing || me.run.streaming || me.own.count > 0 {
        me.request, ret := Free, EBUSY;
      } else if me.own.lease {
        me.request, me.txn := Held, EndingLease(Cancelled, Success);
        ending := true;
      } else {
        me.request := Free;
        me.ask := me.ask.(state := PrepIdle);
      }
      Record(who, OnRequest(AdmitCancel));
    }

    /** The lease timeout callback once it has the instance lock. */
    method RunTimeout(who: bool) returns (ending: bool)
      requires Valid() && RequestEnabled(At(who).View(), TimerRun)
      modifies this, d0, d1
      ensures Took(old(states), old(events), Event(who, OnRequest(TimerRun)))
      ensures if ending then At(who).txn == EndingLease(TimedOut, Success) else At(who).txn.Idle?
      ensures ending <==>
                old(!At(who).dying && At(who).own.lease && At(who).own.count == 0
                    && (At(who).ask.state == Ready || At(who).ask.state == Stale)
                    && At(who).ask.gen == At(who).ask.leaseGen)
      ensures At(who).own == old(At(who).own) && At(who).net == old(At(who).net) && At(who).ask == old(At(who).ask)
      ensures At(who).run == old(At(who).run)
    {
      hide ApplyPower, ApplyOutput, ApplyRemove, ApplyPrepare, ApplyCold, ApplyLease, ApplyStream;
      var me := At(who);
      ending := CanArm(me.View(), me.ask.leaseGen);
      if ending {
        me.txn := EndingLease(TimedOut, Success);
      } else {
        me.timer := me.timer.(firing := 0);
      }
      Record(who, OnRequest(TimerRun));
    }

    // ----- stream: sections -----

    method BindStream(who: bool, fp: Fingerprint) returns (ret: Errno)
      requires Valid() && StreamEnabled(At(who).View(), StreamBind(fp))
      requires !At(who).dying && At(who).ask.state != Preparing
      modifies this, d0, d1
      ensures Took(old(states), old(events), Event(who, OnStream(StreamBind(fp))))
      ensures ret == if old(RateConflict(Sight(who), fp.fps)) then ESTALE else Success
      ensures if ret == Success
              then At(who).txn.Check? && At(who).txn.fp == fp && Reserves(At(who).View(), epoch)
                   && At(who).net.reserved == At(who).net.fps == fp.fps
              else View() == old(View())
      ensures At(who).own == old(At(who).own) && At(who).hw == old(At(who).hw) && epoch == old(epoch)
    {
      hide ApplyPower, ApplyOutput, ApplyRemove, ApplyRequest, ApplyPrepare, ApplyCold, ApplyLease;
      var me := At(who);
      var prior := me.net;
      ret := ConfigureSharedFsync(who, fp.fps, true);
      if ret == Success {
        me.request := Held;
        me.txn := Check(fp, me.net.epoch != prior.epoch || me.net.reserved != prior.reserved);
      }
      Record(who, OnStream(StreamBind(fp)));
    }

    method CheckStream(who: bool)
      requires Valid() && StreamEnabled(At(who).View(), StreamCheck)
      modifies this, d0, d1
      ensures Took(old(states), old(events), Event(who, OnStream(StreamCheck)))
      ensures var d, t := old(At(who).View()), At(who).txn;
              && (t.Abort? || t.Replay? || (t.Cold? && t.caller.ForStream?))
              && (t.Abort? <==> d.hw.valid && d.hw.epoch == epoch && !Equal(build, d.hw.fp, d.txn.fp))
              && (t.Replay? <==> Fit(build, d, epoch, d.txn.fp))
              && (t.Abort? ==> t.ret == ESTALE)
              && (!t.Abort? ==> t.fp == d.txn.fp)
              && (t.Replay? ==> At(who).hw == d.hw)
              && (t.Cold? ==> At(who).hw.cold == d.hw.cold)
      ensures At(who).own == old(At(who).own) && At(who).net == old(At(who).net) && epoch == old(epoch)
      ensures At(who).txn.Replay? ==> Fit(build, At(who).View(), epoch, At(who).txn.fp)
    {
      hide IsRun, ApplyPower, ApplyOutput, ApplyRemove, ApplyRequest, ApplyPrepare, ApplyCold, ApplyLease;
      var me := At(who);
      var t := me.txn;
      if me.hw.valid && me.hw.epoch == epoch && !Equal(build, me.hw.fp, t.fp) {
        me.txn := Abort(t.bindReserved, ESTALE);
      } else {
        if me.hw.reinit {
          me.InvalidateExposureHardware();
        }
        if !me.hw.valid || me.hw.epoch != epoch {
          me.txn := Cold(ForStream(t.bindReserved), t.fp);
        } else {
          me.txn := Replay(t.fp, t.bindReserved);
        }
      }
      Record(who, OnStream(StreamCheck));
    }

    method ReplayControls(who: bool, ok: bool)
      requires Valid() && StreamEnabled(At(who).View(), StreamReplay(ok))
      modifies this, d0, d1
      ensures Took(old(states), old(events), Event(who, OnStream(StreamReplay(ok))))
      ensures if ok then At(who).txn.Commit? && At(who).txn.fp == old(At(who).txn.fp)
              else At(who).txn.Abort? && At(who).txn.ret == EIO
      ensures At(who).own == old(At(who).own) && At(who).hw == old(At(who).hw) && epoch == old(epoch)
    {
      hide ApplyPower, ApplyOutput, ApplyRemove, ApplyRequest, ApplyPrepare, ApplyCold, ApplyLease;
      var me := At(who);
      var t := me.txn;
      me.txn := if ok then Commit(t.fp, t.bindReserved) else Abort(t.bindReserved, EIO);
      Record(who, OnStream(StreamReplay(ok)));
    }

    method CommitStream(who: bool)
      requires Valid() && StreamEnabled(At(who).View(), StreamCommit)
      modifies this, d0, d1
      ensures Took(old(states), old(events), Event(who, OnStream(StreamCommit)))
      ensures if old(At(who).dying) then At(who).txn.Abort? && At(who).txn.ret == ENODEV
              else At(who).txn.Idle? && At(who).run.streaming && At(who).run.commit == epoch
      ensures At(who).hw == old(At(who).hw) && At(who).dying == old(At(who).dying) && epoch == old(epoch)
      ensures !old(At(who).dying) ==> At(who).run == Stream(true, true, epoch, old(At(who).run.fsync))
    {
      hide ApplyPower, ApplyOutput, ApplyRemove, ApplyRequest, ApplyPrepare, ApplyCold, ApplyLease;
      var me := At(who);
      if me.dying {
        me.txn := Abort(me.txn.bindReserved, ENODEV);
      } else {
        me.run := me.run.(commit := epoch, streamOn := true, streaming := true);
        me.Leave();
      }
      Record(who, OnStream(StreamCommit));
    }

    /** max9296_drop_fsync_contract_if_idle_locked(), for the bind of this start only. */
    method AbortStream(who: bool) returns (ret: Errno)
      requires Valid() && StreamEnabled(At(who).View(), StreamAbort)
      modifies this, d0, d1
      ensures Took(old(states), old(events), Event(who, OnStream(StreamAbort)))
      ensures At(who).txn.Idle? && ret == old(At(who).txn.ret) && At(who).dying == old(At(who).dying)
    {
      hide ApplyPower, ApplyOutput, ApplyRemove, ApplyRequest, ApplyPrepare, ApplyCold, ApplyLease;
      var me := At(who);
      ret := me.txn.ret;
      if me.txn.bindReserved && !me.run.streaming {
        me.DropContract();
      }
      me.Leave();
      Record(who, OnStream(StreamAbort));
    }

    method StopStream(who: bool, ok: bool)
      requires Valid() && StreamEnabled(At(who).View(), StreamOff(ok))
      modifies this, d0, d1
      ensures Took(old(states), old(events), Event(who, OnStream(StreamOff(ok))))
      ensures if old(At(who).dying || At(who).ask.state == Preparing) then View() == old(View())
              else At(who).run == STOPPED && At(who).net == old(At(who).net)
                   && At(who).txn == if old(At(who).run.streaming) && ok then StopDrop(false) else Idle
    {
      hide ApplyPower, ApplyOutput, ApplyRemove, ApplyRequest, ApplyPrepare, ApplyCold, ApplyLease;
      var me := At(who);
      if !me.dying && me.ask.state != Preparing {
        var wasStreaming := me.run.streaming;
        me.run := me.run.(streaming := false, streamOn := false, commit := 0, fsync := false);
        if wasStreaming && ok {
          me.txn := StopDrop(false);
        }
      }
      Record(who, OnStream(StreamOff(ok)));
    }

    method DropStoppedReservation(who: bool)
      requires Valid() && StreamEnabled(At(who).View(), DropStopped)
      modifies this, d0, d1
      ensures Took(old(states), old(events), Event(who, OnStream(DropStopped)))
      ensures At(who).txn.Idle? && At(who).net.epoch == 0 && At(who).run == old(At(who).run)
    {
      hide ApplyPower, ApplyOutput, ApplyRemove, ApplyRequest, ApplyPrepare, ApplyCold, ApplyLease;
      var me := At(who);
      var holdsRequest := me.txn.holdsRequest;
      me.DropContract();
      if holdsRequest {
        me.Leave();
      } else {
        me.txn := Idle;
      }
      Record(who, OnStream(DropStopped));
    }

    // ----- whole calls -----

    /** The history has only grown. */
    twostate predicate Grown()
      reads this, d0, d1
    {
      Valid() && old(states) <= states && old(events) <= events
    }

    /** One section of another thread. */
    method Environment(e: Event)
      requires Valid() && CanStep(View(), e)
      modifies this, d0, d1
      ensures Took(old(states), old(events), e) && View() == Step(build, old(View()), e)
    {
      hide CanStep, Step;
      var b := Step(build, View(), e);
      users, epoch := b.users, b.epoch;
      d0.Store(b.me);
      d1.Store(b.peer);
      states, events := states + [b], events + [e];
    }

    /** Other threads run while a call of `who` is between two of its sections. */
    method Others(who: bool, schedule: seq<Event>, draining: bool)
      requires Valid()
      modifies this, d0, d1
      ensures Grown()
      ensures forall m :: |old(events)| <= m < |events| ==> Foreign(events[m], who, draining)
      ensures !draining && !old(At(who).txn.Idle?) ==>
                Undisturbed(old(At(who).View()), At(who).View()) && At(who).txn == old(At(who).txn)
                && forall m :: |old(states)| <= m < |states| ==> DevOf(states[m], who).txn == old(At(who).txn)
      ensures !draining && !old(At(who).txn.Idle?) && Accounted(old(At(who).View())) ==> epoch == old(epoch)
      ensures draining && Drains(old(At(who).request)) ==> At(who).request == old(At(who).request)
      ensures schedule == [] ==> View() == old(View()) && events == old(events)
    {
      hide Apply, Enabled, Step, Undisturbed, Foreign, PowerInv, RequestInv, Accounted;
      SelfUndisturbed(At(who).View());
      for i := 0 to |schedule|
        invariant Grown() && (i == 0 ==> View() == old(View()) && events == old(events))
        invariant forall m :: |old(events)| <= m < |events| ==> Foreign(events[m], who, draining)
        invariant !draining && !old(At(who).txn.Idle?) ==>
                    Undisturbed(old(At(who).View()), At(who).View()) && At(who).txn == old(At(who).txn)
                    && forall m :: |old(states)| <= m < |states| ==> DevOf(states[m], who).txn == old(At(who).txn)
        invariant !draining && !old(At(who).txn.Idle?) && Accounted(old(At(who).View())) ==>
                    epoch == old(epoch) && Accounted(At(who).View())
        invariant draining && Drains(old(At(who).request)) ==> At(who).request == old(At(who).request)
      {
        var e := schedule[i];
        if CanStep(View(), e) && Foreign(e, who, draining) {
          ghost var b := View();
          PowerAlways(build, states, events, |events|);
          RequestAlways(build, states, events, |events|);
          ForeignStep(build, b, e, who, draining, old(At(who).View()));
          Environment(e);
        }
      }
    }

    /** Every state since then has the stream start of `who` under way. */
    ghost predicate Starting(who: bool, from: nat)
      reads this
    {
      forall m :: from <= m < |states| ==> InStart(DevOf(states[m], who).txn)
    }

    /** Other threads run while a call of `who` holds its lease. */
    method OthersMeanwhile(who: bool, schedule: seq<Event>, ghost fp: Fingerprint, ghost gen: nat)
      requires Valid() && !At(who).txn.Idle? && At(who).own.lease
      modifies this, d0, d1
      ensures Grown() && At(who).txn == old(At(who).txn) && At(who).own == old(At(who).own) && epoch == old(epoch)
      ensures Underway(old(At(who).View()), epoch, fp, gen) ==> Underway(At(who).View(), epoch, fp, gen)
      ensures ReadyFor(build, old(At(who).View()), epoch, fp, gen) ==> ReadyFor(build, At(who).View(), epoch, fp, gen)
      ensures Fit(build, old(At(who).View()), epoch, fp) ==> Fit(build, At(who).View(), epoch, fp)
      ensures At(who).ask == old(At(who).ask) && SameReservation(old(At(who).net), At(who).net)
      ensures schedule == [] ==> View() == old(View())
    {
      hide Apply, Enabled, CanStep, Step, IsRun, Undisturbed, ReadyFor, Underway, Fit;
      Others(who, schedule, false);
      UndisturbedKeeps(build, old(At(who).View()), At(who).View(), epoch, fp, gen);
    }

    /** max9296_prepare_hardware_locked().  It succeeds exactly when it is not refused, no attempt was made in this
        epoch and the attempt completes; then the hardware is valid in this epoch under the requested fingerprint. */
    method PrepareHardware(who: bool, w: Weather)
      requires Valid() && At(who).txn.Cold?
      modifies this, d0, d1
      ensures Grown() && (old(At(who).txn.caller.ForStream?) ==> Starting(who, |old(states)|))
      ensures if old(ColdVerdict(At(who).View(), epoch, w)) == Success
              then LoadedFor(old(At(who).txn.caller), At(who).txn)
                   && At(who).hw.valid && !At(who).hw.reinit && At(who).hw.epoch == epoch
                   && At(who).hw.fp == old(At(who).txn.fp)
                   && (At(who).txn.Replay? ==> At(who).txn.fp == old(At(who).txn.fp))
              else FailedFor(old(At(who).txn.caller), At(who).txn)
                   && At(who).txn.ret == old(ColdVerdict(At(who).View(), epoch, w))
                   && !At(who).hw.valid && At(who).hw.reinit == old(At(who).hw.reinit)
      ensures At(who).own == old(At(who).own) && SameReservation(old(At(who).net), At(who).net)
      ensures Accounted(old(At(who).View())) ==> epoch == old(epoch)
      ensures forall gen :: old(At(who).txn.caller) == ForPrepare(gen) && At(who).txn.Arming?
                            && Underway(old(At(who).View()), old(epoch), old(At(who).txn.fp), gen)
                            ==> At(who).txn == Arming(gen)
                                && ReadyFor(build, At(who).View(), epoch, old(At(who).txn.fp), gen)
      ensures Quiet(w) ==> At(who).timer == old(At(who).timer) && At(who).dying == old(At(who).dying)
    {
      hide Apply, Enabled, CanStep, Step, IsRun, Undisturbed, ReadyFor, ColdEnded;
      var started := BeginCold(who, w.refused);
      if started {
        LoadHardware(who, w);
      }
    }

    /** The mode-table walk of an initialization to its end. */
    method LoadHardware(who: bool, w: Weather)
      requires Valid() && At(who).txn.Loading?
      modifies this, d0, d1
      ensures Grown() && (old(At(who).txn.caller.ForStream?) ==> Starting(who, |old(states)|))
      ensures if w.outcome == Completed
              then LoadedFor(old(At(who).txn.caller), At(who).txn)
                   && At(who).hw.valid && !At(who).hw.reinit && At(who).hw.epoch == epoch
                   && At(who).hw.fp == old(At(who).txn.fp)
                   && (At(who).txn.Replay? ==> At(who).txn.fp == old(At(who).txn.fp))
              else FailedFor(old(At(who).txn.caller), At(who).txn) && At(who).txn.ret == EIO
                   && !At(who).hw.valid && At(who).hw.reinit == old(At(who).hw.reinit)
      ensures At(who).own == old(At(who).own) && SameReservation(old(At(who).net), At(who).net)
      ensures Accounted(old(At(who).View())) ==> epoch == old(epoch)
      ensures forall gen :: old(At(who).txn.caller) == ForPrepare(gen) && At(who).txn.Arming?
                            && Underway(old(At(who).View()), old(epoch), old(At(who).txn.fp), gen)
                            ==> At(who).txn == Arming(gen)
                                && ReadyFor(build, At(who).View(), epoch, old(At(who).txn.fp), gen)
      ensures Quiet(w) ==> At(who).timer == old(At(who).timer) && At(who).dying == old(At(who).dying)
    {
      hide Apply, Enabled, CanStep, Step, IsRun, Undisturbed, ReadyFor, ColdEnded;
      ghost var loading := At(who).View();
      Others(who, w.gap(0), false);
      ghost var gen := if At(who).txn.caller.ForPrepare? then At(who).txn.caller.gen else 0;
      UndisturbedKeeps(build, loading, At(who).View(), epoch, loading.txn.fp, gen);
      if At(who).txn.caller.ForPrepare? && Underway(At(who).View(), epoch, loading.txn.fp, gen) {
        CompletedIsReady(build, At(who).View(), epoch, gen);
      }
      EndCold(who, w.outcome);
    }

    /** The locks and states that admit a STREAMON. */
    predicate AdmitsStart(who: bool)
      reads this, d0, d1
    {
      !At(who).dying && At(who).ask.state != Preparing && At(who).request.Free? && At(who).txn.Idle?
    }

    /** What turns a STREAMON away before it has any effect, in the order of its tests; Success when nothing does. */
    function StartRefusal(who: bool, w: Weather): Errno
      reads this, d0, d1
    {
      if At(who).dying then ENODEV
      else if At(who).ask.state == Preparing then EBUSY
      else if w.worker != Success then w.worker
      else if !At(who).request.Free? || !At(who).txn.Idle? then EBUSY
      else if !w.preflight then EINVAL
      else Success
    }

    /** A bound start until its hardware is programmed or proven current, or the start has failed. */
    method ProgramStart(who: bool, w: Weather)
      requires Valid() && At(who).txn.Check?
      modifies this, d0, d1
      ensures Grown() && |old(events)| < |events| && Starting(who, |old(states)|)
      ensures At(who).txn.Replay? || (At(who).txn.Abort? && At(who).txn.ret != Success)
      ensures At(who).own == old(At(who).own)
      ensures old(At(who).own.count) > 0 ==>
                && epoch == old(epoch)
                && (At(who).txn.Replay? ==>
                      At(who).txn.fp == old(At(who).txn.fp) && Fit(build, At(who).View(), epoch, At(who).txn.fp))
                && old(HardwareVerdict(build, At(who).View(), epoch, At(who).txn.fp, w))
                   == if At(who).txn.Replay? then Success else At(who).txn.ret
    {
      hide Apply, Enabled, CanStep, Step, IsRun, Undisturbed, Equal, Fit, HardwareVerdict, ColdVerdict;
      ghost var before := At(who).View();
      VerdictCases(build, before, epoch, before.txn.fp, w);
      CheckStream(who);
      if At(who).txn.Cold? {
        ghost var checked := At(who).View();
        Others(who, w.gap(2), false);
        UndisturbedKeeps(build, checked, At(who).View(), epoch, At(who).txn.fp, 0);
        ColdVerdictLooks(before, At(who).View(), epoch, w);
        ProgramCold(who, w);
      }
    }

    /** The cold initialization of a start. */
    method ProgramCold(who: bool, w: Weather)
      requires Valid() && At(who).txn.Cold? && At(who).txn.caller.ForStream?
      modifies this, d0, d1
      ensures Grown() && Starting(who, |old(states)|)
      ensures At(who).own == old(At(who).own) && (Accounted(old(At(who).View())) ==> epoch == old(epoch))
      ensures if old(ColdVerdict(At(who).View(), epoch, w)) == Success
              then At(who).txn.Replay? && At(who).txn.fp == old(At(who).txn.fp)
                   && Fit(build, At(who).View(), epoch, At(who).txn.fp)
              else At(who).txn.Abort? && At(who).txn.ret == old(ColdVerdict(At(who).View(), epoch, w)) != Success
    {
      hide Apply, Enabled, CanStep, Step, IsRun, Undisturbed, ColdVerdict;
      PrepareHardware(who, w);
    }

    /** The control replay and the final admission of a start. */
    method FinishStart(who: bool, w: Weather) returns (committed: bool)
      requires Valid() && At(who).txn.Replay?
      modifies this, d0, d1
      ensures Grown() && |old(events)| < |events|
      ensures committed ==>
                events[|events| - 1] == Event(who, OnStream(StreamCommit))
                && At(who).txn.Idle? && At(who).run.streaming && At(who).run.commit == epoch
      ensures !committed ==> At(who).txn.Abort? && At(who).txn.ret != Success && Starting(who, |old(states)|)
      ensures committed ==> w.replay
      ensures !committed ==> At(who).txn.ret == if w.replay then ENODEV else EIO
      ensures !committed && w.replay ==> At(who).dying
      ensures committed && old(At(who).own.count) > 0 && old(Fit(build, At(who).View(), epoch, At(who).txn.fp)) ==>
                Fit(build, At(who).View(), epoch, old(At(who).txn.fp))
    {
      hide Apply, Enabled, CanStep, Step, IsRun, Undisturbed;
      ReplayControls(who, w.replay);
      if At(who).txn.Abort? {
        return false;
      }
      ghost var replayed := At(who).View();
      Others(who, w.gap(3), false);
      UndisturbedKeeps(build, replayed, At(who).View(), epoch, At(who).txn.fp, 0);
      CommitStream(who);
      committed := At(who).txn.Idle?;
    }

    /** A bound start up to its commit or its abort. */
    method RunStart(who: bool, w: Weather) returns (committed: bool)
      requires Valid() && At(who).txn.Check?
      modifies this, d0, d1
      ensures Grown() && |old(events)| < |events|
      ensures committed ==>
                events[|events| - 1] == Event(who, OnStream(StreamCommit))
                && At(who).txn.Idle? && At(who).run.streaming && At(who).run.commit == epoch
      ensures !committed ==> At(who).txn.Abort? && At(who).txn.ret != Success && Starting(who, |old(states)|)
      ensures old(At(who).own.count) > 0 ==>
                EndsAs(who, old(StartVerdict(build, At(who).View(), epoch, At(who).txn.fp, w)),
                       if committed then Success else At(who).txn.ret)
      ensures committed && old(At(who).own.count) > 0 ==> Fit(build, At(who).View(), epoch, old(At(who).txn.fp))
    {
      hide Apply, Enabled, CanStep, Step, IsRun, Undisturbed, InStart, Fit, HardwareVerdict;
      ProgramStart(who, w);
      committed := false;
      if At(who).txn.Replay? {
        committed := FinishStart(who, w);
      }
    }

    /** A start ends as it has to; only a removal may overtake one that would have succeeded. */
    predicate EndsAs(who: bool, verdict: Errno, ret: Errno)
      reads this, d0, d1
    {
      ret == verdict || (verdict == Success && ret == ENODEV && At(who).dying)
    }

    /** The failed end of a start that began at event `j`. */
    method FailStart(who: bool, w: Weather, ghost j: nat) returns (ret: Errno)
      requires Valid() && At(who).txn.Abort? && At(who).txn.ret != Success
      requires j < |events| && events[j].who == who && events[j].op.OnStream? && events[j].op.stream.StreamBind?
      requires Starting(who, j + 1)
      modifies this, d0, d1
      ensures Grown() && ret == old(At(who).txn.ret) && (old(At(who).dying) ==> At(who).dying)
      ensures Grown() && ret != Success && At(who).txn.Idle?
      ensures !DevOf(states[j], who).run.streaming && StartsPowered(states, events) ==>
                ReservationOf(View(), who) == ReservationOf(states[j], who)
    {
      hide Apply, Enabled, CanStep, Step, Undisturbed, Reserves, InStart;
      ghost var aborting := At(who).View();
      Others(who, w.gap(4), false);
      UndisturbedKeeps(build, aborting, At(who).View(), epoch, NO_FINGERPRINT, 0);
      ghost var k := |events|;
      ret := AbortStream(who);
      if !DevOf(states[j], who).run.streaming && StartsPowered(states, events) {
        FailedStartRestoresReservation(build, states, events, who, j, k);
      }
    }

    /** max9296_s_stream(1).  It is turned away without any effect, by the state of the instance, its workers or
        the preflight of its fingerprint; a start that fails on an idle instance leaves its reservation of the
        current epoch as it was; a start that succeeds is committed in the current epoch. */
    method SStreamOn(who: bool, fp: Fingerprint, w: Weather) returns (ret: Errno)
      requires Valid()
      modifies this, d0, d1
      ensures Grown()
      ensures old(StartRefusal(who, w)) != Success ==>
                ret == old(StartRefusal(who, w)) && View() == old(View()) && events == old(events)
      ensures old(StartRefusal(who, w)) == Success ==>
                |old(events)| < |events| && events[|old(events)|] == Event(who, OnStream(StreamBind(fp)))
                && At(who).txn.Idle?
      ensures ret == Success ==>
                events[|events| - 1] == Event(who, OnStream(StreamCommit))
                && At(who).run.streaming && At(who).run.commit == epoch
      ensures ret != Success && !old(At(who).run.streaming) && StartsPowered(states, events) ==>
                ReservationOf(View(), who) == old(ReservationOf(View(), who))
      ensures old(StartRefusal(who, w)) == Success && old(At(who).own.count) > 0 ==>
                EndsAs(who, old(if RateConflict(Sight(who), fp.fps) then ESTALE
                                else StartVerdict(build, At(who).View(), epoch, fp, w)), ret)
      ensures ret == Success && old(At(who).own.count) > 0 ==> Fit(build, At(who).View(), epoch, fp)
    {
      hide Apply, Enabled, CanStep, Step, Undisturbed, Reserves, Fit, StartVerdict;
      var me := At(who);
      if me.dying {
        return ENODEV;
      }
      if me.ask.state == Preparing {
        return EBUSY;
      }
      if w.worker != Success {
        return w.worker;
      }
      if !me.request.Free? || !me.txn.Idle? {
        return EBUSY;
      }
      if !w.preflight {
        return EINVAL;
      }
      ret := BoundStart(who, fp, w);
    }

    /** An admitted start from its bind on. */
    method BoundStart(who: bool, fp: Fingerprint, w: Weather) returns (ret: Errno)
      requires Valid() && AdmitsStart(who)
      modifies this, d0, d1
      ensures Grown() && At(who).txn.Idle?
      ensures |old(events)| < |events| && events[|old(events)|] == Event(who, OnStream(StreamBind(fp)))
      ensures ret == Success ==>
                events[|events| - 1] == Event(who, OnStream(StreamCommit))
                && At(who).run.streaming && At(who).run.commit == epoch
      ensures ret != Success && !old(At(who).run.streaming) && StartsPowered(states, events) ==>
                ReservationOf(View(), who) == old(ReservationOf(View(), who))
      ensures old(At(who).own.count) > 0 ==>
                EndsAs(who, old(if RateConflict(Sight(who), fp.fps) then ESTALE
                                else StartVerdict(build, At(who).View(), epoch, fp, w)), ret)
      ensures ret == Success && old(At(who).own.count) > 0 ==> Fit(build, At(who).View(), epoch, fp)
    {
      hide Apply, Enabled, CanStep, Step, Undisturbed, Reserves, Fit, HardwareVerdict, StartVerdict;
      ghost var j := |events|;
      ghost var idle := At(who).View();
      ret := BindStream(who, fp);
      if ret != Success {
        return;
      }
      ghost var bound := At(who).View();
      VerdictIgnoresCall(build, idle, bound, epoch, fp, w);
      Others(who, w.gap(1), false);
      VerdictStays(build, bound, At(who).View(), epoch, fp, w);
      UndisturbedKeeps(build, bound, At(who).View(), epoch, fp, 0);
      ret := SettleStart(who, w, j);
    }

    /** A start that was bound at event `j`, to its commit or its return. */
    method SettleStart(who: bool, w: Weather, ghost j: nat) returns (ret: Errno)
      requires Valid() && At(who).txn.Check?
      requires j < |events| && events[j].who == who && events[j].op.OnStream? && events[j].op.stream.StreamBind?
      requires Starting(who, j + 1)
      modifies this, d0, d1
      ensures Grown() && At(who).txn.Idle?
      ensures ret == Success ==>
                events[|events| - 1] == Event(who, OnStream(StreamCommit))
                && At(who).run.streaming && At(who).run.commit == epoch
      ensures ret != Success && !old(DevOf(states[j], who).run.streaming) && StartsPowered(states, events) ==>
                ReservationOf(View(), who) == old(ReservationOf(states[j], who))
      ensures old(At(who).own.count) > 0 ==>
                EndsAs(who, old(StartVerdict(build, At(who).View(), epoch, At(who).txn.fp, w)), ret)
      ensures ret == Success && old(At(who).own.count) > 0 ==> Fit(build, At(who).View(), epoch, old(At(who).txn.fp))
    {
      hide Apply, Enabled, CanStep, Step, Undisturbed, Reserves, Fit, HardwareVerdict, StartVerdict, InStart;
      var committed := RunStart(who, w);
      ret := Success;
      if !committed {
        ret := FailStart(who, w, j);
      }
    }

    /** max9296_s_stream(0).  Afterwards the instance neither streams nor publishes FSYNC; its reservation
        goes back exactly when this call ended a stream and the output is proven off. */
    method SStreamOff(who: bool, w: Weather) returns (ret: Errno)
      requires Valid() && At(who).txn.Idle?
      modifies this, d0, d1
      ensures Grown() && At(who).txn.Idle?
      ensures |old(events)| < |events| && events[|old(events)|] == Event(who, OnStream(StreamOff(w.disable)))
      ensures ret == ENODEV <==> old(At(who).dying)
      ensures ret == Success || ret == EIO ==> !At(who).run.streaming && !At(who).run.fsync && At(who).run.commit == 0
      ensures if ret == Success && old(At(who).run.streaming) then At(who).net.epoch == 0
              else At(who).net == old(At(who).net)
      ensures ret == EBUSY <==> old(!At(who).dying && At(who).ask.state == Preparing)
      ensures ret == EIO <==> old(!At(who).dying && At(who).ask.state != Preparing) && !w.disable
      ensures ret in {Success, ENODEV, EBUSY, EIO}
      ensures ret == ENODEV || ret == EBUSY ==> View() == old(View())
    {
      hide Apply, Enabled, CanStep, Step, IsRun;
      var me := At(who);
      if me.dying {
        ret := ENODEV;
      } else if me.ask.state == Preparing {
        ret := EBUSY;
      } else {
        ret := if w.disable then Success else EIO;
      }
      StopStream(who, w.disable);
      if me.txn.StopDrop? {
        Others(who, w.gap(0), false);
        DropStoppedReservation(who);
      }
    }

    /** The common end of a lease: its own reservation first, then its power. */
    method EndLease(who: bool, w: Weather) returns (ret: Errno)
      requires Valid() && At(who).txn.EndingLease?
      modifies this, d0, d1
      ensures Grown() && At(who).txn.Idle? && !At(who).own.lease && !At(who).own.reserved
      ensures ret == Success || (ret == EIO && !w.off)
      ensures GaveBack(old(At(who).View()), At(who).View(), epoch,
                       old(At(who).txn.why == TimedOut && At(who).run.streaming))
      ensures At(who).ask == EndedAsk(old(At(who).ask), old(At(who).txn.why))
    {
      hide Apply, Enabled, CanStep, Step, IsRun, Undisturbed;
      DropLeaseReservation(who);
      ghost var dropped := At(who).View();
      Others(who, w.gap(10), false);
      UndisturbedKeeps(build, dropped, At(who).View(), epoch, NO_FINGERPRINT, 0);
      ret := RelinquishLease(who, w.off);
      EpochStarted();
    }

    /** Epoch 0 is never the running one. */
    lemma EpochStarted()
      requires Valid()
      ensures epoch >= 1
    {
      hide CanStep, Step;
      EpochNeverDecreases(build, states, events, 0, |events|);
    }

    /** Nothing keeps a lease of this instance from being armed. */
    predicate Unhindered(who: bool)
      reads this, d0, d1
    {
      !At(who).dying && At(who).own.count == 0 && At(who).timer.pending == 0
    }

    /** The lease is held: rebind it and reuse or reprogram the hardware. */
    method RenewLease(who: bool, w: Weather) returns (ready: bool)
      requires Valid() && At(who).txn.Admitted? && At(who).own.lease
      requires var t := At(who).txn; t.hardwareCurrent ==> Fit(build, At(who).View(), epoch, t.fp)
      modifies this, d0, d1
      ensures Grown() && (At(who).txn.Idle? || At(who).txn.Arming? || At(who).txn.EndingLease?)
      ensures ready ==> At(who).txn.Idle? && TimeoutQueued(At(who).timer)
                        && ReadyFor(build, At(who).View(), epoch, old(At(who).txn.fp), old(At(who).txn.gen))
      ensures At(who).txn.Arming? ==>
                && At(who).txn == Arming(old(At(who).txn.gen))
                && ReadyFor(build, At(who).View(), epoch, old(At(who).txn.fp), old(At(who).txn.gen))
      ensures Quiet(w) && old(Unhindered(who)) ==>
                && (ready || At(who).txn.Arming?
                    <==> old(RenewalWorks(Sight(who), At(who).txn.fp, At(who).txn.hardwareCurrent, w)))
                && (At(who).txn.Arming? ==> Unhindered(who))
    {
      hide Apply, Enabled, CanStep, Step, IsRun, Undisturbed, Equal;
      ghost var fp, gen := At(who).txn.fp, At(who).txn.gen;
      ready := RebindHeldLease(who);
      if At(who).txn.Cold? {
        OthersMeanwhile(who, w.gap(2), fp, gen);
        PrepareHardware(who, w);
      }
    }

    /** What a fresh lease still needs after its publication was decided. */
    method SettleFreshLease(who: bool, w: Weather, ghost fp: Fingerprint, ghost gen: nat)
      requires Valid()
      requires var d := At(who).View();
               || (d.txn.Unpublished? && !d.own.lease)
               || (d.txn == Arming(gen) && ReadyFor(build, d, epoch, fp, gen))
               || (d.txn == Cold(ForPrepare(gen), fp) && Underway(d, epoch, fp, gen))
      modifies this, d0, d1
      ensures Grown() && (At(who).txn.Idle? || At(who).txn.Arming? || At(who).txn.EndingLease?)
      ensures At(who).txn.Idle? ==> !At(who).own.lease
      ensures At(who).txn.Arming? ==> At(who).txn == Arming(gen) && ReadyFor(build, At(who).View(), epoch, fp, gen)
      ensures Quiet(w) ==>
                && (At(who).txn.Arming? <==>
                      old(At(who).txn.Arming? || (At(who).txn.Cold? && ColdVerdict(At(who).View(), epoch, w) == Success)))
                && (At(who).txn.Arming? ==>
                      && At(who).timer == old(At(who).timer) && At(who).dying == old(At(who).dying)
                      && At(who).own == old(At(who).own))
    {
      hide Apply, Enabled, CanStep, Step, IsRun, Equal;
      if At(who).txn.Unpublished? {
        Others(who, w.gap(4), false);
        ReleaseUnpublishedPower(who, w.off);
      } else if At(who).txn.Cold? {
        OthersMeanwhile(who, w.gap(5), fp, gen);
        PrepareHardware(who, w);
      }
    }

    /** max9296_prepare_request_locked(): acquire power, reserve, publish, program.  A lease it leaves to be armed
        is ready for exactly this request; one it does not leave is not held. */
    method TakeLease(who: bool, w: Weather)
      requires Valid() && At(who).txn.Admitted? && !At(who).own.lease && NoDebt(At(who).View())
      modifies this, d0, d1
      ensures Grown() && (At(who).txn.Idle? || At(who).txn.Arming? || At(who).txn.EndingLease?)
      ensures At(who).txn.Idle? ==> !At(who).own.lease
      ensures At(who).txn.Arming? ==>
                && At(who).txn == Arming(old(At(who).txn.gen))
                && ReadyFor(build, At(who).View(), epoch, old(At(who).txn.fp), old(At(who).txn.gen))
      ensures Quiet(w) && old(!At(who).dying && At(who).timer.pending == 0) ==>
                && (At(who).txn.Arming? <==> old(LeaseWorks(build, Sight(who), At(who).txn.fp, w)))
                && (At(who).txn.Arming? ==> Unhindered(who))
    {
      hide Apply, Enabled, CanStep, Step, IsRun, ReadyFor, Underway, PublicationWorks, Fit;
      ghost var before := Sight(who);
      var ret := AcquireForPrepare(who, w.power);
      if ret == Success {
        PublicationLooks(build, before.(epoch := epoch), Sight(who), At(who).txn.fp, w);
        FinishLease(who, w);
      }
    }

    /** Power is acquired: what follows up to the programmed lease. */
    method FinishLease(who: bool, w: Weather)
      requires Valid() && At(who).txn.Acquired? && !At(who).own.lease && NoDebt(At(who).View())
      modifies this, d0, d1
      ensures Grown() && (At(who).txn.Idle? || At(who).txn.Arming? || At(who).txn.EndingLease?)
      ensures At(who).txn.Idle? ==> !At(who).own.lease
      ensures At(who).txn.Arming? ==>
                && At(who).txn == Arming(old(At(who).txn.gen))
                && ReadyFor(build, At(who).View(), epoch, old(At(who).txn.fp), old(At(who).txn.gen))
      ensures Quiet(w) && old(Unhindered(who)) ==>
                && (At(who).txn.Arming? <==> old(PublicationWorks(build, Sight(who), At(who).txn.fp, w)))
                && (At(who).txn.Arming? ==> Unhindered(who))
    {
      hide Apply, Enabled, CanStep, Step, IsRun, ReadyFor, Underway, Undisturbed, Fit, NoDebt;
      ghost var fp, gen, acquired := At(who).txn.fp, At(who).txn.gen, At(who).View();
      Others(who, w.gap(3), false);
      UndisturbedKeeps(build, acquired, At(who).View(), epoch, fp, gen);
      PublishFreshLease(who);
      SettleFreshLease(who, w, fp, gen);
    }

    /** From the armed end of a request to its return. */
    method CloseRequest(who: bool, w: Weather, ghost fp: Fingerprint, ghost gen: nat) returns (armed: bool)
      requires Valid() && (At(who).txn.Idle? || At(who).txn.Arming? || At(who).txn.EndingLease?)
      requires At(who).txn.Arming? ==> At(who).txn == Arming(gen) && ReadyFor(build, At(who).View(), epoch, fp, gen)
      modifies this, d0, d1
      ensures Grown() && At(who).txn.Idle?
      ensures old(At(who).txn.Idle?) ==> !armed && View() == old(View()) && events == old(events)
      ensures armed ==> old(At(who).txn.Arming?)
      ensures armed ==> TimeoutQueued(At(who).timer) && ReadyFor(build, At(who).View(), epoch, fp, gen)
      ensures !armed && !old(At(who).txn.Idle?) && old(At(who).own.lease) ==>
                && !At(who).own.lease && At(who).ask.state in {Failed, PrepIdle, Expired}
                && GaveBack(old(At(who).View()), At(who).View(), epoch,
                            old(At(who).txn.EndingLease? && At(who).txn.why == TimedOut && At(who).run.streaming))
      ensures Quiet(w) && old(At(who).txn.Arming? && Unhindered(who)) ==> armed
    {
      hide Apply, Enabled, CanStep, Step, IsRun, Undisturbed, Equal;
      armed := false;
      if At(who).txn.Arming? {
        OthersMeanwhile(who, w.gap(6), fp, gen);
        armed := ArmHeldLease(who);
      }
      if At(who).txn.EndingLease? {
        ghost var ending := At(who).View();
        Others(who, w.gap(7), false);
        UndisturbedKeeps(build, ending, At(who).View(), epoch, fp, gen);
        var _ := EndLease(who, w);
      }
    }

    /** An admitted request up to the end of its programming: ready at once, to be armed, ending, or over. */
    method ServeAdmitted(who: bool, w: Weather) returns (ready: bool)
      requires Valid() && At(who).txn.Admitted? && NoDebt(At(who).View())
      requires var t := At(who).txn; t.hardwareCurrent ==> Fit(build, At(who).View(), epoch, t.fp)
      modifies this, d0, d1
      ensures Grown() && (At(who).txn.Idle? || At(who).txn.Arming? || At(who).txn.EndingLease?)
      ensures ready ==> At(who).txn.Idle? && TimeoutQueued(At(who).timer)
                        && ReadyFor(build, At(who).View(), epoch, old(At(who).txn.fp), old(At(who).txn.gen))
      ensures At(who).txn.Arming? ==>
                && At(who).txn == Arming(old(At(who).txn.gen))
                && ReadyFor(build, At(who).View(), epoch, old(At(who).txn.fp), old(At(who).txn.gen))
      ensures Quiet(w) && old(!At(who).dying && (At(who).own.lease ==> At(who).own.count == 0)
                              && At(who).timer.pending == 0) ==>
                && (ready || At(who).txn.Arming? <==>
                      old(if At(who).own.lease
                          then RenewalWorks(Sight(who), At(who).txn.fp, At(who).txn.hardwareCurrent, w)
                          else LeaseWorks(build, Sight(who), At(who).txn.fp, w)))
                && (At(who).txn.Arming? ==> Unhindered(who))
    {
      hide Apply, Enabled, CanStep, Step, IsRun, Undisturbed, Fit, NoDebt, ReadyFor;
      if At(who).own.lease {
        OthersMeanwhile(who, w.gap(1), At(who).txn.fp, At(who).txn.gen);
        ready := RenewLease(who, w);
      } else {
        ghost var admitted := At(who).View();
        Others(who, w.gap(1), false);
        UndisturbedKeeps(build, admitted, At(who).View(), epoch, At(who).txn.fp, At(who).txn.gen);
        TakeLease(who, w);
        ready := false;
      }
    }

    /** What admits a prepare that arrives now. */
    predicate PassesNow(who: bool, fp: Fingerprint, gen: nat, w: Weather)
      reads this, d0, d1
    {
      var d := At(who).View();
      && !d.dying && d.ask.state != Preparing && !d.run.streaming && w.preflight && w.session != SessionRefused
      && (d.ask.gen == gen && gen != 0 ==> RequestEqual(build, d.ask.fp, fp))
      && (d.hw.valid && d.hw.epoch == epoch ==> Equal(build, d.hw.fp, fp))
    }

    /** A held lease and a local count exclude each other. */
    lemma LeaseExcludesCount(who: bool)
      requires Valid() && At(who).own.lease
      ensures At(who).own.count == 0
    {
      hide Apply, Enabled;
      PowerAlways(build, states, events, |events|);
    }

    /** The part of a request that holds the instance lock. */
    method ServeRequest(who: bool, w: Weather) returns (ready: bool)
      requires Valid() && RequestEnabled(At(who).View(), AdmitPrepare(w.preflight, w.session))
      modifies this, d0, d1
      ensures Grown() && At(who).txn.Idle?
      ensures ready ==>
                TimeoutQueued(At(who).timer)
                && ReadyFor(build, At(who).View(), epoch, old(At(who).request.fp), old(At(who).request.gen))
      ensures ready ==> old(At(who).Passes(build, epoch, w.preflight, w.session))
      ensures !old(At(who).Passes(build, epoch, w.preflight, w.session)) && old(Armable(who)) ==>
                At(who).own == old(At(who).own) && At(who).ask == old(At(who).ask) && At(who).net == old(At(who).net)
                && TimeoutQueued(At(who).timer)
      ensures Quiet(w) && old(At(who).timer.pending) == 0 ==>
                (ready <==> old(At(who).Passes(build, epoch, w.preflight, w.session)
                                && PrepareWorks(build, Sight(who), At(who).request.fp, w)))
    {
      hide Apply, Enabled, CanStep, Step, IsRun, Undisturbed, ReadyFor, Fit, NoDebt, AdmittedDev;
      hide PrepareWorks, RenewalWorks, LeaseWorks;
      if At(who).own.lease {
        LeaseExcludesCount(who);
      }
      ghost var fp, gen, b := At(who).request.fp, At(who).request.gen, Sight(who);
      if AdmittedDev(build, b.me, b.epoch, w.preflight, w.session).txn.Admitted? {
        AdmittedWorks(build, b, w);
      }
      var admitted := AdmitRequest(who, w.preflight, w.session);
      ready := false;
      if admitted {
        ready := ServeAdmitted(who, w);
      }
      if !ready {
        ready := CloseRequest(who, w, fp, gen);
      }
    }

    /** max9296_prepare_request().  `returned` is false while the call still waits for the timer callback
        or the instance lock.  A call that returns success leaves the instance ready for exactly this request,
        with its timeout queued; one that returns at all leaves no half-made lease: a lease held on a live
        instance is armed and its timeout is underway. */
    method PrepareRequest(who: bool, fp: Fingerprint, gen: nat, w: Weather) returns (returned: bool, ready: bool)
      requires Valid() && gen > 0
      modifies this, d0, d1
      ensures Grown()
      ensures old(At(who).request.Free?) ==>
                |old(events)| < |events| && events[|old(events)|] == Event(who, OnRequest(RequestPrepare(fp, gen)))
      ensures !old(At(who).request.Free?) ==> returned && !ready && View() == old(View())
      ensures ready ==> w.preflight && w.session != SessionRefused
      ensures ready ==>
                && returned && At(who).txn.Idle? && TimeoutQueued(At(who).timer)
                && ReadyFor(build, At(who).View(), epoch, fp, gen)
      ensures returned && old(At(who).request.Free?) && StartsPowered(states, events) ==>
                var d := At(who).View();
                d.txn.Idle? && (d.own.lease && d.request.Free? && !d.dying ==> LeaseArmed(d) && TimeoutUnderway(d))
      ensures Quiet(w) && old(At(who).request.Free? && At(who).txn.Idle? && At(who).timer.firing == 0) ==>
                && returned
                && (ready <==> old(PassesNow(who, fp, gen, w) && PrepareWorks(build, Sight(who), fp, w)))
    {
      hide Apply, Enabled, CanStep, Step, Undisturbed, LeaseArmed, TimeoutUnderway, ReadyFor, PrepareWorks;
      OpenedWorks(build, Sight(who), Draining(fp, gen), fp, w);
      ready := false;
      if !At(who).request.Free? {
        return true, false;
      }
      OpenRequest(who, Draining(fp, gen));
      Others(who, w.gap(0), true);
      if !RequestEnabled(At(who).View(), AdmitPrepare(w.preflight, w.session)) {
        return false, false;
      }
      ready := ServeRequest(who, w);
      if StartsPowered(states, events) && At(who).own.lease && At(who).request.Free? && !At(who).dying {
        LeaseAlwaysTimed(build, states, events, who, |events|);
      }
      returned := true;
    }

    lemma UnheldReservesNothing(who: bool)
      requires Valid() && !At(who).own.lease
      ensures !At(who).own.reserved
    {
      hide Apply, Enabled;
      PowerAlways(build, states, events, |events|);
      UnheldLeaseReservesNothing(View(), who);
    }

    /** The part of a cancel that holds the instance lock.  It is busy exactly on a preparing, streaming or powered
        instance, and otherwise leaves no lease and no reservation flag. */
    method ServeCancel(who: bool, w: Weather) returns (ret: Errno)
      requires Valid() && RequestEnabled(At(who).View(), AdmitCancel)
      modifies this, d0, d1
      ensures Grown() && At(who).txn.Idle? && ret in {Success, ENODEV, EBUSY, EIO}
      ensures ret == ENODEV <==> old(At(who).dying)
      ensures ret == EBUSY <==>
                old(!At(who).dying
                    && (At(who).ask.state == Preparing || At(who).run.streaming || At(who).own.count > 0))
      ensures ret == ENODEV || ret == EBUSY ==> At(who).own == old(At(who).own) && At(who).run == old(At(who).run)
      ensures ret == Success || ret == EIO ==>
                && !At(who).own.lease && !At(who).own.reserved && At(who).ask.state == PrepIdle
                && GaveBack(old(At(who).View()), At(who).View(), epoch, !old(At(who).own.lease))
      ensures ret == ENODEV || ret == EBUSY ==> At(who).ask == old(At(who).ask) && At(who).net == old(At(who).net)
      ensures |old(events)| < |events| && events[|old(events)|] == Event(who, OnRequest(AdmitCancel))
    {
      hide Apply, Enabled, CanStep, Step, Undisturbed, IsRun;
      var ending;
      ending, ret := AdmitCancellation(who);
      if ending {
        ghost var admitted := At(who).View();
        Others(who, w.gap(1), false);
        UndisturbedKeeps(build, admitted, At(who).View(), epoch, NO_FINGERPRINT, 0);
        ret := EndLease(who, w);
      } else if ret == Success {
        UnheldReservesNothing(who);
      }
    }

    /** max9296_cancel_prepare().  `from` is the moment it got the instance lock, which decides everything: its
        error, or the end of the lease held then, together with the reservation that lease took. */
    method CancelPrepare(who: bool, w: Weather) returns (returned: bool, ret: Errno, ghost from: nat)
      requires Valid()
      modifies this, d0, d1
      ensures Grown()
      ensures !old(At(who).request.Free?) ==>
                returned && ret == (if old(At(who).dying) then ENODEV else EBUSY) && View() == old(View())
      ensures returned && old(At(who).request.Free?) ==>
                && |old(events)| < from < |events| && events[from] == Event(who, OnRequest(AdmitCancel))
                && At(who).txn.Idle?
                && var d := DevOf(states[from], who);
                   && (ret == ENODEV <==> d.dying)
                   && (ret == EBUSY <==> !d.dying && (d.ask.state == Preparing || d.run.streaming || d.own.count > 0))
                   && (ret == ENODEV || ret == EBUSY ==> At(who).own == d.own && At(who).net == d.net)
                   && (ret == Success || ret == EIO ==>
                         && !At(who).own.lease && !At(who).own.reserved && At(who).ask.state == PrepIdle
                         && (d.own.reserved ==> ReservationOf(View(), who) == None)
                         && (!d.own.reserved ==> SameReservation(d.net, At(who).net)))
      ensures ret in {Success, ENODEV, EBUSY, EIO}
      ensures Quiet(w) && old(At(who).request.Free? && At(who).txn.Idle? && At(who).timer.firing == 0) ==> returned
    {
      hide Apply, Enabled, CanStep, Step, Undisturbed;
      from := 0;
      if !At(who).request.Free? {
        return true, if At(who).dying then ENODEV else EBUSY, 0;
      }
      OpenRequest(who, DrainingCancel);
      Others(who, w.gap(0), true);
      if !RequestEnabled(At(who).View(), AdmitCancel) {
        return false, EBUSY, 0;
      }
      from := |events|;
      if !At(who).own.lease {
        UnheldReservesNothing(who);
      }
      assert states[from] == View();
      ret := ServeCancel(who, w);
      returned := true;
    }

    /** max9296_prepare_lease_timeout().  It ends at most the lease it was armed for. */
    method LeaseTimeout(who: bool, w: Weather)
      requires Valid() && RequestEnabled(At(who).View(), TimerRun)
      modifies this, d0, d1
      ensures Grown() && At(who).txn.Idle?
      ensures StartsPowered(states, events) && old(At(who).own.lease) && !At(who).own.lease ==>
                old(At(who).timer.firing == At(who).timer.lease != 0)
      ensures StartsPowered(states, events) && old(At(who).own.lease && !At(who).dying) ==>
                && !At(who).own.lease && At(who).ask == EndedAsk(old(At(who).ask), TimedOut)
                && (if old(At(who).own.reserved) then ReservationOf(View(), who) == None
                    else SameReservation(old(At(who).net), At(who).net))
      ensures old(At(who).own.lease) && At(who).own.lease ==>
                At(who).own == old(At(who).own) && At(who).ask == old(At(who).ask) && At(who).net == old(At(who).net)
    {
      hide Apply, Enabled, CanStep, Step, Undisturbed;
      ghost var k := |events|;
      if StartsPowered(states, events) && At(who).own.lease && !At(who).dying {
        HeldLeaseCanExpire(who);
      }
      ExpireLease(who, w);
      if old(At(who).own.lease) && !At(who).own.lease && StartsPowered(states, events) {
        assert DevOf(states[k + 1], who).txn == EndingLease(TimedOut, Success);
        ExpiryEndsItsOwnLease(build, states, events, k);
      }
    }

    /** The callback without what runs say about it: it ends a lease that can expire, and no other. */
    method ExpireLease(who: bool, w: Weather)
      requires Valid() && RequestEnabled(At(who).View(), TimerRun)
      modifies this, d0, d1
      ensures Grown() && At(who).txn.Idle?
      ensures |old(events)| < |events| && events[|old(events)|] == Event(who, OnRequest(TimerRun))
      ensures if old(CanArm(At(who).View(), At(who).ask.leaseGen))
              then && !At(who).own.lease && At(who).ask == EndedAsk(old(At(who).ask), TimedOut)
                   && GaveBack(old(At(who).View()), At(who).View(), epoch, old(At(who).run.streaming))
                   && |old(states)| < |states|
                   && DevOf(states[|old(states)|], who).txn == EndingLease(TimedOut, Success)
              else At(who).own == old(At(who).own) && At(who).ask == old(At(who).ask) && At(who).net == old(At(who).net)
    {
      hide Apply, Enabled, CanStep, Step, IsRun, Undisturbed;
      var ending := RunTimeout(who);
      if ending {
        ghost var expiring := At(who).View();
        Others(who, w.gap(0), false);
        UndisturbedKeeps(build, expiring, At(who).View(), epoch, NO_FINGERPRINT, 0);
        var _ := EndLease(who, w);
      }
    }

    /** Between calls a held lease of a live instance is one that can expire, and belongs to no running stream. */
    lemma HeldLeaseCanExpire(who: bool)
      requires Valid() && StartsPowered(states, events) && At(who).txn.Idle? && At(who).own.lease && !At(who).dying
      ensures CanArm(At(who).View(), At(who).ask.leaseGen) && !At(who).run.streaming
    {
      hide Apply, Enabled, CanStep, Step;
      StreamsAlways(build, states, events, |events|);
    }

    /** The survivor half of a removal. */
    method StopOrphan(who: bool, w: Weather)
      requires Valid() && RemoveEnabled(Sight(who), SurvivorStop(w.disable))
      modifies this, d0, d1
      ensures Grown() && !At(who).run.streaming && !At(who).run.fsync && At(who).txn.Idle?
      ensures if old(At(who).run.streaming && !At(who).own.reserved) && w.disable then At(who).net.epoch == 0
              else At(who).net == old(At(who).net)
    {
      hide Apply, Enabled, CanStep, Step, IsRun;
      StopSurvivor(who, w.disable);
      if At(who).txn.StopDrop? {
        Others(who, w.gap(2), false);
        DropStoppedReservation(who);
      }
    }

    /** Between calls, with no callback waiting. */
    predicate Restful(who: bool)
      reads this, d0, d1
    {
      At(who).request.Free? && At(who).txn.Idle? && At(who).timer.firing == 0
    }

    /** max9296_remove() up to the point where nothing of this instance takes part in the protocol:
        admission closed, the admitted calls drained, its user given back, a survivor that lost its
        FSYNC worker stopped. */
    method Remove(who: bool, survivorLost: bool, w: Weather) returns (returned: bool)
      requires Valid() && !At(who).dying
      modifies this, d0, d1
      ensures Grown() && |old(events)| < |events| && events[|old(events)|] == Event(who, OnRemove(RemoveBegin))
      ensures returned && !survivorLost ==>
                events[|events| - 1] == Event(who, OnRemove(RemoveReconcile)) && !Accounted(At(who).View())
      ensures returned && survivorLost ==> !At(!who).run.streaming && !At(!who).run.fsync && At(!who).txn.Idle?
      ensures Quiet(w) && old(Restful(who)) && (survivorLost ==> old(Restful(!who) && !At(!who).dying)) ==> returned
    {
      hide Apply, Enabled, CanStep, Step, IsRun, Undisturbed, Foreign, Accounted;
      returned := Withdraw(who, w);
      if returned && survivorLost {
        Others(!who, w.gap(1), true);
        returned := RemoveEnabled(Sight(!who), SurvivorStop(w.disable));
        if returned {
          StopOrphan(!who, w);
        }
      }
    }

    /** The instance's own half of a removal: admission closed, its calls drained, its accounts settled. */
    method Withdraw(who: bool, w: Weather) returns (returned: bool)
      requires Valid() && !At(who).dying
      modifies this, d0, d1
      ensures Grown() && |old(events)| < |events| && events[|old(events)|] == Event(who, OnRemove(RemoveBegin))
      ensures returned ==>
                && events[|events| - 1] == Event(who, OnRemove(RemoveReconcile))
                && !Accounted(At(who).View()) && At(who).dying
      ensures Quiet(w) ==> At(!who).View() == old(At(!who).View()) && (old(Restful(who)) ==> returned)
    {
      hide Apply, Enabled, CanStep, Step, IsRun, Undisturbed, Foreign, Accounted;
      BeginRemove(who);
      Others(who, w.gap(0), true);
      returned := RemoveEnabled(Sight(who), RemoveReconcile);
      if returned {
        ReconcileRemoved(who);
      }
    }
  }
}
