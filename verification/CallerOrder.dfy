/** Where the guarantees of `ProtocolRuns` end: concrete runs of the driver that break a caller order, or begin a
    removal, and lose one of them. */
module CallerOrder {
  import opened PreviewPolicy
  import opened Fingerprint
  import opened BootStages
  import opened Protocol
  import opened ProtocolInvariants
  import opened ProtocolRuns

  const HD := Fingerprint(Left720, 1280, 720, UYVY, 30, 1, false)

  /** Extends a run by one step; the run goes on obeying a caller order that the step obeys. */
  lemma Extend(build: Build, ss: seq<Board>, es: seq<Event>, e: Event) returns (ss': seq<Board>, es': seq<Event>)
    requires IsRun(build, ss, es) && CanStep(ss[|es|], e)
    ensures IsRun(build, ss', es') && es' == es + [e] && ss' == ss + [Step(build, ss[|es|], e)]
    ensures StartsPowered(ss, es) && PoweredStart(Seen(ss[|es|], e.who), e.op) ==> StartsPowered(ss', es')
    ensures StopsBeforeOff(ss, es) && StopBeforePowerOff(Seen(ss[|es|], e.who), e.op) ==> StopsBeforeOff(ss', es')
  {
    hide Apply, Enabled, CanStep, Step, PoweredStart, StopBeforePowerOff;
    ss', es' := ss + [Step(build, ss[|es|], e)], es + [e];
  }

  lemma NothingDone(build: Build)
    ensures IsRun(build, [START], []) && StartsPowered([START], []) && StopsBeforeOff([START], [])
  {
  }

  const LOAD: seq<Event> := [
    Event(true, OnStream(StreamCheck)), Event(true, OnCold(ColdBegin(false))), Event(true, OnCold(ColdEnd(Completed))),
    Event(true, OnStream(StreamReplay(true))), Event(true, OnStream(StreamCommit))]

  /** From a bound start with unloaded hardware to a running stream. */
  lemma Load(build: Build, ss: seq<Board>, es: seq<Event>) returns (ss': seq<Board>, es': seq<Event>)
    requires IsRun(build, ss, es) && ss[|es|].me.txn.Check? && ss[|es|].me.txn.fp == HD
    requires var b := ss[|es|];
             !b.me.dying && !b.me.hw.reinit && b.me.hw.cold < b.epoch && (b.me.hw.valid ==> b.me.hw.epoch < b.epoch)
    ensures IsRun(build, ss', es') && |ss'| == |es'| + 1 && es' == es + LOAD && ss <= ss'
    ensures var b, b' := ss[|es|], ss'[|es'|];
            && b'.users == b.users && b'.epoch == b.epoch && b'.peer == b.peer
            && b'.me == b.me.(hw := Hardware(true, b.epoch, HD, b.epoch, Boot(b.epoch, HD, PostConfig, false), false, true),
                              run := Stream(true, true, b.epoch, b.me.run.fsync), txn := Idle, request := Free)
    ensures StartsPowered(ss, es) ==> StartsPowered(ss', es')
    ensures StopsBeforeOff(ss, es) ==> StopsBeforeOff(ss', es')
  {
    assert |ss| == |es| + 1;
    hide IsRun, StartsPowered, StopsBeforeOff, ApplyPower, ApplyOutput, ApplyRemove, ApplyRequest;
    hide ApplyPrepare, ApplyLease;
    hide ApplyCold;
    ss', es' := Extend(build, ss, es, LOAD[0]);
    ss', es' := Program(build, ss', es');
    ss', es' := Replay(build, ss', es');
  }

  lemma Programmed(d: Dev, epoch: nat)
    requires d.txn.Cold? && d.txn.caller.ForStream? && d.hw.cold != epoch
    ensures var t, d' := d.txn, ColdBegun(d, epoch, false);
            && d'.txn == Loading(t.caller, t.fp)
            && ColdEnded(d', epoch, Completed) ==
               d.(hw := Hardware(true, epoch, t.fp, epoch, Boot(epoch, t.fp, PostConfig, false), false, true),
                  run := d.run.(commit := 0), txn := Protocol.Replay(t.fp, t.caller.bindReserved))
  {
  }

  /** The cold initialization of a load. */
  lemma Program(build: Build, ss: seq<Board>, es: seq<Event>) returns (ss': seq<Board>, es': seq<Event>)
    requires IsRun(build, ss, es) && ss[|es|].me.txn.Cold? && ss[|es|].me.txn.caller.ForStream?
    requires ss[|es|].me.hw.cold != ss[|es|].epoch
    ensures IsRun(build, ss', es') && |ss'| == |es'| + 1 && es' == es + LOAD[1..3] && ss <= ss'
    ensures var b, b' := ss[|es|], ss'[|es'|]; var t := b.me.txn;
            b' == b.(me := b.me.(hw := Hardware(true, b.epoch, t.fp, b.epoch, Boot(b.epoch, t.fp, PostConfig, false),
                                                false, true),
                                 run := b.me.run.(commit := 0), txn := Protocol.Replay(t.fp, t.caller.bindReserved)))
    ensures StartsPowered(ss, es) ==> StartsPowered(ss', es')
    ensures StopsBeforeOff(ss, es) ==> StopsBeforeOff(ss', es')
  {
    assert |ss| == |es| + 1;
    hide IsRun, StartsPowered, StopsBeforeOff, ApplyPower, ApplyOutput, ApplyRemove, ApplyRequest;
    hide ApplyPrepare, ApplyLease;
    hide ApplyStream, ColdBegun, ColdEnded, Reserves;
    Programmed(ss[|es|].me, ss[|es|].epoch);
    ss', es' := Extend(build, ss, es, LOAD[1]);
    ss', es' := Extend(build, ss', es', LOAD[2]);
  }

  /** The last two steps of a load. */
  lemma Replay(build: Build, ss: seq<Board>, es: seq<Event>) returns (ss': seq<Board>, es': seq<Event>)
    requires IsRun(build, ss, es) && ss[|es|].me.txn.Replay? && !ss[|es|].me.dying
    ensures IsRun(build, ss', es') && |ss'| == |es'| + 1 && es' == es + LOAD[3..] && ss <= ss'
    ensures var b, b' := ss[|es|], ss'[|es'|];
            b' == b.(me := b.me.(run := Stream(true, true, b.epoch, b.me.run.fsync), txn := Idle, request := Free))
    ensures StartsPowered(ss, es) ==> StartsPowered(ss', es')
    ensures StopsBeforeOff(ss, es) ==> StopsBeforeOff(ss', es')
  {
    assert |ss| == |es| + 1;
    hide IsRun, StartsPowered, StopsBeforeOff, ApplyPower, ApplyOutput, ApplyRemove, ApplyRequest;
    hide ApplyPrepare, ApplyLease;
    ss', es' := Extend(build, ss, es, LOAD[3]);
    ss', es' := Extend(build, ss', es', LOAD[4]);
  }

  /** A start on an unpowered instance binds in one epoch, commits in the next, and then pulses without
      a reservation: its sibling may move the shared rate under it. */
  lemma UnpoweredStartLosesReservation(build: Build) returns (ss: seq<Board>, es: seq<Event>)
    ensures IsRun(build, ss, es) && StopsBeforeOff(ss, es)
    ensures var b := ss[|es|]; StreamCurrent(b.me, b.epoch) && !Reserves(b.me, b.epoch)
  {
    hide IsRun, StartsPowered, StopsBeforeOff;
    ss, es := [START], [];
    NothingDone(build);
    ss, es := Extend(build, ss, es, Event(true, OnStream(StreamBind(HD))));
    ss, es := Extend(build, ss, es, Event(false, OnPower(PowerOn(true))));
    ss, es := Load(build, ss, es);
  }

  /** A powered start from idle up to the commit. */
  const LIFE: seq<Event> := [Event(true, OnPower(PowerOn(true))), Event(true, OnStream(StreamBind(HD)))] + LOAD

  predicate Off(b: Board) {
    && b.users == 0 && b.epoch >= 1 && b.me.own == PROBED.own && b.me.txn.Idle? && b.me.request.Free? && !b.me.dying
    && b.me.ask.state == PrepIdle && !b.me.hw.reinit && EpochsBounded(b.me, b.epoch) && b.peer == PROBED
  }

  lemma Live(build: Build, ss: seq<Board>, es: seq<Event>) returns (ss': seq<Board>, es': seq<Event>)
    requires PoweredRun(build, ss, es) && Off(ss[|es|])
    ensures PoweredRun(build, ss', es') && |ss'| == |es'| + 1 && es' == es + LIFE && ss <= ss'
    ensures var b, b' := ss[|es|], ss'[|es'|];
            && b'.users == 1 && b'.peer == PROBED && b'.me.own == Ownership(1, false, false)
            && b'.me.txn.Idle? && b'.me.request.Free? && !b'.me.dying && b'.me.ask == b.me.ask && !b'.me.hw.reinit
            && StreamCurrent(b'.me, b'.epoch) && b'.me.run.fsync == b.me.run.fsync && EpochsBounded(b'.me, b'.epoch)
  {
    assert |ss| == |es| + 1;
    hide IsRun, StartsPowered, StopsBeforeOff;
    ss', es' := Extend(build, ss, es, LIFE[0]);
    ss', es' := Extend(build, ss', es', LIFE[1]);
    ss', es' := Load(build, ss', es');
    assert LIFE == [LIFE[0], LIFE[1]] + LOAD;
  }

  /** When the last local power reference goes back under a running stream, the power-off clears the
      stream but not its published FSYNC state, so the next life of the stream enables its output
      before any pulse of its own. */
  lemma EarlyPowerOffSkipsPulse(build: Build) returns (ss: seq<Board>, es: seq<Event>, k: nat)
    ensures PoweredRun(build, ss, es) && k < |es| && EnablesOutput(es[k], true)
    ensures forall j :: 0 <= j < |es| ==> !PulsedSince(ss, es, true, j, k)
  {
    hide IsRun, StartsPowered, StopsBeforeOff;
    NothingDone(build);
    ss, es := Live(build, [START], []);
    ss, es := Extend(build, ss, es, Event(true, OnOutput(Pulse(true, false))));
    ss, es := Extend(build, ss, es, Event(true, OnPower(PowerOff(true))));
    var off, ss0 := |es|, ss;
    ss, es := Live(build, ss, es);
    k := |es|;
    ss, es := Extend(build, ss, es, Event(true, OnOutput(EnableOutput)));
    hide Apply, Enabled, CanStep, Step;
    forall j | 0 <= j < |es| ensures !PulsedSince(ss, es, true, j, k) {
      if j < off {
        assert ss[off] == ss0[off] && !DevOf(ss[off], true).run.streaming;
      } else {
        assert !PulsesFor(es[j], true);
      }
    }
  }

  /** A finished prepare: the lease is held, armed and reserves 30 fps on loaded hardware. */
  predicate Prepared(b: Board) {
    && b.epoch == 2 && b.peer.net == PROBED.net
    && b.me.own == Ownership(0, true, true) && b.me.ask == Ask(Ready, 1, 1, HD) && b.me.timer == Timer(1, 1, 1, 0)
    && b.me.net == Cadence(2, 30, 30) && !b.me.dying && b.me.txn.Idle? && b.me.request.Free?
    && b.me.hw == Hardware(true, 2, HD, 2, Boot(2, HD, PostConfig, false), false, true)
  }

  lemma Acquire(build: Build) returns (ss: seq<Board>, es: seq<Event>)
    ensures IsRun(build, ss, es) && |ss| == |es| + 1 && StopsBeforeOff(ss, es)
    ensures ss[|es|] == Board(1, 2, PROBED.(request := Held, txn := Acquired(HD, 1)), PROBED)
  {
    hide IsRun, StartsPowered, StopsBeforeOff;
    ss, es := [START], [];
    NothingDone(build);
    ss, es := Extend(build, ss, es, Event(true, OnRequest(RequestPrepare(HD, 1))));
    ss, es := Extend(build, ss, es, Event(true, OnRequest(AdmitPrepare(true, SessionKept))));
    ss, es := Extend(build, ss, es, Event(true, OnPrepare(AcquirePower(true))));
  }

  lemma Prepare(build: Build) returns (ss: seq<Board>, es: seq<Event>)
    ensures IsRun(build, ss, es) && |ss| == |es| + 1 && StopsBeforeOff(ss, es) && Prepared(ss[|es|])
  {
    hide IsRun, StartsPowered, StopsBeforeOff;
    ss, es := Acquire(build);
    ss, es := Extend(build, ss, es, Event(true, OnPrepare(PublishLease)));
    ss, es := Extend(build, ss, es, Event(true, OnCold(ColdBegin(false))));
    ss, es := Extend(build, ss, es, Event(true, OnCold(ColdEnd(Completed))));
    ss, es := Extend(build, ss, es, Event(true, OnLease(ArmLease)));
  }

  /** A start on a lease that nobody consumed, followed by another prepare, leaves a lease held with no
      timeout: admission drained the timer and then turned the request away as busy. */
  lemma LeaseStartLosesTimeout(build: Build) returns (ss: seq<Board>, es: seq<Event>)
    ensures IsRun(build, ss, es) && StopsBeforeOff(ss, es)
    ensures var d := ss[|es|].me;
            d.own.lease && d.txn.Idle? && d.request.Free? && !d.dying && d.timer.pending == 0 && d.timer.firing == 0
  {
    hide IsRun, StartsPowered, StopsBeforeOff;
    ss, es := Prepare(build);
    ss, es := Extend(build, ss, es, Event(true, OnStream(StreamBind(HD))));
    ss, es := Extend(build, ss, es, Event(true, OnStream(StreamCheck)));
    ss, es := Extend(build, ss, es, Event(true, OnStream(StreamReplay(true))));
    ss, es := Extend(build, ss, es, Event(true, OnStream(StreamCommit)));
    ss, es := Extend(build, ss, es, Event(true, OnRequest(RequestPrepare(HD, 2))));
    ss, es := Extend(build, ss, es, Event(true, OnRequest(AdmitPrepare(true, SessionKept))));
  }

  /** Why reservations are said to agree only while neither instance is being removed: the conflict test leaves a
      dying instance out, so its sibling may bind another rate in the same epoch.  No pulse serves the dying one
      any more (`PulsesAreReserved`). */
  lemma RemovalLetsRatesDiffer(build: Build) returns (ss: seq<Board>, es: seq<Event>)
    ensures PoweredRun(build, ss, es) && StopsBeforeOff(ss, es)
    ensures var b := ss[|es|];
            && b.me.dying && !b.peer.dying && Reserves(b.me, b.epoch) && Reserves(b.peer, b.epoch)
            && b.me.net.reserved == 30 && b.peer.net.reserved == 25
  {
    hide IsRun, StartsPowered, StopsBeforeOff;
    ss, es := [START], [];
    NothingDone(build);
    ss, es := Extend(build, ss, es, Event(true, OnPower(PowerOn(true))));
    ss, es := Extend(build, ss, es, Event(true, OnStream(StreamBind(HD))));
    ss, es := Extend(build, ss, es, Event(true, OnRemove(RemoveBegin)));
    ss, es := Extend(build, ss, es, Event(false, OnPower(PowerOn(true))));
    ss, es := Extend(build, ss, es, Event(false, OnStream(StreamBind(HD.(fps := 25)))));
  }
}
