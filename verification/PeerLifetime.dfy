/** The raw links between the two instances: when they are published, who may follow them, and how a
    remove takes them back before its storage is freed. */
module PeerLifetime {
  /** Where an instance is in its life.  The stages of a removal are the points between which the other
      threads can run; it remembers whether the other side referenced it, and whether it stopped the other
      side's worker. */
  datatype Phase =
    | Absent
    | Probing
    | Bound
    | Removing(stage: Stage, referenced: bool, stopped: bool)

  datatype Stage = Dying | Resolved | PeerStopped | Unlinked | PeerRestarted | OwnStopped | OwnUnlinked

  /** A pointer into the storage of one life of an instance. */
  datatype Link = NoLink | To(life: nat)

  /** The FSYNC worker: between iterations, in a branch that uses no peer, or in the branch that found one
      and goes on using it over its sleeps. */
  datatype Worker = NoWorker | Idle | Alone | WithPeer(life: nat)

  /** One instance.  `life` counts its probes, `published` is its I2C client data. */
  datatype Slot = Slot(phase: Phase, life: nat, published: bool, ready: bool, dying: bool, link: Link, worker: Worker)

  datatype Board = Board(me: Slot, peer: Slot) {
    function Swap(): Board {
      Board(peer, me)
    }
  }

  const UNBOUND := Slot(Absent, 0, false, false, false, NoLink, NoWorker)
  const START := Board(UNBOUND, UNBOUND)

  predicate Alive(s: Slot) {
    s.phase != Absent
  }

  /** A pointer that may be followed: it names the life the storage is in. */
  predicate Live(link: Link, s: Slot) {
    link.To? && Alive(s) && link.life == s.life
  }

  // ----- steps -----

  datatype Op =
    | Allocate
    | PublishClient
    | StartWorker
    | FailProbe
    | Commit
    | Relink
    | EnterIteration
    | FollowInIteration
    | LeaveIteration
    | FollowUnderPowerLock
    | BeginRemove
    | Resolve
    | StopPeerWorker
    | Unlink
    | RestartPeerWorker(ok: bool)
    | StopOwnWorker
    | UnlinkOwn
    | Free

  predicate RemovingAt(s: Slot, stage: Stage) {
    s.phase.Removing? && s.phase.stage == stage
  }

  function Next(s: Slot, stage: Stage): Slot
    requires s.phase.Removing?
  {
    s.(phase := Removing(stage, s.phase.referenced, s.phase.stopped))
  }

  predicate Stopped(w: Worker) {
    w == NoWorker || w == Idle
  }

  /** max9296_ready_shared_peer_locked(): both sides are committed and neither is being removed. */
  predicate CanLink(b: Board) {
    b.me.ready && !b.me.dying && b.peer.published && b.peer.ready && !b.peer.dying
  }

  function Linked(b: Board): Board {
    if CanLink(b) then Board(b.me.(link := To(b.peer.life)), b.peer.(link := To(b.me.life))) else b
  }

  /** What a remove finds out about the other side: it is committed and holds a link to this life. */
  predicate PeerReferences(b: Board) {
    b.peer.published && b.peer.ready && !b.peer.dying && b.peer.link == To(b.me.life)
  }

  predicate Enabled(b: Board, op: Op) {
    var me := b.me;
    match op
    case Allocate => me.phase == Absent
    case PublishClient => me.phase == Probing
    case StartWorker => me.phase == Probing && me.worker == NoWorker
    case FailProbe => me.phase == Probing && Stopped(me.worker)
    case Commit => me.phase == Probing && me.published
    case Relink => Alive(me)
    case EnterIteration => me.worker == Idle
    case FollowInIteration => me.worker.WithPeer?
    case LeaveIteration => me.worker == Alone || me.worker.WithPeer?
    case FollowUnderPowerLock => Alive(me) && me.link != NoLink
    case BeginRemove => me.phase == Bound && !b.peer.phase.Removing?
    case Resolve => RemovingAt(me, Dying)
    case StopPeerWorker => RemovingAt(me, Resolved) && (me.phase.referenced ==> Stopped(b.peer.worker))
    case Unlink => RemovingAt(me, PeerStopped)
    case RestartPeerWorker(_) => RemovingAt(me, Unlinked)
    case StopOwnWorker => RemovingAt(me, PeerRestarted) && Stopped(me.worker)
    case UnlinkOwn => RemovingAt(me, OwnStopped)
    case Free => RemovingAt(me, OwnUnlinked)
  }

  function Apply(b: Board, op: Op): Board
    requires Enabled(b, op)
  {
    var me, peer := b.me, b.peer;
    match op
    case Allocate => b.(me := Slot(Probing, me.life + 1, false, false, false, NoLink, NoWorker))
    case PublishClient => b.(me := me.(published := true))
    case StartWorker => b.(me := me.(worker := Idle))
    case FailProbe => b.(me := Slot(Absent, me.life, false, false, false, NoLink, NoWorker))
    case Commit => Linked(b.(me := me.(phase := Bound, ready := true)))
    case Relink => Linked(b)
    case EnterIteration => b.(me := me.(worker := if me.link == NoLink then Alone else WithPeer(me.link.life)))
    case FollowInIteration => b
    case LeaveIteration => b.(me := me.(worker := Idle))
    case FollowUnderPowerLock => b
    case BeginRemove => b.(me := me.(phase := Removing(Dying, false, false), dying := true))
    case Resolve => b.(me := me.(phase := Removing(Resolved, PeerReferences(b), false), ready := false))
    case StopPeerWorker =>
      if !me.phase.referenced then b.(me := Next(me, PeerStopped))
      else Board(me.(phase := Removing(PeerStopped, true, peer.worker != NoWorker)), peer.(worker := NoWorker))
    case Unlink =>
      Board(Next(me, Unlinked), if me.phase.referenced && peer.link == To(me.life) then peer.(link := NoLink) else peer)
    case RestartPeerWorker(ok) =>
      Board(Next(me, PeerRestarted),
            if me.phase.stopped && ok then peer.(worker := Idle) else peer)
    case StopOwnWorker => b.(me := Next(me, OwnStopped).(worker := NoWorker))
    case UnlinkOwn => b.(me := Next(me, OwnUnlinked).(link := NoLink))
    case Free => b.(me := Slot(Absent, me.life, false, false, false, NoLink, NoWorker))
  }

  /** A step taken by one of the two instances. */
  datatype Event = Event(swapped: bool, op: Op)

  predicate CanStep(b: Board, e: Event) {
    Enabled(if e.swapped then b.Swap() else b, e.op)
  }

  function Step(b: Board, e: Event): Board
    requires CanStep(b, e)
  {
    if e.swapped then Apply(b.Swap(), e.op).Swap() else Apply(b, e.op)
  }

  ghost predicate IsRun(bs: seq<Board>, es: seq<Event>) {
    && |bs| == |es| + 1
    && bs[0] == START
    && forall i, n :: 0 <= i < |es| && n == i + 1 ==> CanStep(bs[i], es[i]) && bs[n] == Step(bs[i], es[i])
  }

  lemma TakeStep(bs: seq<Board>, es: seq<Event>, i: nat)
    requires IsRun(bs, es) && i < |es|
    ensures CanStep(bs[i], es[i]) && bs[i + 1] == Step(bs[i], es[i])
  {
    var n := i + 1;
    assert bs[n] == bs[i + 1];
  }

  // ----- what every run keeps -----

  predicate WellFormed(s: Slot) {
    && (s.dying <==> s.phase.Removing?)
    && (s.ready ==> s.published && (s.phase == Bound || RemovingAt(s, Dying)))
    && (s.phase == Bound ==> s.ready && s.published)
    && (s.link != NoLink ==> s.phase == Bound || s.phase.Removing?)
    && (RemovingAt(s, OwnUnlinked) ==> s.link == NoLink)
    && (RemovingAt(s, OwnStopped) || RemovingAt(s, OwnUnlinked) ==> s.worker == NoWorker)
    && (s.phase == Absent ==> s.worker == NoWorker && s.link == NoLink && !s.published)
    && (s.worker.WithPeer? ==> s.link == To(s.worker.life))
  }

  /** A remove that has seen the other side's link, and not yet finished with that side. */
  predicate Detaching(s: Slot) {
    && s.phase.Removing? && s.phase.referenced
    && (s.phase.stage == Resolved || s.phase.stage == PeerStopped || s.phase.stage == Unlinked)
  }

  /** A remove past the point where it withdrew readiness, up to which the other side may be linked to it. */
  predicate Withdrawn(s: Slot) {
    s.phase.Removing? && s.phase.stage != Dying
  }

  /** What holds between `s` and the other side: its link names storage that is there, and a removal of `s`
      leads the other side's link and worker away from it. */
  predicate Sound(s: Slot, other: Slot) {
    && (s.link != NoLink ==> s.link == To(other.life) && (other.phase == Bound || other.phase.Removing?))
    && (s.phase.Removing? ==> !other.phase.Removing?)
    && (Detaching(s) ==> other.phase == Bound)
    && (s.phase.Removing? && s.phase.stopped ==> s.phase.referenced)
    && (Withdrawn(s) && other.link == To(s.life) ==> Detaching(s) && s.phase.stage != Unlinked)
    && (Detaching(s) && s.phase.stage != Resolved ==> other.worker == NoWorker)
  }

  predicate Safe(b: Board) {
    WellFormed(b.me) && WellFormed(b.peer) && Sound(b.me, b.peer) && Sound(b.peer, b.me)
  }

  lemma ApplyKeepsSafe(b: Board, op: Op)
    requires Safe(b) && Enabled(b, op)
    ensures Safe(Apply(b, op))
  {
  }

  lemma StepKeepsSafe(b: Board, e: Event)
    requires Safe(b) && CanStep(b, e)
    ensures Safe(Step(b, e))
  {
    hide Apply, Enabled, WellFormed, Sound;
    ApplyKeepsSafe(if e.swapped then b.Swap() else b, e.op);
  }

  lemma {:induction false} SafeAlways(bs: seq<Board>, es: seq<Event>, i: nat)
    requires IsRun(bs, es) && i < |bs|
    ensures Safe(bs[i])
  {
    hide Step, CanStep;
    if i > 0 {
      SafeAlways(bs, es, i - 1);
      TakeStep(bs, es, i - 1);
      StepKeepsSafe(bs[i - 1], es[i - 1]);
    }
  }

  /** Two bound instances hold links to each other. */
  predicate Mutual(b: Board) {
    b.me.phase == Bound && b.peer.phase == Bound ==> b.me.link == To(b.peer.life) && b.peer.link == To(b.me.life)
  }

  lemma ApplyKeepsMutual(b: Board, op: Op)
    requires Safe(b) && Mutual(b) && Enabled(b, op)
    ensures Mutual(Apply(b, op))
  {
  }

  lemma StepKeepsMutual(b: Board, e: Event)
    requires Safe(b) && Mutual(b) && CanStep(b, e)
    ensures Mutual(Step(b, e))
  {
    hide Apply, Enabled, WellFormed, Sound;
    ApplyKeepsMutual(if e.swapped then b.Swap() else b, e.op);
  }

  // ----- main results -----

  /** And none is ever missing: whenever both instances are bound they are linked to each other, however often either
      was removed and probed again before. */
  lemma {:induction false} BoundInstancesAreLinked(bs: seq<Board>, es: seq<Event>, i: nat)
    requires IsRun(bs, es) && i < |bs|
    ensures Mutual(bs[i])
  {
    hide Step, CanStep, Safe, Mutual;
    if i == 0 {
      NobodyIsBound();
    } else {
      BoundInstancesAreLinked(bs, es, i - 1);
      SafeAlways(bs, es, i - 1);
      TakeStep(bs, es, i - 1);
      StepKeepsMutual(bs[i - 1], es[i - 1]);
    }
  }

  lemma NobodyIsBound()
    ensures Mutual(START)
  {
  }

  /** A remove records whether it stopped a worker of the other side, and starts it again unless that fails. */
  lemma StoppedWorkerComesBack(b: Board, ok: bool)
    requires Safe(b)
    ensures Enabled(b, StopPeerWorker) ==>
              var b' := Apply(b, StopPeerWorker);
              b'.me.phase.stopped <==> b.me.phase.referenced && b.peer.worker != NoWorker
    ensures Enabled(b, RestartPeerWorker(ok)) ==>
              var b' := Apply(b, RestartPeerWorker(ok));
              b'.peer.worker == if b.me.phase.stopped && ok then Idle else b.peer.worker
  {
  }

  /** A published link always names a live instance, on both sides, in every reachable state. */
  lemma PublishedLinksAreLive(bs: seq<Board>, es: seq<Event>, i: nat)
    requires IsRun(bs, es) && i < |bs|
    ensures bs[i].me.link != NoLink ==> Live(bs[i].me.link, bs[i].peer)
    ensures bs[i].peer.link != NoLink ==> Live(bs[i].peer.link, bs[i].me)
  {
    SafeAlways(bs, es, i);
  }

  /** The storage of the other side that a step touches is there: through the link the worker read at the
      start of its iteration and which has not changed since, through the link under a lock, through the
      client data while resolving, or through the pointer a remove holds. */
  predicate TouchesLiveStorage(b: Board, op: Op)
    requires Enabled(b, op)
  {
    match op
    case FollowInIteration => b.me.link == To(b.me.worker.life) && Live(b.me.link, b.peer)
    case FollowUnderPowerLock => Live(b.me.link, b.peer)
    case Commit => b.peer.published ==> Alive(b.peer)
    case Relink => b.peer.published ==> Alive(b.peer)
    case Resolve => b.peer.published ==> Alive(b.peer)
    case StopPeerWorker => b.me.phase.referenced ==> b.peer.phase == Bound
    case Unlink => b.me.phase.referenced ==> b.peer.phase == Bound
    case RestartPeerWorker(_) => b.me.phase.referenced ==> b.peer.phase == Bound
    case _ => true
  }

  /** No interleaving of probes, relinks, worker iterations, power paths and removes follows a pointer into
      storage that has been freed, or a link that was cleared under a worker still using it. */
  lemma EveryAccessIsLive(bs: seq<Board>, es: seq<Event>, i: nat)
    requires IsRun(bs, es) && i < |es|
    ensures CanStep(bs[i], es[i])
    ensures TouchesLiveStorage(if es[i].swapped then bs[i].Swap() else bs[i], es[i].op)
  {
    SafeAlways(bs, es, i);
    TakeStep(bs, es, i);
    AccessIsLive(if es[i].swapped then bs[i].Swap() else bs[i], es[i].op);
  }

  lemma AccessIsLive(b: Board, op: Op)
    requires Safe(b) && Enabled(b, op)
    ensures TouchesLiveStorage(b, op)
  {
  }

  /** No pointer to a life: neither a link nor one a worker holds over its sleeps. */
  predicate Forgotten(b: Board, life: nat) {
    && b.peer.link != To(life) && b.peer.worker != WithPeer(life)
    && b.me.worker == NoWorker && !Alive(b.me) && b.me.life == life
  }

  /** When a remove returns, nothing refers to what it frees, and its own workers are gone. */
  lemma RemoveReturnsClean(bs: seq<Board>, es: seq<Event>, i: nat)
    requires IsRun(bs, es) && i < |es| && es[i].op == Free
    ensures var n := i + 1; var b := if es[i].swapped then bs[n].Swap() else bs[n];
            Forgotten(b, b.me.life)
  {
    SafeAlways(bs, es, i);
    TakeStep(bs, es, i);
  }

  lemma {:induction false} LivesOnlyGrow(bs: seq<Board>, es: seq<Event>, i: nat, j: nat)
    requires IsRun(bs, es) && i <= j < |bs|
    ensures bs[i].me.life <= bs[j].me.life && bs[i].peer.life <= bs[j].peer.life
    ensures !Alive(bs[i].me) && Alive(bs[j].me) ==> bs[i].me.life < bs[j].me.life
    ensures !Alive(bs[i].peer) && Alive(bs[j].peer) ==> bs[i].peer.life < bs[j].peer.life
  {
    if i < j {
      LivesOnlyGrow(bs, es, i, j - 1);
      TakeStep(bs, es, j - 1);
      OneStepGrows(bs[j - 1], es[j - 1]);
    }
  }

  lemma OneStepGrows(b: Board, e: Event)
    requires CanStep(b, e)
    ensures var n := Step(b, e);
            && b.me.life <= n.me.life && b.peer.life <= n.peer.life
            && (!Alive(b.me) && Alive(n.me) ==> b.me.life < n.me.life)
            && (!Alive(b.peer) && Alive(n.peer) ==> b.peer.life < n.peer.life)
  {
    hide Apply, Enabled;
    ApplyGrows(if e.swapped then b.Swap() else b, e.op);
  }

  lemma ApplyGrows(b: Board, op: Op)
    requires Enabled(b, op)
    ensures var n := Apply(b, op);
            && b.me.life <= n.me.life && (!Alive(b.me) && Alive(n.me) ==> b.me.life < n.me.life)
            && b.peer.life == n.peer.life && b.peer.phase == n.peer.phase
  {
  }

  /** And nothing ever refers to it again, however often either side is probed later. */
  lemma FreedLifeStaysForgotten(bs: seq<Board>, es: seq<Event>, i: nat, j: nat)
    requires IsRun(bs, es) && i <= j < |bs|
    ensures !Alive(bs[i].me) ==> !Refers(bs[j].peer, bs[i].me.life)
    ensures !Alive(bs[i].peer) ==> !Refers(bs[j].me, bs[i].peer.life)
  {
    SafeAlways(bs, es, j);
    LivesOnlyGrow(bs, es, i, j);
  }

  /** A link to a life of the other side, published or held by the worker over its sleeps. */
  predicate Refers(s: Slot, life: nat) {
    s.link == To(life) || s.worker == WithPeer(life)
  }
}
