/** The lock hierarchy: every entry point of the driver as a tree of critical sections, and why no set of
    threads that run them can wait for each other in a circle. */
module LockOrder {
  datatype Id = First | Second

  function Other(i: Id): Id {
    if i == First then Second else First
  }

  /** What a thread can wait for: a mutex, or the end of a pass of something that is joined. */
  datatype Res =
    | RemoveLock
    | StorePass(i: Id)
    | RequestLock(i: Id)
    | TimeoutPass(i: Id)
    | EnablePass(i: Id)
    | FsyncPass(i: Id)
    | ResolverPass(i: Id)
    | SensorLock(i: Id)
    | FsyncConfigLock
    | PowerLock
    | SharedLock

  /** The order in which they may be waited for.  Both instances' locks of one kind share a rank. */
  function Rank(r: Res): nat {
    match r
    case RemoveLock => 0
    case StorePass(_) => 1
    case RequestLock(_) => 2
    case TimeoutPass(_) => 3
    case EnablePass(_) => 4
    case FsyncPass(_) => 5
    case ResolverPass(_) => 6
    case SensorLock(_) => 7
    case FsyncConfigLock => 8
    case PowerLock => 9
    case SharedLock => 10
  }

  // ----- the entry points -----

  /** A critical section and the sections it may contain, in order.  A join is a section with no content. */
  datatype Section = Under(res: Res, body: seq<Section>)

  function Take(r: Res): Section {
    Under(r, [])
  }

  /** Power, then the peer links, as in the shared cadence configuration. */
  const CONFIGURE := Under(PowerLock, [Take(SharedLock)])

  const DROP_CONTRACT := Under(FsyncConfigLock, [Take(PowerLock)])

  const UPDATE_CONTRACT := Under(FsyncConfigLock, [CONFIGURE])

  datatype EntryPoint =
    | SPower | FrameInterval | SetControl | StreamOn | StreamOff | PrepareStore | CancelStore | PrepareShow
    | LeaseTimeout | EnableWorker | FsyncWorker | SharedResolver | Probe | ResetCleanup | Remove

  /** What a prepare request does under its instance's lock: adopt or power, configure, invalidate, drop. */
  const PREPARE_BODY := [Take(PowerLock), UPDATE_CONTRACT,
                         Under(FsyncConfigLock, [Take(PowerLock), CONFIGURE, Take(PowerLock)]),
                         DROP_CONTRACT, Take(PowerLock)]

  /** The end of a lease: its reservation, then its power. */
  const END_LEASE_BODY := [DROP_CONTRACT, Take(PowerLock)]

  /** A stream start: bind, invalidate, drop after a failure, commit, drop when the commit was refused. */
  const START_BODY := [UPDATE_CONTRACT, Take(PowerLock), DROP_CONTRACT, Take(PowerLock), DROP_CONTRACT]

  /** The sections of an entry point of instance `i`, in the order its code takes them. */
  function Sections(e: EntryPoint, i: Id): seq<Section> {
    match e
    case SPower => [Under(SensorLock(i), [Take(PowerLock)])]
    case FrameInterval => [Under(SensorLock(i), [UPDATE_CONTRACT])]
    case SetControl => [Under(SensorLock(i), [Take(PowerLock)])]
    case StreamOn => [Under(RequestLock(i), [Under(SensorLock(i), START_BODY)])]
    case StreamOff => [Under(SensorLock(i), [Take(PowerLock), DROP_CONTRACT])]
    case PrepareStore =>
      [Under(StorePass(i), [Under(RequestLock(i), [Take(TimeoutPass(i)), Under(SensorLock(i), PREPARE_BODY)])])]
    case CancelStore =>
      [Under(StorePass(i), [Under(RequestLock(i), [Take(TimeoutPass(i)), Under(SensorLock(i), END_LEASE_BODY)])])]
    case PrepareShow => [Under(StorePass(i), [Under(SensorLock(i), [Take(PowerLock)])])]
    case LeaseTimeout => [Under(TimeoutPass(i), [Under(SensorLock(i), END_LEASE_BODY)])]
    case EnableWorker => [Under(EnablePass(i), [Under(SensorLock(i), [Take(PowerLock)])])]
    case FsyncWorker => [Under(FsyncPass(i), [Take(PowerLock)])]
    case SharedResolver => [Under(ResolverPass(i), [Take(SharedLock)])]
    case Probe =>
      [Take(PowerLock), Take(SharedLock), Take(SharedLock), Take(SharedLock), Take(StorePass(i)), Take(EnablePass(i)),
       Take(FsyncPass(i)), Take(ResolverPass(i)), Take(SharedLock)]
    case ResetCleanup => [Take(PowerLock)]
    case Remove => [Under(RemoveLock, RemoveOwn(i) + RemovePeer(Other(i)) + RemoveRest(i))]
  }

  /** Withdrawing admission and settling the instance's own accounts. */
  function RemoveOwn(i: Id): seq<Section> {
    [Take(PowerLock), Take(SharedLock), Take(StorePass(i)),
     Under(RequestLock(i), [Take(TimeoutPass(i)), Under(SensorLock(i), [Take(PowerLock)])])]
  }

  /** Taking the survivor's worker off the link, and stopping its stream when no worker can serve it. */
  function RemovePeer(p: Id): seq<Section> {
    [Under(RequestLock(p), [Take(FsyncPass(p)), CONFIGURE, Take(SharedLock),
                            Under(SensorLock(p), [Take(PowerLock), DROP_CONTRACT])])]
  }

  function RemoveRest(i: Id): seq<Section> {
    [Take(EnablePass(i)), Take(FsyncPass(i)), Take(ResolverPass(i)), Take(SharedLock), Take(StorePass(i)), Take(SharedLock)]
  }

  // ----- threads -----

  datatype Action = Acquire(r: Res) | Release(r: Res)

  /** A path through sections: each is skipped or passed through, which is what early exits come to. */
  ghost predicate IsPath(sections: seq<Section>, path: seq<Action>)
    decreases sections
  {
    if sections == [] then path == []
    else
      || IsPath(sections[1..], path)
      || exists inner, tail ::
           path == [Acquire(sections[0].res)] + inner + [Release(sections[0].res)] + tail
           && IsPath(sections[0].body, inner) && IsPath(sections[1..], tail)
  }

  /** A thread: what it holds, and what it will still do. */
  datatype Thread = Thread(held: set<Res>, rest: seq<Action>)

  predicate Waits(t: Thread) {
    t.rest != [] && t.rest[0].Acquire?
  }

  /** Thread `i` cannot go on while thread `j` holds what it wants. */
  predicate BlockedBy(ts: seq<Thread>, i: nat, j: nat)
    requires i < |ts| && j < |ts|
  {
    i != j && Waits(ts[i]) && ts[i].rest[0].r in ts[j].held
  }

  predicate CanGo(ts: seq<Thread>, i: nat)
    requires i < |ts|
  {
    ts[i].rest != [] && forall j :: 0 <= j < |ts| ==> !BlockedBy(ts, i, j)
  }

  function Advance(t: Thread): Thread
    requires t.rest != []
  {
    match t.rest[0]
    case Acquire(r) => Thread(t.held + {r}, t.rest[1..])
    case Release(r) => Thread(t.held - {r}, t.rest[1..])
  }

  /** A run: every thread starts on a path of an entry point, and one that can go on does. */
  ghost predicate Starts(ts: seq<Thread>) {
    forall i :: 0 <= i < |ts| ==> ts[i].held == {} && StartsEntry(ts[i].rest)
  }

  ghost predicate StartsEntry(path: seq<Action>) {
    exists e, i :: IsPath(Sections(e, i), path)
  }

  /** `who` lists the thread that goes on at each step. */
  ghost predicate Reaches(start: seq<Thread>, who: seq<nat>, ts: seq<Thread>)
    decreases |who|
  {
    if who == [] then start == ts
    else exists before, i ::
      i == who[|who| - 1] && Reaches(start, who[..|who| - 1], before) && i < |before| && CanGo(before, i)
      && ts == before[i := Advance(before[i])]
  }

  // ----- the discipline -----

  predicate AllBelow(held: set<Res>, r: Res) {
    forall h :: h in held ==> Rank(h) < Rank(r)
  }

  /** The rest of a path acquires in increasing rank over what is held, releases only what is held, and
      ends with nothing held. */
  predicate Disciplined(held: set<Res>, rest: seq<Action>)
    decreases |rest|
  {
    if rest == [] then held == {}
    else match rest[0]
      case Acquire(r) => AllBelow(held, r) && Disciplined(held + {r}, rest[1..])
      case Release(r) => r in held && Disciplined(held - {r}, rest[1..])
  }

  /** Every section's resource ranks above all that enclose it. */
  predicate Ordered(sections: seq<Section>, floor: int)
    decreases sections
  {
    forall k :: 0 <= k < |sections| ==> OrderedOne(sections[k], floor)
  }

  predicate OrderedOne(s: Section, floor: int)
    decreases s
  {
    Rank(s.res) > floor && Ordered(s.body, Rank(s.res))
  }

  lemma TakesAreOrdered(floor: int)
    ensures forall r :: Rank(r) > floor ==> OrderedOne(Take(r), floor)
  {
  }

  lemma JoinsAreOrdered(sections: seq<Section>, floor: int)
    requires forall k :: 0 <= k < |sections| ==> sections[k].body == [] && Rank(sections[k].res) > floor
    ensures Ordered(sections, floor)
  {
  }

  /** A section is in order when what it contains is in order above it. */
  lemma Wrapped(r: Res, body: seq<Section>, floor: int)
    requires Rank(r) > floor && Ordered(body, Rank(r))
    ensures OrderedOne(Under(r, body), floor) && Ordered([Under(r, body)], floor)
  {
  }

  /** The transactions several entry points share. */
  lemma SharedPartsAreOrdered()
    ensures OrderedOne(CONFIGURE, 8) && OrderedOne(DROP_CONTRACT, 7) && OrderedOne(UPDATE_CONTRACT, 7)
    ensures Ordered(PREPARE_BODY, 7)
  {
    TakesAreOrdered(9);
    TakesAreOrdered(8);
    TakesAreOrdered(7);
    var whole := Under(FsyncConfigLock, [Take(PowerLock), CONFIGURE, Take(PowerLock)]);
    assert OrderedOne(CONFIGURE, 8);
    assert OrderedOne(DROP_CONTRACT, 7) && OrderedOne(UPDATE_CONTRACT, 7) && OrderedOne(whole, 7);
  }

  lemma RemoveOwnIsOrdered(i: Id)
    ensures Ordered(RemoveOwn(i), 0)
  {
    TakesAreOrdered(7);
    TakesAreOrdered(2);
    TakesAreOrdered(0);
    var own := Under(SensorLock(i), [Take(PowerLock)]);
    Wrapped(SensorLock(i), [Take(PowerLock)], 2);
    Wrapped(RequestLock(i), [Take(TimeoutPass(i)), own], 0);
  }

  lemma RemovePeerIsOrdered(p: Id)
    ensures Ordered(RemovePeer(p), 0)
  {
    SharedPartsAreOrdered();
    TakesAreOrdered(7);
    TakesAreOrdered(2);
    Wrapped(SensorLock(p), [Take(PowerLock), DROP_CONTRACT], 2);
    Wrapped(PowerLock, [Take(SharedLock)], 2);
  }

  lemma RemoveRestIsOrdered(i: Id)
    ensures Ordered(RemoveRest(i), 0)
  {
    JoinsAreOrdered(RemoveRest(i), 0);
  }

  lemma RemoveIsOrdered(i: Id)
    ensures Ordered(Sections(Remove, i), -1)
  {
    hide RemoveOwn, RemovePeer, RemoveRest, Ordered, OrderedOne;
    RemoveOwnIsOrdered(i);
    RemovePeerIsOrdered(Other(i));
    RemoveRestIsOrdered(i);
    var body := RemoveOwn(i) + RemovePeer(Other(i)) + RemoveRest(i);
    assert Ordered(body, 0) by {
      OrderedJoin(RemoveOwn(i), RemovePeer(Other(i)), 0);
      OrderedJoin(RemoveOwn(i) + RemovePeer(Other(i)), RemoveRest(i), 0);
    }
    Wrapped(RemoveLock, body, -1);
  }

  lemma OrderedJoin(a: seq<Section>, b: seq<Section>, floor: int)
    requires Ordered(a, floor) && Ordered(b, floor)
    ensures Ordered(a + b, floor)
  {
  }

  lemma PrepareAndCancelAreOrdered(i: Id)
    ensures Ordered(Sections(PrepareStore, i), -1) && Ordered(Sections(CancelStore, i), -1)
  {
    SharedPartsAreOrdered();
    TakesAreOrdered(7);
    TakesAreOrdered(2);
    var prepare := Under(SensorLock(i), PREPARE_BODY);
    var cancel := Under(SensorLock(i), END_LEASE_BODY);
    Wrapped(SensorLock(i), PREPARE_BODY, 2);
    Wrapped(SensorLock(i), END_LEASE_BODY, 2);
    Wrapped(RequestLock(i), [Take(TimeoutPass(i)), prepare], 1);
    Wrapped(RequestLock(i), [Take(TimeoutPass(i)), cancel], 1);
    Wrapped(StorePass(i), [Under(RequestLock(i), [Take(TimeoutPass(i)), prepare])], -1);
    Wrapped(StorePass(i), [Under(RequestLock(i), [Take(TimeoutPass(i)), cancel])], -1);
  }

  lemma StreamOnIsOrdered(i: Id)
    ensures Ordered(Sections(StreamOn, i), -1)
  {
    SharedPartsAreOrdered();
    TakesAreOrdered(7);
    Wrapped(SensorLock(i), START_BODY, 2);
    Wrapped(RequestLock(i), [Under(SensorLock(i), START_BODY)], -1);
  }

  lemma EndsAreOrdered(i: Id)
    ensures Ordered(Sections(LeaseTimeout, i), -1) && Ordered(Sections(StreamOff, i), -1)
    ensures Ordered(Sections(FrameInterval, i), -1)
  {
    SharedPartsAreOrdered();
    TakesAreOrdered(7);
    Wrapped(SensorLock(i), END_LEASE_BODY, 3);
    Wrapped(TimeoutPass(i), [Under(SensorLock(i), END_LEASE_BODY)], -1);
    Wrapped(SensorLock(i), [Take(PowerLock), DROP_CONTRACT], -1);
    Wrapped(SensorLock(i), [UPDATE_CONTRACT], -1);
  }

  lemma FlatEntriesAreOrdered(e: EntryPoint, i: Id)
    requires e in {FsyncWorker, SharedResolver, Probe, ResetCleanup}
    ensures Ordered(Sections(e, i), -1)
  {
    if e.FsyncWorker? || e.SharedResolver? {
      TakesAreOrdered(5);
      TakesAreOrdered(6);
      Wrapped(FsyncPass(i), [Take(PowerLock)], -1);
      Wrapped(ResolverPass(i), [Take(SharedLock)], -1);
    } else {
      JoinsAreOrdered(Sections(e, i), -1);
    }
  }

  lemma PowerEntriesAreOrdered(e: EntryPoint, i: Id)
    requires e in {SPower, SetControl, PrepareShow, EnableWorker}
    ensures Ordered(Sections(e, i), -1)
  {
    TakesAreOrdered(7);
    Wrapped(SensorLock(i), [Take(PowerLock)], 4);
    Wrapped(SensorLock(i), [Take(PowerLock)], 1);
    Wrapped(SensorLock(i), [Take(PowerLock)], -1);
    Wrapped(EnablePass(i), [Under(SensorLock(i), [Take(PowerLock)])], -1);
    Wrapped(StorePass(i), [Under(SensorLock(i), [Take(PowerLock)])], -1);
  }

  /** The tree of every entry point obeys the order. */
  lemma EntriesAreOrdered(e: EntryPoint, i: Id)
    ensures Ordered(Sections(e, i), -1)
  {
    hide Ordered, Sections;
    match e
    case PrepareStore => PrepareAndCancelAreOrdered(i);
    case CancelStore => PrepareAndCancelAreOrdered(i);
    case Remove => RemoveIsOrdered(i);
    case StreamOn => StreamOnIsOrdered(i);
    case LeaseTimeout => EndsAreOrdered(i);
    case StreamOff => EndsAreOrdered(i);
    case FrameInterval => EndsAreOrdered(i);
    case SPower => PowerEntriesAreOrdered(e, i);
    case SetControl => PowerEntriesAreOrdered(e, i);
    case PrepareShow => PowerEntriesAreOrdered(e, i);
    case EnableWorker => PowerEntriesAreOrdered(e, i);
    case _ => FlatEntriesAreOrdered(e, i);
  }

  lemma SplitNothing(path: seq<Action>)
    requires IsPath([], path)
    ensures path == []
  {
  }

  lemma SplitPath(sections: seq<Section>, path: seq<Action>) returns (inner: seq<Action>, tail: seq<Action>)
    requires sections != [] && IsPath(sections, path) && !IsPath(sections[1..], path)
    ensures path == [Acquire(sections[0].res)] + inner + [Release(sections[0].res)] + tail
    ensures IsPath(sections[0].body, inner) && IsPath(sections[1..], tail)
  {
    inner, tail :|
      path == [Acquire(sections[0].res)] + inner + [Release(sections[0].res)] + tail
      && IsPath(sections[0].body, inner) && IsPath(sections[1..], tail);
  }

  lemma PathParts(r: Res, inner: seq<Action>, tail: seq<Action>, rest: seq<Action>)
    ensures [Acquire(r)] + inner + [Release(r)] + tail + rest == [Acquire(r)] + (inner + ([Release(r)] + (tail + rest)))
  {
  }

  lemma FirstIsOrdered(sections: seq<Section>, floor: int)
    requires sections != [] && Ordered(sections, floor)
    ensures Rank(sections[0].res) > floor && Ordered(sections[0].body, Rank(sections[0].res))
    ensures Ordered(sections[1..], floor)
  {
    assert OrderedOne(sections[0], floor);
  }

  lemma ReleaseFits(held: set<Res>, r: Res, next: seq<Action>)
    requires r !in held && Disciplined(held, next)
    ensures Disciplined(held + {r}, [Release(r)] + next)
  {
    assert held + {r} - {r} == held;
    assert ([Release(r)] + next)[1..] == next;
  }

  lemma AcquireFits(held: set<Res>, r: Res, next: seq<Action>)
    requires AllBelow(held, r) && Disciplined(held + {r}, next)
    ensures Disciplined(held, [Acquire(r)] + next)
  {
    assert ([Acquire(r)] + next)[1..] == next;
  }

  /** A path through ordered sections is disciplined, whatever it skips. */
  lemma {:induction false} PathIsDisciplined(sections: seq<Section>, floor: int, path: seq<Action>, held: set<Res>,
                                             rest: seq<Action>)
    requires Ordered(sections, floor) && IsPath(sections, path)
    requires (forall h :: h in held ==> Rank(h) <= floor) && Disciplined(held, rest)
    ensures Disciplined(held, path + rest)
    decreases sections
  {
    hide Ordered, OrderedOne, Disciplined, IsPath;
    if sections == [] {
      SplitNothing(path);
      assert path + rest == rest;
    } else if IsPath(sections[1..], path) {
      FirstIsOrdered(sections, floor);
      PathIsDisciplined(sections[1..], floor, path, held, rest);
    } else {
      var r := sections[0].res;
      var inner, tail := SplitPath(sections, path);
      FirstIsOrdered(sections, floor);
      PathIsDisciplined(sections[1..], floor, tail, held, rest);
      var after := [Release(r)] + (tail + rest);
      ReleaseFits(held, r, tail + rest);
      PathIsDisciplined(sections[0].body, Rank(r), inner, held + {r}, after);
      AcquireFits(held, r, inner + after);
      assert path + rest == [Acquire(r)] + (inner + after) by {
        PathParts(r, inner, tail, rest);
      }
    }
  }

  lemma EntryIsDisciplined(path: seq<Action>)
    requires StartsEntry(path)
    ensures Disciplined({}, path)
  {
    var e, i :| IsPath(Sections(e, i), path);
    EntriesAreOrdered(e, i);
    PathIsDisciplined(Sections(e, i), -1, path, {}, []);
    assert path + [] == path;
  }

  /** One lock of a kind at a time: no thread holds two resources of the same rank. */
  predicate OneOfAKind(held: set<Res>) {
    forall a, b :: a in held && b in held && Rank(a) == Rank(b) ==> a == b
  }

  ghost predicate AllDisciplined(ts: seq<Thread>) {
    forall i :: 0 <= i < |ts| ==> Disciplined(ts[i].held, ts[i].rest) && OneOfAKind(ts[i].held)
  }

  lemma {:induction false} ReachedIsDisciplined(start: seq<Thread>, who: seq<nat>, ts: seq<Thread>)
    requires Starts(start) && Reaches(start, who, ts)
    ensures AllDisciplined(ts)
    decreases |who|
  {
    if who == [] {
      forall i | 0 <= i < |ts|
        ensures Disciplined(ts[i].held, ts[i].rest) && OneOfAKind(ts[i].held)
      {
        EntryIsDisciplined(ts[i].rest);
      }
    } else {
      var before, i :|
        i == who[|who| - 1] && Reaches(start, who[..|who| - 1], before) && i < |before| && CanGo(before, i)
        && ts == before[i := Advance(before[i])];
      ReachedIsDisciplined(start, who[..|who| - 1], before);
    }
  }

  // ----- no deadlock -----

  /** Threads that wait for one another only: each is blocked by one of them. */
  ghost predicate Circle(ts: seq<Thread>, d: set<nat>) {
    && d != {}
    && (forall i :: i in d ==> i < |ts|)
    && (forall i {:trigger Stuck(ts, i, d)} :: i in d ==> Stuck(ts, i, d))
  }

  ghost predicate Stuck(ts: seq<Thread>, i: nat, d: set<nat>)
    requires forall k :: k in d ==> k < |ts|
  {
    i in d && exists j :: j in d && BlockedBy(ts, i, j)
  }

  function Wanted(t: Thread): nat
    requires Waits(t)
  {
    Rank(t.rest[0].r)
  }

  lemma {:induction false} HighestWish(ts: seq<Thread>, d: set<nat>) returns (top: nat)
    requires d != {} && forall i :: i in d ==> i < |ts| && Waits(ts[i])
    ensures top in d && forall i :: i in d ==> Wanted(ts[i]) <= Wanted(ts[top])
    decreases d
  {
    var x :| x in d;
    if d == {x} {
      top := x;
    } else {
      var y := HighestWish(ts, d - {x});
      top := if Wanted(ts[x]) <= Wanted(ts[y]) then y else x;
    }
  }

  lemma BlockerWantsMore(t: Thread, holder: Thread)
    requires Waits(t) && Waits(holder) && t.rest[0].r in holder.held && Disciplined(holder.held, holder.rest)
    ensures Wanted(t) < Wanted(holder)
  {
  }

  lemma CircleWaits(ts: seq<Thread>, d: set<nat>)
    requires Circle(ts, d)
    ensures forall i :: i in d ==> i < |ts| && Waits(ts[i])
  {
    forall i | i in d
      ensures Waits(ts[i])
    {
      assert Stuck(ts, i, d);
    }
  }

  lemma NoCircle(ts: seq<Thread>, d: set<nat>)
    requires AllDisciplined(ts)
    ensures !Circle(ts, d)
  {
    hide Disciplined, OneOfAKind, Wanted;
    if Circle(ts, d) {
      CircleWaits(ts, d);
      var top := HighestWish(ts, d);
      assert Stuck(ts, top, d);
      var j :| j in d && BlockedBy(ts, top, j);
      BlockerWantsMore(ts[top], ts[j]);
    }
  }

  /** However many threads run whichever entry points of either instance, and however they interleave: no
      group of them is ever stuck waiting for one another, joins included. */
  lemma NeverDeadlocked(start: seq<Thread>, who: seq<nat>, ts: seq<Thread>, d: set<nat>)
    requires Starts(start) && Reaches(start, who, ts)
    ensures !Circle(ts, d)
  {
    ReachedIsDisciplined(start, who, ts);
    NoCircle(ts, d);
  }

  /** So as long as some thread is not done, some thread can go on. */
  lemma SomeThreadCanGo(start: seq<Thread>, who: seq<nat>, ts: seq<Thread>, unfinished: nat) returns (i: nat)
    requires Starts(start) && Reaches(start, who, ts) && unfinished < |ts| && ts[unfinished].rest != []
    ensures i < |ts| && CanGo(ts, i)
  {
    if forall k :: 0 <= k < |ts| ==> !CanGo(ts, k) {
      var d := set k: nat | k < |ts| && ts[k].rest != [];
      ReachedIsDisciplined(start, who, ts);
      assert unfinished in d;
      forall k | k in d
        ensures Stuck(ts, k, d)
      {
        assert !CanGo(ts, k);
        var j :| 0 <= j < |ts| && BlockedBy(ts, k, j);
        assert Disciplined(ts[j].held, ts[j].rest);
      }
      NeverDeadlocked(start, who, ts, d);
      assert false;
    } else {
      i :| 0 <= i < |ts| && CanGo(ts, i);
    }
  }

  /** No thread ever holds the same kind of lock of both instances. */
  lemma NeverBothInstances(start: seq<Thread>, who: seq<nat>, ts: seq<Thread>, k: nat)
    requires Starts(start) && Reaches(start, who, ts) && k < |ts|
    ensures !(SensorLock(First) in ts[k].held && SensorLock(Second) in ts[k].held)
    ensures !(RequestLock(First) in ts[k].held && RequestLock(Second) in ts[k].held)
  {
    ReachedIsDisciplined(start, who, ts);
  }
}
