/** Ownership of the board reset line: one descriptor, requested by whichever instance declares it, kept
    across an unbind while the other instance holds power, and put back exactly once. */
module ResetLine {
  datatype Id = First | Second

  datatype Owner = NoOwner | OwnedBy(id: Id)

  /** The electrical state as this driver left it.  A descriptor that was put leaves the line floating. */
  datatype Level = Floating | Asserted | Released

  /** `kept` is the board's descriptor; `own1` and `own2` are the instances' copies of it. */
  datatype State = State(kept: bool, owner: Owner, own1: bool, own2: bool, users: nat, requests: nat, puts: nat,
                         level: Level)
  {
    predicate Own(id: Id) {
      if id == First then own1 else own2
    }

    function WithOwn(id: Id, value: bool): State {
      if id == First then this.(own1 := value) else this.(own2 := value)
    }
  }

  const START := State(false, NoOwner, false, false, 0, 0, 0, Floating)

  datatype Op =
    /** A probe: whether it declares the line, what the request returns, whether the cleanup registers. */
    | Acquire(id: Id, declared: bool, failed: bool, present: bool, registered: bool)
    /** The cleanup of an unbind or of a probe that failed later. */
    | Release(id: Id)
    | PowerOn(id: Id, directionOk: bool)
    | PowerOff(id: Id, directionOk: bool)
    /** The accounting step of a remove. */
    | Account(accounted: bool)

  function PutOrphan(s: State): State {
    if s.users > 0 || s.owner != NoOwner || !s.kept then s
    else s.(kept := false, puts := s.puts + 1, level := Floating)
  }

  function AcquireStep(s: State, id: Id, declared: bool, failed: bool, present: bool, registered: bool): State {
    if !declared || s.owner != NoOwner || (!s.kept && (failed || !present)) then s
    else
      var s1 := if s.kept then s
                else s.(requests := s.requests + 1, level := if s.users > 0 then s.level else Asserted);
      if registered then s1.WithOwn(id, true).(kept := true, owner := OwnedBy(id))
      else if s.kept then s1
      else if s.users > 0 then s1.(kept := true)
      else s1.(puts := s1.puts + 1, level := Floating)
  }

  function PowerOnStep(s: State, id: Id, directionOk: bool): State {
    if s.users > 0 then s.(users := s.users + 1)
    else if !s.kept && !s.Own(id) then s.(users := 1)
    else if directionOk then s.(users := 1, level := Released)
    else s
  }

  function PowerOffStep(s: State, id: Id, directionOk: bool): State {
    if s.users == 0 then s
    else if s.users > 1 then s.(users := s.users - 1)
    else
      var driven := (s.kept || s.Own(id)) && directionOk;
      PutOrphan(s.(users := 0, level := if driven then Asserted else s.level))
  }

  function Step(s: State, op: Op): State {
    match op
    case Acquire(id, declared, failed, present, registered) => AcquireStep(s, id, declared, failed, present, registered)
    case Release(id) =>
      if s.owner != OwnedBy(id) then s else PutOrphan(s.WithOwn(id, false).(owner := NoOwner))
    case PowerOn(id, directionOk) => PowerOnStep(s, id, directionOk)
    case PowerOff(id, directionOk) => PowerOffStep(s, id, directionOk)
    case Account(accounted) => PutOrphan(if accounted && s.users > 0 then s.(users := s.users - 1) else s)
  }

  function After(ops: seq<Op>): State {
    if ops == [] then START else Step(After(ops[..|ops| - 1]), ops[|ops| - 1])
  }

  lemma AfterOneMore(ops: seq<Op>, op: Op)
    ensures After(ops + [op]) == Step(After(ops), op)
  {
    hide Step;
    assert (ops + [op])[..|ops|] == ops;
  }

  // ----- what every run keeps -----

  predicate Balanced(s: State) {
    s.requests - s.puts == if s.kept then 1 else 0
  }

  /** A kept descriptor has an owner or a board in use; an owner has it, and only the owner has a copy. */
  predicate Accounted(s: State) {
    && (s.kept && s.owner == NoOwner ==> s.users > 0)
    && (s.owner != NoOwner ==> s.kept)
    && (forall id :: s.Own(id) <==> s.owner == OwnedBy(id))
  }

  /** The line is never asserted while the board is in use, and nothing has let go of a released line. */
  predicate LineSafe(s: State) {
    && (s.level == Asserted ==> s.users == 0)
    && (s.level != Floating ==> s.kept)
  }

  predicate Safe(s: State) {
    Balanced(s) && Accounted(s) && LineSafe(s)
  }

  lemma StepKeepsSafe(s: State, op: Op)
    requires Safe(s)
    ensures Safe(Step(s, op))
  {
  }

  /** Over every sequence of binds, unbinds, failed actions and power transitions: requests and puts differ
      by the one descriptor that is kept, a kept descriptor without an owner means the board is in use, and
      a board in use never has its line asserted. */
  lemma {:induction false} ResetLineIsAccounted(ops: seq<Op>)
    ensures Safe(After(ops))
  {
    if ops != [] {
      ResetLineIsAccounted(ops[..|ops| - 1]);
      StepKeepsSafe(After(ops[..|ops| - 1]), ops[|ops| - 1]);
    }
  }

  /** The board stays in use over a stretch of operations. */
  predicate InUseThroughout(before: seq<Op>, ops: seq<Op>) {
    After(before + ops).users > 0 && (ops != [] ==> InUseThroughout(before, ops[..|ops| - 1]))
  }

  lemma StepHoldsLevel(s: State, op: Op)
    requires Safe(s) && s.users > 0 && Step(s, op).users > 0
    ensures Step(s, op).level == s.level
    ensures s.kept ==> Step(s, op).kept && Step(s, op).puts == s.puts
  {
  }

  /** While the board stays in use the level of the line does not change and its descriptor is not let go,
      whoever unbinds, probes again or fails to. */
  lemma {:induction false} LevelHoldsWhileInUse(before: seq<Op>, ops: seq<Op>)
    requires InUseThroughout(before, ops)
    ensures After(before + ops).level == After(before).level
    ensures After(before).kept ==> After(before + ops).kept && After(before + ops).puts == After(before).puts
  {
    if ops == [] {
      assert before + ops == before;
    } else {
      hide After, Step, Safe;
      var shorter, last := ops[..|ops| - 1], ops[|ops| - 1];
      LevelHoldsWhileInUse(before, shorter);
      assert before + ops == before + shorter + [last];
      AfterOneMore(before + shorter, last);
      ResetLineIsAccounted(before + shorter);
      assert InUseThroughout(before, shorter);
      StepHoldsLevel(After(before + shorter), last);
    }
  }

  /** Every direction change is carried out, and the last user never leaves without a power-off. */
  predicate Driven(ops: seq<Op>) {
    ops != [] ==>
      && Driven(ops[..|ops| - 1])
      && match ops[|ops| - 1]
         case PowerOn(_, directionOk) => directionOk
         case PowerOff(_, directionOk) => directionOk
         case Account(accounted) => accounted ==> After(ops[..|ops| - 1]).users != 1
         case _ => true
  }

  /** Then a board at rest has its line asserted for as long as it has a descriptor at all. */
  lemma {:induction false} RestingLineIsAsserted(ops: seq<Op>)
    requires Driven(ops)
    ensures After(ops).kept && After(ops).users == 0 ==> After(ops).level == Asserted
  {
    hide After, Safe;
    if ops == [] {
      AfterNone();
    } else {
      var before, last := ops[..|ops| - 1], ops[|ops| - 1];
      RestingLineIsAsserted(before);
      ResetLineIsAccounted(before);
      AfterOneMore(before, last);
      assert before + [last] == ops;
      StepKeepsResting(After(before), last);
    }
  }

  lemma AfterNone()
    ensures After([]) == START
  {
  }

  lemma StepKeepsResting(s: State, op: Op)
    requires Safe(s) && (s.kept && s.users == 0 ==> s.level == Asserted)
    requires (op.PowerOn? || op.PowerOff? ==> op.directionOk) && (op.Account? && op.accounted ==> s.users != 1)
    ensures Step(s, op).kept && Step(s, op).users == 0 ==> Step(s, op).level == Asserted
  {
  }

  /** The copy an instance keeps is never used in place of the board's descriptor: it exists only with it. */
  lemma CopyNeverNeeded(ops: seq<Op>, id: Id)
    ensures After(ops).Own(id) ==> After(ops).kept
  {
    ResetLineIsAccounted(ops);
  }

  // ----- the class -----

  class ResetBoard {
    var resetGpio: bool
    var resetOwner: Owner
    var firstGpio: bool
    var secondGpio: bool
    var powerUsers: nat
    var requests: nat
    var puts: nat
    var level: Level
    ghost var ops: seq<Op>

    function View(): State
      reads this
    {
      State(resetGpio, resetOwner, firstGpio, secondGpio, powerUsers, requests, puts, level)
    }

    ghost predicate Valid()
      reads this
    {
      View() == After(ops)
    }

    constructor ()
      ensures Valid() && ops == []
    {
      resetGpio, resetOwner, firstGpio, secondGpio, powerUsers := false, NoOwner, false, false, 0;
      requests, puts, level, ops := 0, 0, Floating, [];
    }

    /** max9296_put_orphaned_reset_gpio_locked() */
    method PutOrphanedResetGpio()
      modifies `resetGpio, `puts, `level
      ensures View() == PutOrphan(old(View()))
    {
      if powerUsers > 0 || resetOwner != NoOwner || !resetGpio {
        return;
      }
      resetGpio, puts, level := false, puts + 1, Floating;
    }

    method SetCopy(id: Id, value: bool)
      modifies `firstGpio, `secondGpio
      ensures View() == old(View()).WithOwn(id, value)
    {
      if id == First {
        firstGpio := value;
      } else {
        secondGpio := value;
      }
    }

    /** max9296_acquire_reset_gpio() */
    method AcquireResetGpio(id: Id, declared: bool, failed: bool, present: bool, registered: bool)
      requires Valid()
      modifies this
      ensures Valid() && ops == old(ops) + [Acquire(id, declared, failed, present, registered)]
      ensures resetOwner == if declared && old(resetOwner) == NoOwner && registered
                               && (old(resetGpio) || (!failed && present))
                            then OwnedBy(id) else old(resetOwner)
      ensures resetOwner != old(resetOwner) ==> resetGpio && Described(id)
      ensures resetGpio <==> old(resetGpio) || (requests > old(requests) && (registered || powerUsers > 0))
      ensures puts == if requests > old(requests) && !resetGpio then old(puts) + 1 else old(puts)
      ensures requests == if declared && old(resetOwner) == NoOwner && !old(resetGpio) && !failed && present
                          then old(requests) + 1 else old(requests)
      ensures powerUsers == old(powerUsers)
    {
      ghost var op := Acquire(id, declared, failed, present, registered);
      AfterOneMore(ops, op);
      hide After, PutOrphan, PowerOnStep, PowerOffStep;
      ops := ops + [op];
      if !declared || resetOwner != NoOwner {
        return;
      }
      var newlyRequested := false;
      if !resetGpio {
        if failed || !present {
          return;
        }
        requests, newlyRequested := requests + 1, true;
        if powerUsers == 0 {
          level := Asserted;
        }
      }
      if !registered {
        if newlyRequested {
          if powerUsers > 0 {
            resetGpio := true;
          } else {
            puts, level := puts + 1, Floating;
          }
        }
        return;
      }
      SetCopy(id, true);
      resetGpio, resetOwner := true, OwnedBy(id);
    }

    /** max9296_release_board_reset_gpio() */
    method ReleaseResetGpio(id: Id)
      requires Valid()
      modifies this
      ensures Valid() && ops == old(ops) + [Release(id)]
      ensures resetOwner == if old(resetOwner) == OwnedBy(id) then NoOwner else old(resetOwner)
      ensures powerUsers == old(powerUsers)
    {
      AfterOneMore(ops, Release(id));
      hide After, AcquireStep, PowerOnStep, PowerOffStep;
      ops := ops + [Release(id)];
      if resetOwner == OwnedBy(id) {
        resetOwner := NoOwner;
        SetCopy(id, false);
        if powerUsers > 0 {
          return;
        }
        PutOrphanedResetGpio();
      }
    }

    /** max9296_prepare_reset_gpio_locked(): the board's descriptor, or this instance's copy. */
    function Described(id: Id): bool
      reads this
    {
      resetGpio || (if id == First then firstGpio else secondGpio)
    }

    method TurnOn(id: Id, directionOk: bool) returns (ok: bool)
      modifies `powerUsers, `level
      ensures View() == PowerOnStep(old(View()), id, directionOk)
      ensures !ok ==> powerUsers == 0 && old(powerUsers) == 0 && level == old(level)
      ensures ok && old(powerUsers) == 0 && resetGpio ==> level == Released
      ensures old(powerUsers) > 0 ==> level == old(level)
      ensures powerUsers == if ok then old(powerUsers) + 1 else 0
      ensures ok <==> old(powerUsers) > 0 || !old(Described(id)) || directionOk
    {
      ok := true;
      powerUsers := powerUsers + 1;
      if powerUsers == 1 && Described(id) {
        if directionOk {
          level := Released;
        } else {
          powerUsers, ok := 0, false;
        }
      }
    }

    method TurnOff(id: Id, directionOk: bool)
      modifies `powerUsers, `level, `resetGpio, `puts
      ensures View() == PowerOffStep(old(View()), id, directionOk)
      ensures old(powerUsers) > 1 ==> level == old(level)
      ensures old(powerUsers) == 1 ==>
                && powerUsers == 0 && (resetGpio <==> old(resetGpio && resetOwner != NoOwner))
                && level == if old(resetGpio) && !resetGpio then Floating
                            else if old(Described(id)) && directionOk then Asserted else old(level)
      ensures powerUsers == if old(powerUsers) == 0 then 0 else old(powerUsers) - 1
    {
      if powerUsers == 0 {
        return;
      }
      powerUsers := powerUsers - 1;
      if powerUsers == 0 {
        if Described(id) && directionOk {
          level := Asserted;
        }
        PutOrphanedResetGpio();
      }
    }

    /** The line's part of max9296_set_power(). */
    method SetPower(id: Id, on: bool, directionOk: bool) returns (ok: bool)
      requires Valid()
      modifies this
      ensures Valid() && ops == old(ops) + [if on then PowerOn(id, directionOk) else PowerOff(id, directionOk)]
      ensures on && !ok ==> powerUsers == 0 && old(powerUsers) == 0 && level == old(level)
      ensures on && ok && old(powerUsers) == 0 && resetGpio ==> level == Released
      ensures old(powerUsers) > (if on then 0 else 1) ==> level == old(level)
      ensures !on && old(powerUsers) == 1 ==>
                && powerUsers == 0 && (resetGpio <==> old(resetGpio && resetOwner != NoOwner))
                && level == if old(resetGpio) && !resetGpio then Floating
                            else if old(Described(id)) && directionOk then Asserted else old(level)
      ensures powerUsers == if !ok then 0 else if on then old(powerUsers) + 1
                            else if old(powerUsers) == 0 then 0 else old(powerUsers) - 1
      ensures ok <==> !on || old(powerUsers) > 0 || !old(Described(id)) || directionOk
    {
      hide After, AcquireStep, PowerOnStep, PowerOffStep, PutOrphan;
      ghost var op := if on then PowerOn(id, directionOk) else PowerOff(id, directionOk);
      AfterOneMore(ops, op);
      if on {
        ok := TurnOn(id, directionOk);
      } else {
        TurnOff(id, directionOk);
        ok := true;
      }
      ops := ops + [op];
    }

    /** The accounting step of max9296_remove(). */
    method AccountRemoval(accounted: bool)
      requires Valid()
      modifies this
      ensures Valid() && ops == old(ops) + [Account(accounted)]
      ensures powerUsers == if accounted && old(powerUsers) > 0 then old(powerUsers) - 1 else old(powerUsers)
    {
      AfterOneMore(ops, Account(accounted));
      hide After, AcquireStep, PowerOnStep, PowerOffStep, PutOrphan;
      ops := ops + [Account(accounted)];
      if accounted && powerUsers > 0 {
        powerUsers := powerUsers - 1;
      }
      PutOrphanedResetGpio();
    }
  }
}
