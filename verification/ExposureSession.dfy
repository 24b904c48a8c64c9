/** The exposure cluster across a whole configuration session: what the cache says, what the image
    processors hold, and which of the two a replay may leave alone. */
module ExposureSession {
  import opened ExposurePolicy

  /** Where the exposure register of a channel got its value: from the firmware reload, from the shared
      control, or from a channel override. */
  datatype Origin = Reload | FromShared | FromOverride

  datatype Reg = Reg(value: int, origin: Origin)

  /** The exposure register of each channel.  A single-channel topology has one image processor, kept in
      the slot of its active channel. */
  datatype Isp = Isp(ch0: Reg, ch1: Reg) {
    function At(c: Channel): Reg {
      if c == Ch1 then ch1 else ch0
    }

    function With(c: Channel, r: Reg): Isp {
      if c == Ch1 then this.(ch1 := r) else this.(ch0 := r)
    }
  }

  datatype Topology = Topology(dual: bool, active: Channel) {
    predicate Active(c: Channel) {
      ChannelIsActive(dual, active, c)
    }
  }

  /** Result of one register write.  A write that reports failure may still have been taken. */
  datatype WriteResult = Done | Failed(taken: bool)

  datatype Ae = Ae(ch0: bool, ch1: bool) {
    function With(c: Channel, on: bool): Ae {
      if c == Ch1 then this.(ch1 := on) else this.(ch0 := on)
    }
  }

  /** `valid` is hardware_valid together with an initialized_epoch that is current. */
  datatype State = State(cache: Control, ae: Ae, session: nat, reinit: bool, ready: bool, valid: bool,
                         topology: Topology, isp: Isp)

  const RELOADED := Isp(Reg(0, Reload), Reg(0, Reload))

  const DEFAULT_EXPOSURE := 10000

  const PROBED := State(Control(DEFAULT_EXPOSURE, DEFAULT_EXPOSURE, DEFAULT_EXPOSURE, NO_OVERRIDE), Ae(true, true),
                        0, false, false, false, Topology(true, Ch0), RELOADED)

  // ----- writes -----

  /** A write to the common address reaches every processor of the topology. */
  function Broadcast(t: Topology, isp: Isp, r: Reg, o: WriteResult): Isp {
    if o == Failed(false) then isp
    else if t.dual then Isp(r, r)
    else isp.With(t.active, r)
  }

  /** A write to the address of a channel; in a single topology that is the common address. */
  function WriteOne(t: Topology, isp: Isp, c: Channel, r: Reg, o: WriteResult): Isp {
    if o == Failed(false) then isp
    else if t.dual then isp.With(c, r)
    else isp.With(t.active, r)
  }

  /** max9296_cached_exposure_value(), with where the value comes from. */
  function CachedReg(cache: Control, c: Channel): Reg {
    if cache.mask.Has(c) then Reg(cache.Value(c), FromOverride) else Reg(cache.shared, FromShared)
  }

  // ----- a cluster update -----

  predicate WritesChannel(c: Channel, u: Update, desired: Control) {
    if c == Ch1 then u.newCh1 && (!u.newShared || u.ch1 != desired.shared)
    else u.newCh0 && (!u.newShared || u.ch0 != desired.shared)
  }

  datatype Writes = Writes(shared: WriteResult, ch0: WriteResult, ch1: WriteResult)

  const ALL_DONE := Writes(Done, Done, Done)

  /** The register writes of an applied update, in order; the first failure ends them. */
  function ClusterWrites(t: Topology, isp: Isp, u: Update, desired: Control, w: Writes): (Isp, bool) {
    var toCh0 := WritesChannel(Ch0, u, desired) && t.Active(Ch0);
    var toCh1 := WritesChannel(Ch1, u, desired) && t.Active(Ch1);
    var isp1 := if u.newShared then Broadcast(t, isp, Reg(desired.shared, FromShared), w.shared) else isp;
    if u.newShared && w.shared != Done then (isp1, false) else
    var isp2 := if toCh0 then WriteOne(t, isp1, Ch0, CachedReg(desired, Ch0), w.ch0) else isp1;
    if toCh0 && w.ch0 != Done then (isp2, false) else
    var isp3 := if toCh1 then WriteOne(t, isp2, Ch1, CachedReg(desired, Ch1), w.ch1) else isp2;
    (isp3, !(toCh1 && w.ch1 != Done))
  }

  /** `allowed` is the part of the hardware gate outside this state: power, no pending mode or format, an
      unchanged topology, and no session reset in progress. */
  function ClusterStep(s: State, u: Update, allowed: bool, refused: bool, w: Writes): State {
    var desired := ControlUpdate(s.cache, u);
    var apply := allowed && s.ready && s.valid;
    var written := if apply then ClusterWrites(s.topology, s.isp, u, desired, w) else (s.isp, true);
    if refused then s
    else if !written.1 then s.(isp := written.0)
    else
      var reinit1 := if apply && u.newShared then false else s.reinit;
      var cleared := s.cache.mask.ClearedBy(desired.mask);
      s.(cache := desired, isp := written.0, reinit := reinit1 || (cleared && !apply))
  }

  // ----- a new session -----

  /** A fresh generation reapplies the shared value, which drops every override; nothing reaches the
      hardware while it does. */
  function SessionStep(s: State, generation: nat, refused: bool): State {
    if !SessionShouldReset(s.session, generation) || refused then s
    else
      var needs := SessionRequiresReinit(s.session, generation, s.cache.mask);
      var update := Update(true, false, false, s.cache.shared, 0, 0);
      var s1 := ClusterStep(s, update, false, false, ALL_DONE);
      s1.(reinit := s1.reinit || needs, session := generation)
  }

  /** max9296_invalidate_exposure_hardware_locked(), taken wherever a reinitialization is pending. */
  function InvalidateStep(s: State): State {
    if s.reinit then s.(ready := false, valid := false) else s
  }

  // ----- replays -----

  function PairAeOn(s: State, c: Channel): bool {
    if s.topology.dual then s.ae.ch0 && s.ae.ch1 else if c == Ch1 then s.ae.ch1 else s.ae.ch0
  }

  function Decision(s: State, c: Channel, fps: nat, safeMaxFps: nat): ReplayDecision {
    DecideReplay(s.topology.dual, c, s.cache.mask, PairAeOn(s, c), fps, safeMaxFps, s.cache.shared,
                 CachedReg(s.cache, Ch0).value, CachedReg(s.cache, Ch1).value)
  }

  /** The exposure part of max9296_apply_channel_controls(). */
  function ReplayChannel(s: State, c: Channel, fps: nat, safeMaxFps: nat, refused: bool, o: WriteResult): State {
    var d := Decision(s, c, fps, safeMaxFps);
    if d.route == Skip || refused then s
    else if d.route == Pair then s.(isp := Broadcast(s.topology, s.isp, Reg(d.value, FromShared), o))
    else
      var origin := if d.hasOverride && s.cache.mask.Has(c) then FromOverride else FromShared;
      s.(isp := WriteOne(s.topology, s.isp, c, Reg(d.value, origin), o))
  }

  /** The error max9296_apply_channel_controls() returns: a refused value, or a write that had to succeed. */
  predicate ReplayChannelFails(s: State, c: Channel, fps: nat, safeMaxFps: nat, refused: bool, o: WriteResult) {
    var d := Decision(s, c, fps, safeMaxFps);
    d.route != Skip && (refused || (o != Done && (d.hasOverride || s.reinit)))
  }

  /** max9296_apply_cached_controls(): `refused` is the exposure policy, which judges the rate and the mode
      and so treats both channels alike. */
  function ReplayStep(s: State, fps: nat, safeMaxFps: nat, refused: bool, o0: WriteResult, o1: WriteResult): State {
    var s0 := s.(ready := false);
    if s.topology.dual then
      var s1 := ReplayChannel(s0, Ch0, fps, safeMaxFps, refused, o0);
      var s2 := ReplayChannel(s1, Ch1, fps, safeMaxFps, refused, o1);
      s2.(ready := !ReplayChannelFails(s0, Ch0, fps, safeMaxFps, refused, o0)
                   && !ReplayChannelFails(s1, Ch1, fps, safeMaxFps, refused, o1))
    else
      ReplayChannel(s0, s.topology.active, fps, safeMaxFps, refused, o0)
        .(ready := !ReplayChannelFails(s0, s.topology.active, fps, safeMaxFps, refused, o0))
  }

  /** How far a cold initialization gets before its replay: turned away without a write, ended by a later
      failure once the table walk had begun, or loaded and programmed. */
  datatype Load = TurnedAway | Broken | Loaded

  /** Cold initialization.  The table walk fixes the topology, the firmware download resets the registers, and
      the replay comes last. */
  function ColdStep(s: State, t: Topology, load: Load, fps: nat, safeMaxFps: nat, refused: bool,
                    o0: WriteResult, o1: WriteResult): State
  {
    var s1 := s.(ready := false, valid := false);
    if load == TurnedAway then s1
    else if load == Broken then s1.(topology := t)
    else
      var s2 := ReplayStep(s1.(topology := t, isp := RELOADED), fps, safeMaxFps, refused, o0, o1);
      if s2.ready then s2.(reinit := false, valid := true) else s2
  }

  /** Auto exposure of a channel switched on, or off: off writes the cached exposure at once, behind a
      weaker gate than the cluster's. */
  function AutoStep(s: State, c: Channel, on: bool, allowed: bool, refused: bool, o: WriteResult): State {
    if !on && refused then s
    else
      var s1 := s.(ae := s.ae.With(c, on));
      if on || !(allowed && s.ready) then s1
      else s1.(isp := WriteOne(s.topology, s.isp, c, CachedReg(s.cache, c), o))
  }

  // ----- runs -----

  datatype Op =
    | Cluster(u: Update, allowed: bool, refused: bool, w: Writes)
    | Session(generation: nat, refused: bool)
    | Invalidate
    | Cold(t: Topology, load: Load, fps: nat, safeMaxFps: nat, refused: bool, o0: WriteResult, o1: WriteResult)
    | Replay(fps: nat, safeMaxFps: nat, refused: bool, o0: WriteResult, o1: WriteResult)
    | AutoExposure(c: Channel, on: bool, allowed: bool, refused: bool, o: WriteResult)
    | PowerCycle

  /** A cold initialization runs only while the hardware is not valid, a bare replay only while it is and
      no reinitialization is pending. */
  predicate Enabled(s: State, op: Op) {
    match op
    case Cold(_, _, _, _, _, _, _) => !s.valid
    case Replay(_, _, _, _, _) => s.valid && !s.reinit
    case _ => true
  }

  function Step(s: State, op: Op): State {
    match op
    case Cluster(u, allowed, refused, w) => ClusterStep(s, u, allowed, refused, w)
    case Session(generation, refused) => SessionStep(s, generation, refused)
    case Invalidate => InvalidateStep(s)
    case Cold(t, load, fps, safe, refused, o0, o1) => ColdStep(s, t, load, fps, safe, refused, o0, o1)
    case Replay(fps, safe, refused, o0, o1) => ReplayStep(s, fps, safe, refused, o0, o1)
    case AutoExposure(c, on, allowed, refused, o) => AutoStep(s, c, on, allowed, refused, o)
    case PowerCycle => s.(valid := false, isp := RELOADED)
  }

  function After(ops: seq<Op>): State {
    if ops == [] then PROBED else Step(After(ops[..|ops| - 1]), ops[|ops| - 1])
  }

  predicate IsRun(ops: seq<Op>) {
    ops != [] ==> IsRun(ops[..|ops| - 1]) && Enabled(After(ops[..|ops| - 1]), ops[|ops| - 1])
  }

  /** No exposure write reports a failure. */
  predicate Clean(op: Op) {
    match op
    case Cluster(_, _, _, w) => w == ALL_DONE
    case Cold(_, _, _, _, _, o0, o1) => o0 == Done && o1 == Done
    case Replay(_, _, _, o0, o1) => o0 == Done && o1 == Done
    case AutoExposure(_, _, _, _, o) => o == Done
    case _ => true
  }

  // ----- what every run keeps -----

  /** The override bit of a channel is set exactly when its value differs from the shared one. */
  predicate Consistent(c: Control) {
    && (c.mask.ch0 <==> c.ch0 != c.shared)
    && (c.mask.ch1 <==> c.ch1 != c.shared)
  }

  /** Every override value that an active channel still holds is one the cache still has. */
  predicate NothingHidden(s: State) {
    && (s.topology.Active(Ch0) && s.isp.ch0.origin == FromOverride ==> s.cache.mask.ch0)
    && (s.topology.Active(Ch1) && s.isp.ch1.origin == FromOverride ==> s.cache.mask.ch1)
  }

  predicate Safe(s: State) {
    Consistent(s.cache) && (s.valid && !s.reinit ==> NothingHidden(s))
  }

  lemma UpdateKeepsConsistent(c: Control, u: Update)
    requires Consistent(c)
    ensures Consistent(ControlUpdate(c, u))
  {
  }

  /** An update of the shared value alone, as a new session makes it, leaves no override. */
  lemma SharedUpdateClears(c: Control)
    ensures var c' := ControlUpdate(c, Update(true, false, false, c.shared, 0, 0));
            !c'.mask.Any() && c'.ch0 == c'.ch1 == c'.shared == c.shared
  {
  }

  /** Only a cluster update and a new session touch the cache. */
  lemma OthersKeepCache(s: State, op: Op)
    requires !op.Cluster? && !op.Session?
    ensures Step(s, op).cache == s.cache
  {
    hide Decision;
  }

  lemma StepKeepsConsistent(s: State, op: Op)
    requires Consistent(s.cache)
    ensures Consistent(Step(s, op).cache)
  {
    hide ControlUpdate, ClusterWrites, Consistent;
    match op
    case Cluster(u, _, _, _) =>
      UpdateKeepsConsistent(s.cache, u);
    case Session(_, _) =>
      UpdateKeepsConsistent(s.cache, Update(true, false, false, s.cache.shared, 0, 0));
    case _ =>
      hide Step;
      OthersKeepCache(s, op);
  }

  /** Every run, with or without write failures: the override bits say which channels differ. */
  lemma {:induction false} OverrideBitIsDifference(ops: seq<Op>)
    ensures Consistent(After(ops).cache)
  {
    if ops != [] {
      OverrideBitIsDifference(ops[..|ops| - 1]);
      StepKeepsConsistent(After(ops[..|ops| - 1]), ops[|ops| - 1]);
    }
  }

  /** The other slot of a single topology. */
  function Idle(c: Channel): Channel {
    if c == Ch1 then Ch0 else Ch1
  }

  /** A manual write that reaches the device, for the idle channel of a single topology, while that channel is
      overridden and the active one is not. */
  predicate StrayOverride(s: State, c: Channel, o: WriteResult) {
    && o != Failed(false)
    && !s.topology.dual && c == Idle(s.topology.active)
    && s.cache.mask.Has(c) && !s.cache.mask.Has(s.topology.active)
  }

  /** Exactly when selecting manual exposure leaves a hidden override: the write goes out, it is for the idle
      channel of a single topology, and that channel is overridden while the active one is not. */
  lemma ManualHidesIff(s: State, c: Channel, allowed: bool, o: WriteResult)
    requires Safe(s) && s.valid && !s.reinit
    ensures !NothingHidden(AutoStep(s, c, false, allowed, false, o)) <==> allowed && s.ready && StrayOverride(s, c, o)
  {
  }

  /** A channel write of an update that the device took although the update failed. */
  predicate TookOverride(s: State, u: Update, w: Writes, c: Channel) {
    var desired := ControlUpdate(s.cache, u);
    && s.topology.Active(c) && WritesChannel(c, u, desired) && desired.mask.Has(c) && !s.cache.mask.Has(c)
    && (u.newShared ==> w.shared == Done)
    && (if c == Ch0 then w.ch0 != Failed(false)
        else w.ch1 != Failed(false)
             && (s.topology.Active(Ch0) && WritesChannel(Ch0, u, desired) ==> w.ch0 == Done))
  }

  /** Exactly when a failed update does: one of its channel writes reached the device and was an override
      that the cache does not have. */
  lemma FailedUpdateHidesIff(s: State, u: Update, w: Writes)
    requires Safe(s) && s.valid && !s.reinit && s.ready
    requires !ClusterWrites(s.topology, s.isp, u, ControlUpdate(s.cache, u), w).1
    ensures !NothingHidden(ClusterStep(s, u, true, false, w))
            <==> TookOverride(s, u, w, Ch0) || TookOverride(s, u, w, Ch1)
  {
  }

  /** A register write of the update fails. */
  predicate UpdateFails(s: State, u: Update, allowed: bool, refused: bool, w: Writes) {
    && !refused && allowed && s.ready && s.valid
    && !ClusterWrites(s.topology, s.isp, u, ControlUpdate(s.cache, u), w).1
  }

  /** What one step must not do on hardware that may be reused: fail an update after the device took an override,
      or select manual exposure with a stray one.  Failed replays and cold initializations, and every other
      failed update or idle selection, are harmless. */
  predicate Harmless(s: State, op: Op) {
    s.valid && !s.reinit ==>
      match op
      case Cluster(u, allowed, refused, w) =>
        UpdateFails(s, u, allowed, refused, w) ==> !TookOverride(s, u, w, Ch0) && !TookOverride(s, u, w, Ch1)
      case AutoExposure(c, on, allowed, refused, o) =>
        !on && !refused && allowed && s.ready ==> !StrayOverride(s, c, o)
      case _ => true
  }

  predicate HarmlessRun(ops: seq<Op>) {
    ops != [] ==> HarmlessRun(ops[..|ops| - 1]) && Harmless(After(ops[..|ops| - 1]), ops[|ops| - 1])
  }

  /** A step without write failures that selects manual exposure only for channels in use is harmless. */
  lemma CleanIsHarmless(s: State, op: Op)
    requires Clean(op) && (op.AutoExposure? && !op.on ==> s.topology.Active(op.c))
    ensures Harmless(s, op)
  {
  }

  lemma CompletedUpdateKeepsSafe(s: State, u: Update, allowed: bool, refused: bool, w: Writes)
    requires Safe(s) && !UpdateFails(s, u, allowed, refused, w)
    ensures Safe(ClusterStep(s, u, allowed, refused, w))
  {
    UpdateKeepsConsistent(s.cache, u);
  }

  lemma ClusterKeepsSafeIff(s: State, u: Update, allowed: bool, refused: bool, w: Writes)
    requires Safe(s)
    ensures Safe(ClusterStep(s, u, allowed, refused, w)) <==> Harmless(s, Cluster(u, allowed, refused, w))
  {
    hide ControlUpdate, ClusterWrites, TookOverride, NothingHidden;
    if !UpdateFails(s, u, allowed, refused, w) {
      CompletedUpdateKeepsSafe(s, u, allowed, refused, w);
    } else if !s.reinit {
      FailedUpdateHidesIff(s, u, w);
    }
  }

  lemma ReplayChannelHidesNothing(s: State, c: Channel, fps: nat, safeMaxFps: nat, refused: bool, o: WriteResult)
    requires NothingHidden(s) && s.topology.Active(c)
    ensures NothingHidden(ReplayChannel(s, c, fps, safeMaxFps, refused, o))
  {
    hide DecideReplay;
    OverrideDecision(s, c, fps, safeMaxFps);
  }

  /** A replay hides nothing whatever becomes of its writes: each is a value the cache has. */
  lemma ReplayKeepsNothingHidden(s: State, fps: nat, safeMaxFps: nat, refused: bool, o0: WriteResult, o1: WriteResult)
    requires NothingHidden(s)
    ensures NothingHidden(ReplayStep(s, fps, safeMaxFps, refused, o0, o1))
  {
    hide ReplayChannel, ReplayChannelFails;
    var s0 := s.(ready := false);
    if s.topology.dual {
      var s1 := ReplayChannel(s0, Ch0, fps, safeMaxFps, refused, o0);
      ReplayChannelHidesNothing(s0, Ch0, fps, safeMaxFps, refused, o0);
      ReplayChannelKeepsRest(s0, Ch0, fps, safeMaxFps, refused, o0);
      ReplayChannelHidesNothing(s1, Ch1, fps, safeMaxFps, refused, o1);
    } else {
      ReplayChannelHidesNothing(s0, s.topology.active, fps, safeMaxFps, refused, o0);
    }
  }

  lemma ReplayChannelKeepsRest(s: State, c: Channel, fps: nat, safeMaxFps: nat, refused: bool, o: WriteResult)
    ensures var s' := ReplayChannel(s, c, fps, safeMaxFps, refused, o); s' == s.(isp := s'.isp)
  {
  }

  /** A route other than the per-channel one writes shared values, and only a pair takes the pair route. */
  lemma OverrideDecision(s: State, c: Channel, fps: nat, safeMaxFps: nat)
    ensures var d := Decision(s, c, fps, safeMaxFps);
            d.route == Pair ==> s.topology.dual && !s.cache.mask.Any()
  {
  }

  lemma ColdKeepsSafe(s: State, t: Topology, load: Load, fps: nat, safeMaxFps: nat, refused: bool,
                      o0: WriteResult, o1: WriteResult)
    requires Safe(s)
    ensures Safe(ColdStep(s, t, load, fps, safeMaxFps, refused, o0, o1))
  {
    hide ReplayStep;
    var s1 := s.(ready := false, valid := false, topology := t, isp := RELOADED);
    ReplayKeepsNothingHidden(s1, fps, safeMaxFps, refused, o0, o1);
    ReplayKeepsRest(s1, fps, safeMaxFps, refused, o0, o1);
  }

  /** One step keeps the statement exactly when it is harmless. */
  lemma StepKeepsSafeIff(s: State, op: Op)
    requires Safe(s) && Enabled(s, op)
    ensures Safe(Step(s, op)) <==> Harmless(s, op)
  {
    hide ControlUpdate, ClusterStep, ColdStep, ReplayStep, TookOverride, UpdateFails;
    match op
    case Cluster(u, allowed, refused, w) =>
      ClusterKeepsSafeIff(s, u, allowed, refused, w);
    case Session(_, _) =>
      ClusterKeepsSafeIff(s, Update(true, false, false, s.cache.shared, 0, 0), false, false, ALL_DONE);
      NotAppliedCannotFail(s, Update(true, false, false, s.cache.shared, 0, 0), ALL_DONE);
    case Cold(t, load, fps, safe, refused, o0, o1) =>
      ColdKeepsSafe(s, t, load, fps, safe, refused, o0, o1);
    case Replay(fps, safe, refused, o0, o1) =>
      ReplayKeepsNothingHidden(s, fps, safe, refused, o0, o1);
      ReplayKeepsRest(s, fps, safe, refused, o0, o1);
    case AutoExposure(c, on, allowed, refused, o) =>
      if s.valid && !s.reinit {
        ManualHidesIff(s, c, allowed, o);
      }
    case _ =>
  }

  lemma NotAppliedCannotFail(s: State, u: Update, w: Writes)
    ensures !UpdateFails(s, u, false, false, w)
  {
  }

  /** Over every harmless run, with failed replays, failed cold initializations and all other write failures in
      it: hardware that may be reused holds no override the cache has forgotten. */
  lemma {:induction false} SafeAlways(ops: seq<Op>)
    requires IsRun(ops) && HarmlessRun(ops)
    ensures Safe(After(ops))
  {
    hide Step, Enabled, Harmless, Safe;
    if ops == [] {
      ProbedIsSafe();
    } else {
      SafeAlways(ops[..|ops| - 1]);
      StepKeepsSafeIff(After(ops[..|ops| - 1]), ops[|ops| - 1]);
    }
  }

  lemma ProbedIsSafe()
    ensures Safe(PROBED)
  {
  }

  predicate SafeThroughout(ops: seq<Op>) {
    Safe(After(ops)) && (ops != [] ==> SafeThroughout(ops[..|ops| - 1]))
  }

  /** And over no other run: the statement holds in every state of a run exactly when no step of it does harm. */
  lemma {:induction false} SafeThroughoutIffHarmless(ops: seq<Op>)
    requires IsRun(ops)
    ensures SafeThroughout(ops) <==> HarmlessRun(ops)
  {
    hide Step, Enabled, Harmless, Safe;
    if ops == [] {
      ProbedIsSafe();
    } else {
      SafeThroughoutIffHarmless(ops[..|ops| - 1]);
      if SafeThroughout(ops[..|ops| - 1]) {
        StepKeepsSafeIff(After(ops[..|ops| - 1]), ops[|ops| - 1]);
      }
    }
  }

  /** A skipped seed hides nothing: whenever a replay on valid hardware leaves the register of an active
      channel alone, that register does not hold the value of an override, current or cleared, of this
      session or an earlier one. */
  lemma SkippedSeedHidesNothing(ops: seq<Op>, c: Channel, fps: nat, safeMaxFps: nat)
    requires IsRun(ops) && HarmlessRun(ops)
    requires var s := After(ops);
             s.valid && !s.reinit && s.topology.Active(c) && !SeedDue(s, fps, safeMaxFps)
    ensures After(ops).isp.At(c).origin != FromOverride
    ensures !After(ops).cache.mask.Has(c)
  {
    SafeAlways(ops);
  }

  /** The registers of every active channel hold what the cache, and so G_CTRL, says. */
  predicate Refines(s: State) {
    && (s.topology.Active(Ch0) ==> s.isp.ch0.value == s.cache.ch0)
    && (s.topology.Active(Ch1) ==> s.isp.ch1.value == s.cache.ch1)
  }

  /** And not only the values: a register holds an override exactly where the cache has one. */
  predicate Mirrors(s: State) {
    && (s.topology.Active(Ch0) ==> s.isp.ch0 == CachedReg(s.cache, Ch0))
    && (s.topology.Active(Ch1) ==> s.isp.ch1 == CachedReg(s.cache, Ch1))
  }

  /** A pair uses both channels, a single topology its active one. */
  lemma ChannelsInUse(t: Topology, c: Channel)
    ensures t.Active(c) <==> t.dual || c == t.active
  {
  }

  /** Every write of a replay of this topology was done. */
  predicate Taken(t: Topology, o0: WriteResult, o1: WriteResult) {
    o0 == Done && (t.dual ==> o1 == Done)
  }

  /** A channel in use has an override. */
  predicate Overridden(s: State) {
    (s.topology.Active(Ch0) && s.cache.mask.ch0) || (s.topology.Active(Ch1) && s.cache.mask.ch1)
  }

  /** A channel in use whose exposure the session has set: its automatic exposure is off, or it has an override. */
  predicate Claimed(s: State, c: Channel) {
    s.topology.Active(c) && (s.cache.mask.Has(c) || if c == Ch1 then !s.ae.ch1 else !s.ae.ch0)
  }

  /** When a replay has to write exposures: at a rate at which a seed is safe, or because a channel in use is
      claimed. */
  predicate SeedDue(s: State, fps: nat, safeMaxFps: nat) {
    fps <= safeMaxFps || Claimed(s, Ch0) || Claimed(s, Ch1)
  }

  /** The seed of a channel: skipped when it is not due, the shared value to both processors at once when no
      override is set, and otherwise each channel's own. */
  lemma RouteIs(s: State, c: Channel, fps: nat, safeMaxFps: nat)
    requires s.topology.Active(c)
    ensures var d, shared := Decision(s, c, fps, safeMaxFps), !Overridden(s);
            && (d.route == Skip <==> !SeedDue(s, fps, safeMaxFps))
            && (d.route == Pair <==> SeedDue(s, fps, safeMaxFps) && s.topology.dual && shared)
            && (d.hasOverride <==> !shared)
            && d.value == if shared then s.cache.shared else CachedReg(s.cache, c).value
  {
  }

  /** What a completed replay leaves in the registers: the cached values when the seed is due, nothing else than
      before when it is not. */
  lemma ReplaySeedsWhenDue(s: State, fps: nat, safeMaxFps: nat)
    requires Consistent(s.cache)
    ensures var s' := ReplayStep(s, fps, safeMaxFps, false, Done, Done);
            s'.ready && if SeedDue(s, fps, safeMaxFps) then Refines(s') && Mirrors(s') else s'.isp == s.isp
  {
    hide Decision, SeedDue;
    var s0 := s.(ready := false);
    SeedDueLooks(s, s0, fps, safeMaxFps);
    if s.topology.dual {
      var s1 := ReplayChannel(s0, Ch0, fps, safeMaxFps, false, Done);
      RouteIs(s0, Ch0, fps, safeMaxFps);
      RouteIs(s1, Ch1, fps, safeMaxFps);
      SeedDueLooks(s, s1, fps, safeMaxFps);
    } else {
      RouteIs(s0, s.topology.active, fps, safeMaxFps);
    }
  }

  /** Whether a seed is due depends on the session, not on the registers. */
  lemma SeedDueLooks(s: State, s': State, fps: nat, safeMaxFps: nat)
    requires s'.topology == s.topology && s'.cache == s.cache && s'.ae == s.ae
    ensures SeedDue(s', fps, safeMaxFps) == SeedDue(s, fps, safeMaxFps) && Overridden(s') == Overridden(s)
  {
  }

  /** When a replay is ready: with nothing due, or allowed and with every write done, or with failures that neither
      an override nor a pending reinitialization forbids. */
  lemma ReplayReadyIff(s: State, fps: nat, safeMaxFps: nat, refused: bool, o0: WriteResult, o1: WriteResult)
    ensures ReplayStep(s, fps, safeMaxFps, refused, o0, o1).ready
            <==> !SeedDue(s, fps, safeMaxFps)
                 || (!refused && (Taken(s.topology, o0, o1) || !(s.reinit || Overridden(s))))
    ensures !SeedDue(s, fps, safeMaxFps) || refused ==> ReplayStep(s, fps, safeMaxFps, refused, o0, o1).isp == s.isp
  {
    hide Decision, SeedDue;
    var s0 := s.(ready := false);
    SeedDueLooks(s, s0, fps, safeMaxFps);
    if s.topology.dual {
      var s1 := ReplayChannel(s0, Ch0, fps, safeMaxFps, refused, o0);
      RouteIs(s0, Ch0, fps, safeMaxFps);
      RouteIs(s1, Ch1, fps, safeMaxFps);
      SeedDueLooks(s, s1, fps, safeMaxFps);
    } else {
      RouteIs(s0, s.topology.active, fps, safeMaxFps);
    }
  }

  /** Over every run: a completed replay at a safe rate, or with a claimed channel, makes every active channel's
      register equal to its cached value. */
  lemma SeededReplayRefines(ops: seq<Op>, fps: nat, safeMaxFps: nat)
    requires SeedDue(After(ops), fps, safeMaxFps)
    ensures var s := ReplayStep(After(ops), fps, safeMaxFps, false, Done, Done); Refines(s) && s.ready
  {
    hide ReplayStep, SeedDue, Refines;
    OverrideBitIsDifference(ops);
    ReplaySeedsWhenDue(After(ops), fps, safeMaxFps);
  }

  /** Both channels of a pair take the same route, so a replay seeds all active channels or none. */
  lemma PairTakesOneRoute(s: State, fps: nat, safeMaxFps: nat)
    requires s.topology.dual
    ensures Decision(s, Ch0, fps, safeMaxFps).route == Decision(s, Ch1, fps, safeMaxFps).route
    ensures Decision(s, Ch0, fps, safeMaxFps).route == Pair ==>
              Decision(s, Ch0, fps, safeMaxFps).value == Decision(s, Ch1, fps, safeMaxFps).value == s.cache.shared
  {
  }

  /** A shared update that reaches the hardware leaves every active channel equal to its cached value and
      settles a pending reinitialization, whatever channel values it carries along. */
  lemma AppliedSharedUpdateRefines(ops: seq<Op>, u: Update)
    requires u.newShared && After(ops).ready && After(ops).valid
    ensures var s := ClusterStep(After(ops), u, true, false, ALL_DONE); Refines(s) && !s.reinit
  {
  }

  /** What an update requests is what the cache then says, the shared value first: it resets both channels, and a
      channel value of the same update comes after it. */
  lemma UpdateGives(c: Control, u: Update)
    ensures var c', shared := ControlUpdate(c, u), if u.newShared then u.shared else c.shared;
            && c'.shared == shared
            && c'.ch0 == (if u.newCh0 then u.ch0 else if u.newShared then u.shared else c.ch0)
            && c'.ch1 == (if u.newCh1 then u.ch1 else if u.newShared then u.shared else c.ch1)
  {
  }

  /** An update that is applied reaches every channel in use that it is about, and leaves a refined register refined. */
  lemma AppliedUpdateReaches(s: State, u: Update, c: Channel)
    requires Consistent(s.cache) && s.ready && s.valid && (s.topology.dual || c == s.topology.active)
    requires s.isp.At(c) == CachedReg(s.cache, c) || u.newShared || if c == Ch1 then u.newCh1 else u.newCh0
    ensures var s' := ClusterStep(s, u, true, false, ALL_DONE);
            s'.isp.At(c) == CachedReg(s'.cache, c) && s'.isp.At(c).value == s'.cache.Value(c)
  {
    UpdateKeepsConsistent(s.cache, u);
  }

  /** Hardware whose reinitialization is pending takes no exposure write until it is initialized again. */
  lemma InvalidatedIsSilent(s: State, op: Op)
    requires s.reinit && (op.Cluster? || op.AutoExposure? || op.Session?)
    ensures Step(InvalidateStep(s), op).isp == s.isp && !InvalidateStep(s).valid
  {
  }

  /** A fresh generation forgets every override without touching the hardware; when there was one, only a
      cold initialization can make the hardware usable again. */
  lemma NewSessionForgetsOverrides(ops: seq<Op>, generation: nat)
    requires generation != 0 && generation != After(ops).session
    ensures var s, s' := After(ops), SessionStep(After(ops), generation, false);
            && s'.session == generation && !s'.cache.mask.Any()
            && s'.cache.ch0 == s'.cache.ch1 == s'.cache.shared == s.cache.shared
            && s'.isp == s.isp
            && (s.cache.mask.Any() ==> s'.reinit && !InvalidateStep(s').valid)
  {
  }

  /** Until then it stays so: a pending reinitialization ends only in a cold initialization or in a shared
      update written to all active channels. */
  lemma ReinitEndsInWrites(s: State, op: Op)
    requires s.reinit && Enabled(s, op) && !Step(s, op).reinit
    ensures op.Cold? || (op.Cluster? && op.u.newShared && s.valid)
    ensures op.Cold? ==> Step(s, op).valid
    ensures op.Cluster? && Clean(op) && Consistent(s.cache) ==> Refines(Step(s, op))
  {
  }

  // ----- where the statement ends -----

  const AT_60 := 60

  lemma Extend(ops: seq<Op>, op: Op)
    ensures After(ops + [op]) == Step(After(ops), op)
    ensures IsRun(ops + [op]) <==> IsRun(ops) && Enabled(After(ops), op)
    ensures HarmlessRun(ops + [op]) <==> HarmlessRun(ops) && Harmless(After(ops), op)
  {
    assert (ops + [op])[..|ops|] == ops;
  }

  /** A failed update that does harm.  The first channel's override is written, the second write fails,
      and the request is dropped from the cache; a replay above the safe rate then leaves the override in
      the register. */
  lemma FailedWriteLeavesOverride() returns (ops: seq<Op>)
    ensures IsRun(ops) && forall op :: op in ops ==> !op.AutoExposure?
    ensures var s := After(ops);
            && s.valid && !s.reinit && Decision(s, Ch0, AT_60, 30).route == Skip
            && s.isp.ch0 == Reg(20000, FromOverride) && s.cache.ch0 == DEFAULT_EXPOSURE
  {
    var cold := Cold(Topology(true, Ch0), Loaded, 30, 30, false, Done, Done);
    var update := Cluster(Update(false, true, true, 0, 20000, 20000), true, false, Writes(Done, Done, Failed(false)));
    Extend([], cold);
    Extend([] + [cold], update);
    ops := [] + [cold] + [update];
  }

  /** A manual selection that does harm.  In a single topology both channel controls share
      one processor: manual exposure of the idle channel writes that channel's override into the active
      one, and clearing the override later rewrites nothing. */
  lemma IdleManualLeavesOverride() returns (ops: seq<Op>)
    ensures IsRun(ops) && forall op :: op in ops ==> Clean(op)
    ensures var s := After(ops);
            && s.valid && !s.reinit && s.topology.Active(Ch0) && Decision(s, Ch0, AT_60, 30).route == Skip
            && s.isp.ch0 == Reg(20000, FromOverride) && s.cache.ch0 == DEFAULT_EXPOSURE && !s.cache.mask.Any()
  {
    var cold := Cold(Topology(false, Ch0), Loaded, 30, 30, false, Done, Done);
    var override := Cluster(Update(false, false, true, 0, 0, 20000), true, false, ALL_DONE);
    var manual := AutoExposure(Ch1, false, true, false, Done);
    var clear := Cluster(Update(false, false, true, 0, 0, DEFAULT_EXPOSURE), true, false, ALL_DONE);
    ops := [] + [cold] + [override] + [manual] + [clear];
    var overridden := Control(DEFAULT_EXPOSURE, DEFAULT_EXPOSURE, 20000, Mask(false, true));
    var s1 := PROBED.(topology := Topology(false, Ch0), ready := true, valid := true,
                      isp := Isp(Reg(DEFAULT_EXPOSURE, FromShared), Reg(0, Reload)));
    var s3 := s1.(cache := overridden, ae := Ae(true, false), isp := s1.isp.(ch0 := Reg(20000, FromOverride)));
    assert Step(PROBED, cold) == s1;
    assert Step(s1, override) == s1.(cache := overridden);
    assert Step(s1.(cache := overridden), manual) == s3;
    assert Step(s3, clear) == s3.(cache := PROBED.cache);
    FourSteps(cold, override, manual, clear);
  }

  lemma FourSteps(a: Op, b: Op, c: Op, d: Op)
    requires Enabled(PROBED, a) && !b.Cold? && !b.Replay? && !c.Cold? && !c.Replay? && !d.Cold? && !d.Replay?
    ensures var ops := [] + [a] + [b] + [c] + [d];
            IsRun(ops) && After(ops) == Step(Step(Step(Step(PROBED, a), b), c), d)
  {
    hide Step;
    Extend([], a);
    Extend([] + [a], b);
    Extend([] + [a] + [b], c);
    Extend([] + [a] + [b] + [c], d);
  }

  // ----- what the class below uses -----

  /** A replay changes registers and readiness only. */
  lemma ReplayKeepsRest(s: State, fps: nat, safeMaxFps: nat, refused: bool, o0: WriteResult, o1: WriteResult)
    ensures var s' := ReplayStep(s, fps, safeMaxFps, refused, o0, o1);
            s' == s.(isp := s'.isp, ready := s'.ready)
  {
    hide ReplayChannel, ReplayChannelFails;
    var s0 := s.(ready := false);
    if s.topology.dual {
      ReplayChannelKeepsRest(s0, Ch0, fps, safeMaxFps, refused, o0);
      ReplayChannelKeepsRest(ReplayChannel(s0, Ch0, fps, safeMaxFps, refused, o0), Ch1, fps, safeMaxFps, refused, o1);
    } else {
      ReplayChannelKeepsRest(s0, s.topology.active, fps, safeMaxFps, refused, o0);
    }
  }

  // ----- the class -----

  /** The results of the exposure writes of a stream start: in its cold initialization and in its replay. */
  datatype StartWrites = StartWrites(cold0: WriteResult, cold1: WriteResult, replay0: WriteResult, replay1: WriteResult)

  const ALL_TAKEN := StartWrites(Done, Done, Done, Done)

  class ExposureControls {
    var exposure: int
    var exposureCh0: int
    var exposureCh1: int
    var overrideMask: Mask
    var aeOn: Ae
    var sessionGeneration: nat
    var sessionResetting: bool
    var reinitRequired: bool
    var firmwareReady: bool
    var hardwareValid: bool
    var topology: Topology
    /** The registers on the other side of the bus. */
    var isp: Isp
    ghost var ops: seq<Op>

    function Cached(): Control
      reads this
    {
      Control(exposure, exposureCh0, exposureCh1, overrideMask)
    }

    function View(): State
      reads this
    {
      State(Cached(), aeOn, sessionGeneration, reinitRequired, firmwareReady, hardwareValid, topology, isp)
    }

    ghost predicate Valid()
      reads this
    {
      View() == After(ops) && IsRun(ops) && !sessionResetting
    }

    constructor ()
      ensures Valid() && ops == []
    {
      exposure, exposureCh0, exposureCh1, overrideMask := DEFAULT_EXPOSURE, DEFAULT_EXPOSURE, DEFAULT_EXPOSURE, NO_OVERRIDE;
      aeOn, sessionGeneration, sessionResetting, reinitRequired := Ae(true, true), 0, false, false;
      firmwareReady, hardwareValid, topology, isp, ops := false, false, Topology(true, Ch0), RELOADED, [];
    }

    /** The register writes of an applied update; the first failure ends them. */
    method WriteCluster(u: Update, desired: Control, w: Writes) returns (ok: bool)
      modifies `isp
      ensures (isp, ok) == ClusterWrites(topology, old(isp), u, desired, w)
    {
      var writeCh0 := u.newCh0 && (!u.newShared || u.ch0 != desired.shared);
      var writeCh1 := u.newCh1 && (!u.newShared || u.ch1 != desired.shared);
      if u.newShared {
        isp := Broadcast(topology, isp, Reg(desired.shared, FromShared), w.shared);
        if w.shared != Done {
          return false;
        }
      }
      if writeCh0 && topology.Active(Ch0) {
        isp := WriteOne(topology, isp, Ch0, CachedReg(desired, Ch0), w.ch0);
        if w.ch0 != Done {
          return false;
        }
      }
      if writeCh1 && topology.Active(Ch1) {
        isp := WriteOne(topology, isp, Ch1, CachedReg(desired, Ch1), w.ch1);
        if w.ch1 != Done {
          return false;
        }
      }
      ok := true;
    }

    /** max9296_set_exposure_cluster() */
    method ClusterBody(u: Update, allowed: bool, refused: bool, w: Writes) returns (ok: bool)
      modifies `exposure, `exposureCh0, `exposureCh1, `overrideMask, `reinitRequired, `isp
      ensures View() == ClusterStep(old(View()), u, allowed && !sessionResetting, refused, w)
      ensures !ok ==> View().(isp := old(isp)) == old(View())
      ensures ok <==> !refused && !UpdateFails(old(View()), u, allowed && !sessionResetting, refused, w)
    {
      hide ControlUpdate, ClusterWrites;
      var previous, desired := Cached(), ControlUpdate(Cached(), u);
      if refused {
        return false;
      }
      var apply := !sessionResetting && allowed && firmwareReady && hardwareValid;
      if apply {
        ok := WriteCluster(u, desired, w);
        if !ok {
          return;
        }
      }
      Adopt(desired, apply && u.newShared, previous.mask.ClearedBy(desired.mask) && !apply);
      ok := true;
    }

    /** The cache takes the values; a written shared value settles a pending reinitialization, and an override
        cleared without a write asks for one. */
    method Adopt(desired: Control, settled: bool, owed: bool)
      modifies `exposure, `exposureCh0, `exposureCh1, `overrideMask, `reinitRequired
      ensures Cached() == desired && reinitRequired == ((if settled then false else old(reinitRequired)) || owed)
    {
      exposure, exposureCh0, exposureCh1, overrideMask := desired.shared, desired.ch0, desired.ch1, desired.mask;
      if settled {
        reinitRequired := false;
      }
      if owed {
        reinitRequired := true;
      }
    }

    method SetExposureCluster(u: Update, allowed: bool, refused: bool, w: Writes) returns (ok: bool)
      requires Valid()
      modifies this
      ensures Valid() && ops == old(ops) + [Cluster(u, allowed, refused, w)]
      ensures ok <==> !refused && !UpdateFails(old(View()), u, allowed, refused, w)
      ensures ok ==> Cached() == ControlUpdate(old(Cached()), u)
      ensures !ok ==> Cached() == old(Cached()) && reinitRequired == old(reinitRequired)
    {
      hide ControlUpdate, ClusterWrites, After, IsRun;
      Extend(ops, Cluster(u, allowed, refused, w));
      ok := ClusterBody(u, allowed, refused, w);
      ops := ops + [Cluster(u, allowed, refused, w)];
    }

    /** The session part of a prepare request: a fresh generation reapplies the shared value. */
    method ResetSession(generation: nat, refused: bool) returns (ok: bool)
      requires Valid()
      modifies this
      ensures Valid() && ops == old(ops) + [Session(generation, refused)]
      ensures ok <==> !((generation != 0 && generation != old(sessionGeneration)) && refused)
      ensures if ok && (generation != 0 && generation != old(sessionGeneration))
              then !overrideMask.Any() && exposureCh0 == exposureCh1 == exposure == old(exposure)
                   && sessionGeneration == generation && (old(overrideMask).Any() ==> reinitRequired)
              else View() == old(View())
    {
      hide After, IsRun, ControlUpdate, ClusterWrites;
      Extend(ops, Session(generation, refused));
      SharedUpdateClears(Cached());
      ok := true;
      if SessionShouldReset(sessionGeneration, generation) {
        var newSessionReinit := SessionRequiresReinit(sessionGeneration, generation, overrideMask);
        sessionResetting := true;
        ok := ClusterBody(Update(true, false, false, exposure, 0, 0), true, refused, ALL_DONE);
        sessionResetting := false;
        if ok {
          if newSessionReinit {
            reinitRequired := true;
          }
          sessionGeneration := generation;
        }
      }
      ops := ops + [Session(generation, refused)];
    }

    /** The exposure part of a prepare request: a fresh generation resets the session, and a pending
        reinitialization invalidates the hardware. */
    method BeginSession(generation: nat, refused: bool) returns (ok: bool)
      requires Valid()
      modifies this
      ensures Valid() && ops == old(ops) + [Session(generation, refused)] + if ok then [Invalidate] else []
      ensures ok <==> !((generation != 0 && generation != old(sessionGeneration)) && refused)
      ensures ok ==> !(hardwareValid && reinitRequired)
      ensures ok && (generation != 0 && generation != old(sessionGeneration)) ==>
                !overrideMask.Any() && exposureCh0 == exposureCh1 == exposure == old(exposure)
      ensures ok && (generation != 0 && generation != old(sessionGeneration)) && old(overrideMask.Any()) ==> !hardwareValid
    {
      hide After, IsRun;
      ok := ResetSession(generation, refused);
      if ok {
        InvalidateIfRequired();
      }
    }

    /** The exposure part of max9296_apply_channel_controls(). */
    method ApplyChannelControls(c: Channel, fps: nat, safeMaxFps: nat, refused: bool, o: WriteResult) returns (ok: bool)
      modifies `isp
      ensures View() == ReplayChannel(old(View()), c, fps, safeMaxFps, refused, o)
      ensures ok <==> !ReplayChannelFails(old(View()), c, fps, safeMaxFps, refused, o)
      ensures topology.Active(c) && !SeedDue(old(View()), fps, safeMaxFps) ==> ok && isp == old(isp)
      ensures topology.Active(c) && SeedDue(old(View()), fps, safeMaxFps) ==>
                if refused then !ok && isp == old(isp)
                else if o == Done then ok && isp.At(c).value == CachedReg(Cached(), c).value
                else ok == !(reinitRequired || Overridden(View()))
    {
      if topology.Active(c) {
        RouteIs(View(), c, fps, safeMaxFps);
      }
      var pairAeOn := if topology.dual then aeOn.ch0 && aeOn.ch1 else if c == Ch1 then aeOn.ch1 else aeOn.ch0;
      var d := DecideReplay(topology.dual, c, overrideMask, pairAeOn, fps, safeMaxFps, exposure,
                            CachedReg(Cached(), Ch0).value, CachedReg(Cached(), Ch1).value);
      var mustSucceed := d.hasOverride || reinitRequired;
      ok := true;
      if d.route != Skip {
        if refused {
          return false;
        }
        if d.route == Pair {
          isp := Broadcast(topology, isp, Reg(d.value, FromShared), o);
        } else {
          isp := WriteOne(topology, isp, c,
                          Reg(d.value, if d.hasOverride && overrideMask.Has(c) then FromOverride else FromShared), o);
        }
        ok := !(o != Done && mustSucceed);
      }
    }

    /** max9296_apply_cached_controls() */
    method ApplyCachedControls(fps: nat, safeMaxFps: nat, refused: bool, o0: WriteResult, o1: WriteResult) returns (ok: bool)
      modifies `isp, `firmwareReady
      ensures View() == ReplayStep(old(View()), fps, safeMaxFps, refused, o0, o1) && ok == firmwareReady
      ensures ok <==> !SeedDue(old(View()), fps, safeMaxFps)
                      || (!refused && (Taken(topology, o0, o1) || !(reinitRequired || Overridden(old(View())))))
      ensures !SeedDue(old(View()), fps, safeMaxFps) || refused ==> isp == old(isp)
      ensures Consistent(Cached()) && ok && o0 == o1 == Done && SeedDue(old(View()), fps, safeMaxFps) ==> Refines(View())
    {
      hide ReplayStep, SeedDue, Overridden, Refines, Consistent;
      ReplayReadyIff(View(), fps, safeMaxFps, refused, o0, o1);
      if Consistent(Cached()) {
        ReplaySeedsWhenDue(View(), fps, safeMaxFps);
      }
      ok := ReplayChannels(fps, safeMaxFps, refused, o0, o1);
    }

    method ReplayChannels(fps: nat, safeMaxFps: nat, refused: bool, o0: WriteResult, o1: WriteResult) returns (ok: bool)
      modifies `isp, `firmwareReady
      ensures View() == ReplayStep(old(View()), fps, safeMaxFps, refused, o0, o1) && ok == firmwareReady
    {
      hide ReplayChannel, ReplayChannelFails, SeedDue, Overridden;
      firmwareReady := false;
      if topology.dual {
        ok := ApplyChannelControls(Ch0, fps, safeMaxFps, refused, o0);
        var ok1 := ApplyChannelControls(Ch1, fps, safeMaxFps, refused, o1);
        ok := ok && ok1;
      } else {
        ok := ApplyChannelControls(topology.active, fps, safeMaxFps, refused, o0);
      }
      if ok {
        firmwareReady := true;
      }
    }

    /** max9296_invalidate_exposure_hardware_locked(), where a reinitialization is pending. */
    method InvalidateIfRequired()
      requires Valid()
      modifies this
      ensures Valid() && ops == old(ops) + [Invalidate]
      ensures View() == InvalidateStep(old(View()))
    {
      hide After, IsRun;
      Extend(ops, Invalidate);
      if reinitRequired {
        firmwareReady, hardwareValid := false, false;
      }
      ops := ops + [Invalidate];
    }

    /** The exposure side of max9296_prepare_hardware_locked(). */
    method PrepareHardware(t: Topology, load: Load, fps: nat, safeMaxFps: nat, refused: bool, w: StartWrites)
      returns (ok: bool)
      requires Valid() && !hardwareValid
      modifies this
      ensures Valid() && ops == old(ops) + [Cold(t, load, fps, safeMaxFps, refused, w.cold0, w.cold1)]
      ensures ok == hardwareValid && (ok ==> load == Loaded && !reinitRequired)
      ensures ok <==> load == Loaded
                      && (!SeedDue(View(), fps, safeMaxFps)
                          || (!refused && (Taken(t, w.cold0, w.cold1) || !(old(reinitRequired) || Overridden(View())))))
      ensures ok ==> topology == t && (!SeedDue(View(), fps, safeMaxFps) ==> isp == RELOADED)
      ensures ok && w.cold0 == w.cold1 == Done && SeedDue(View(), fps, safeMaxFps) ==> Refines(View())
      ensures Cached() == old(Cached()) && aeOn == old(aeOn) && (!ok ==> reinitRequired == old(reinitRequired))
      ensures topology == (if load == TurnedAway then old(topology) else t) && (load != Loaded ==> isp == old(isp))
    {
      hide ColdStep, After, IsRun, SeedDue, Overridden, Refines;
      OverrideBitIsDifference(ops);
      var cold := Cold(t, load, fps, safeMaxFps, refused, w.cold0, w.cold1);
      Extend(ops, cold);
      ok := Initialize(t, load, fps, safeMaxFps, refused, w);
      ops := ops + [cold];
    }

    method Initialize(t: Topology, load: Load, fps: nat, safeMaxFps: nat, refused: bool, w: StartWrites) returns (ok: bool)
      requires !hardwareValid
      modifies `firmwareReady, `hardwareValid, `reinitRequired, `topology, `isp
      ensures View() == ColdStep(old(View()), t, load, fps, safeMaxFps, refused, w.cold0, w.cold1)
      ensures ok == hardwareValid && (ok ==> load == Loaded && !reinitRequired)
      ensures ok <==> load == Loaded
                      && (!SeedDue(View(), fps, safeMaxFps)
                          || (!refused && (Taken(t, w.cold0, w.cold1) || !(old(reinitRequired) || Overridden(View())))))
      ensures ok ==> topology == t && (!SeedDue(View(), fps, safeMaxFps) ==> isp == RELOADED)
      ensures ok && Consistent(old(Cached())) && w.cold0 == w.cold1 == Done && SeedDue(View(), fps, safeMaxFps) ==>
                Refines(View())
      ensures Cached() == old(Cached()) && aeOn == old(aeOn) && (!ok ==> reinitRequired == old(reinitRequired))
      ensures topology == (if load == TurnedAway then old(topology) else t) && (load != Loaded ==> isp == old(isp))
    {
      hide ReplayStep, Consistent;
      firmwareReady, ok := false, false;
      if load != TurnedAway {
        topology := t;
      }
      if load == Loaded {
        isp := RELOADED;
        ghost var loaded := View();
        ok := ApplyCachedControls(fps, safeMaxFps, refused, w.cold0, w.cold1);
        ReplayKeepsRest(loaded, fps, safeMaxFps, refused, w.cold0, w.cold1);
        if ok {
          reinitRequired, hardwareValid := false, true;
        }
      }
    }

    /** The exposure side of a stream start: invalidate when a reinitialization is pending, initialize when
        the hardware is not valid, then replay the cache.  When it succeeds no override is left hidden, whatever
        became of the single writes, and when the seed was written and taken the registers hold the cached
        values. */
    method StreamOnControls(t: Topology, load: Load, fps: nat, safeMaxFps: nat, refused: bool, w: StartWrites)
      returns (ok: bool)
      requires Valid() && HarmlessRun(ops)
      modifies this
      ensures Valid() && HarmlessRun(ops)
      ensures ok ==> hardwareValid && !reinitRequired && firmwareReady && NothingHidden(View())
      ensures ok && w.replay0 == w.replay1 == Done ==>
                if SeedDue(View(), fps, safeMaxFps) then Refines(View())
                else isp == if old(hardwareValid && !reinitRequired) then old(isp) else RELOADED
      ensures (old(hardwareValid && !reinitRequired) || load == Loaded) && !refused && w == ALL_TAKEN ==> ok
    {
      hide Step, Enabled, ReplayStep, After, IsRun, HarmlessRun, DecideReplay, NothingHidden, Refines, SeedDue, Overridden;
      Extend(ops, Invalidate);
      InvalidateIfRequired();
      if !hardwareValid {
        Extend(ops, Cold(t, load, fps, safeMaxFps, refused, w.cold0, w.cold1));
        ok := PrepareHardware(t, load, fps, safeMaxFps, refused, w);
        if !ok {
          return;
        }
      }
      ghost var loaded := View();
      ok := ReplayControls(fps, safeMaxFps, refused, w);
      SeedDueLooks(loaded, View(), fps, safeMaxFps);
    }

    /** The replay of a stream start. */
    method ReplayControls(fps: nat, safeMaxFps: nat, refused: bool, w: StartWrites) returns (ok: bool)
      requires Valid() && HarmlessRun(ops) && hardwareValid && !reinitRequired
      modifies this
      ensures Valid() && HarmlessRun(ops) && hardwareValid && !reinitRequired && ok == firmwareReady
      ensures NothingHidden(View())
      ensures ok <==> !SeedDue(old(View()), fps, safeMaxFps)
                      || (!refused && (Taken(topology, w.replay0, w.replay1) || !Overridden(old(View()))))
      ensures Cached() == old(Cached()) && aeOn == old(aeOn) && topology == old(topology)
      ensures !SeedDue(View(), fps, safeMaxFps) ==> isp == old(isp)
      ensures ok && w.replay0 == w.replay1 == Done && SeedDue(View(), fps, safeMaxFps) ==> Refines(View())
    {
      hide ReplayStep, After, IsRun, HarmlessRun, DecideReplay, NothingHidden, Refines;
      var replay := Replay(fps, safeMaxFps, refused, w.replay0, w.replay1);
      Extend(ops, replay);
      ReplayKeepsRest(View(), fps, safeMaxFps, refused, w.replay0, w.replay1);
      OverrideBitIsDifference(ops);
      ok := ApplyCachedControls(fps, safeMaxFps, refused, w.replay0, w.replay1);
      ops := ops + [replay];
      SafeAlways(ops);
    }

    /** The exposure-auto controls of a channel. */
    method SetExposureAuto(c: Channel, on: bool, allowed: bool, refused: bool, o: WriteResult) returns (ok: bool)
      requires Valid()
      modifies this
      ensures Valid() && ops == old(ops) + [AutoExposure(c, on, allowed, refused, o)]
      ensures ok <==> on || (!refused && (allowed && firmwareReady ==> o == Done))
      ensures aeOn == if !on && refused then old(aeOn) else old(aeOn).With(c, on)
      ensures !on && allowed && old(firmwareReady) && ok && (topology.dual || c == topology.active) ==>
                isp.At(c).value == CachedReg(Cached(), c).value && (o == Done ==> isp.At(c) == CachedReg(Cached(), c))
      ensures on || refused || !allowed || !old(firmwareReady) || o == Failed(false) ==> isp == old(isp)
      ensures Cached() == old(Cached()) && hardwareValid == old(hardwareValid) && reinitRequired == old(reinitRequired)
    {
      hide After, IsRun;
      Extend(ops, AutoExposure(c, on, allowed, refused, o));
      ops := ops + [AutoExposure(c, on, allowed, refused, o)];
      if !on && refused {
        return false;
      }
      aeOn := aeOn.With(c, on);
      ok := true;
      if allowed && firmwareReady && !on {
        isp := WriteOne(topology, isp, c, CachedReg(Cached(), c), o);
        ok := o == Done;
      }
    }
  }
}
