/** The pure register policies of the driver and the hardware fingerprint that gates warm reuse.

    A fingerprint names one programming of a deserializer.  Warm reuse is allowed when two
    fingerprints compare equal, so the comparison has to be neither coarser nor finer than what
    the writers actually put into the registers.  `EqualIffSameRegisters` is that statement. */
module PreviewPolicy {
  /** Build constants: the two frame-rate ceilings a build may override. */
  datatype Build = Build(max360: nat, maxHd: nat)

  const DEFAULT_MAX_FPS := 30
  const EXPOSURE_SAFE_MAX_FPS := 30

  predicate UsesHighFps(fps: nat) {
    30 < fps <= 120
  }

  /** The 640x360 output window in which the preview ceiling is programmed at all. */
  predicate OutputUsesHighFps(build: Build, width: nat, height: nat, fps: nat) {
    width == 640 && height == 360 && fps <= build.max360 && UsesHighFps(fps)
  }

  function MaxFpsFixed8(fps: nat): nat {
    fps * 256
  }

  function ProgrammedMaxFps(build: Build, width: nat, height: nat, fps: nat): nat {
    if OutputUsesHighFps(build, width, height, fps) then MaxFpsFixed8(fps) else 0
  }
}

module ExposurePolicy {
  /** One bit per local channel; the C mask has exactly these two bits. */
  datatype Mask = Mask(ch0: bool, ch1: bool) {
    predicate Any() {
      ch0 || ch1
    }

    predicate Has(channel: Channel) {
      if channel == Ch1 then ch1 else ch0
    }

    /** The other mask lacks a bit this one has. */
    predicate ClearedBy(desired: Mask) {
      (ch0 && !desired.ch0) || (ch1 && !desired.ch1)
    }
  }

  const NO_OVERRIDE := Mask(false, false)

  datatype Channel = Ch0 | Ch1

  datatype SeedRoute = Skip | Pair | OneChannel

  datatype ReplayDecision = ReplayDecision(route: SeedRoute, value: int, hasOverride: bool)

  /** What V4L2 controls EXP_TIME, EXPOSURE_CH0 and EXPOSURE_CH1 hold, with their override bits. */
  datatype Control = Control(shared: int, ch0: int, ch1: int, mask: Mask) {
    function Value(channel: Channel): int {
      if channel == Ch1 then ch1 else ch0
    }
  }

  /** Which members of the cluster one update carries, and the requested values. */
  datatype Update = Update(newShared: bool, newCh0: bool, newCh1: bool, shared: int, ch0: int, ch1: int)

  function ControlUpdate(previous: Control, u: Update): Control {
    var c1 := if u.newShared then Control(u.shared, u.shared, u.shared, NO_OVERRIDE) else previous;
    var c2 := if u.newCh0
              then c1.(ch0 := u.ch0, mask := c1.mask.(ch0 := u.ch0 != c1.shared))
              else c1;
    if u.newCh1
    then c2.(ch1 := u.ch1, mask := c2.mask.(ch1 := u.ch1 != c2.shared))
    else c2
  }

  function DecideReplay(dual: bool, channel: Channel, mask: Mask, pairAeOn: bool, fps: nat, safeMaxFps: nat,
                        shared: int, ch0: int, ch1: int): ReplayDecision
  {
    var hasOverride := if dual then mask.Any() else mask.Has(channel);
    var value := if hasOverride then (if channel == Ch1 then ch1 else ch0) else shared;
    var route := if !hasOverride && pairAeOn && fps > safeMaxFps then Skip
                 else if dual && !hasOverride then Pair
                 else OneChannel;
    ReplayDecision(route, value, hasOverride)
  }

  /** The rate-dependent part of the decision, taken from the decision itself. */
  function FpsSeedRoute(dual: bool, fps: nat, safeMaxFps: nat): SeedRoute {
    DecideReplay(dual, Ch0, NO_OVERRIDE, true, fps, safeMaxFps, 0, 0, 0).route
  }

  predicate ChannelIsActive(dual: bool, active: Channel, requested: Channel) {
    dual || active == requested
  }

  predicate SessionShouldReset(current: nat, requested: nat) {
    requested != 0 && requested != current
  }

  predicate SessionRequiresReinit(current: nat, requested: nat, mask: Mask) {
    mask.Any() && SessionShouldReset(current, requested)
  }
}

module Fingerprint {
  import opened PreviewPolicy
  import opened ExposurePolicy

  /** A register table.  The right-hand tables share id and size with the left-hand ones but are
      different tables; NoMode is the null pointer of a fingerprint that was never filled in. */
  datatype Mode = NoMode | Dual720 | Dual1080 | Dual360
                | Left720 | Left1080 | Left360 | Right720 | Right1080 | Right360

  datatype Fingerprint = Fingerprint(mode: Mode, width: nat, height: nat, code: nat, fps: nat, enable: nat, crop: bool)

  const NO_FINGERPRINT := Fingerprint(NoMode, 0, 0, 0, 0, 0, false)

  /** MEDIA_BUS_FMT_UYVY8_2X8 */
  const UYVY := 0x2006

  predicate IsDual(m: Mode) {
    m.Dual720? || m.Dual1080? || m.Dual360?
  }

  predicate IsRight(m: Mode) {
    m.Right720? || m.Right1080? || m.Right360?
  }

  function Width(m: Mode): nat {
    match m
    case NoMode => 0
    case Dual720 => 2560
    case Dual1080 => 3840
    case Dual360 => 1280
    case Left720 => 1280
    case Right720 => 1280
    case Left1080 => 1920
    case Right1080 => 1920
    case Left360 => 640
    case Right360 => 640
  }

  function Height(m: Mode): nat {
    match m
    case NoMode => 0
    case Dual720 => 720
    case Left720 => 720
    case Right720 => 720
    case Dual1080 => 1080
    case Left1080 => 1080
    case Right1080 => 1080
    case Dual360 => 360
    case Left360 => 360
    case Right360 => 360
  }

  function MaxFps(build: Build, m: Mode): nat {
    if Height(m) == 360 then build.max360
    else if Height(m) == 720 then build.maxHd
    else if Height(m) == 1080 then DEFAULT_MAX_FPS
    else 0
  }

  function OutputWidth(m: Mode): nat {
    if IsDual(m) then Width(m) / 2 else Width(m)
  }

  /** The table, size, format, rate and topology clauses of the prepare preflight. */
  predicate Admissible(build: Build, fp: Fingerprint) {
    && fp.mode != NoMode
    && fp.width == Width(fp.mode) && fp.height == Height(fp.mode)
    && fp.code == UYVY
    && 1 <= fp.fps <= MaxFps(build, fp.mode)
    && fp.enable == (if IsDual(fp.mode) then 3 else if IsRight(fp.mode) then 2 else 1)
  }

  function PreviewMaxFps(build: Build, fp: Fingerprint): nat {
    var outputWidth := if IsDual(fp.mode) then fp.width / 2 else fp.width;
    ProgrammedMaxFps(build, outputWidth, fp.height, fp.fps)
  }

  function ExposureSeedRoute(fp: Fingerprint): SeedRoute {
    if fp.mode == NoMode then Skip
    else FpsSeedRoute(IsDual(fp.mode), fp.fps, EXPOSURE_SAFE_MAX_FPS)
  }

  /** Hardware identity: what warm reuse compares. */
  predicate Equal(build: Build, l: Fingerprint, r: Fingerprint) {
    && l.mode == r.mode && l.width == r.width && l.height == r.height && l.code == r.code
    && PreviewMaxFps(build, l) == PreviewMaxFps(build, r)
    && ExposureSeedRoute(l) == ExposureSeedRoute(r)
    && l.enable == r.enable && l.crop == r.crop
  }

  /** Request identity: hardware identity and the rate itself. */
  predicate RequestEqual(build: Build, l: Fingerprint, r: Fingerprint) {
    Equal(build, l, r) && l.fps == r.fps
  }

  // ----- the writers -----

  datatype Target = Broadcast | IspCh0 | IspCh1

  /** One register write of a cold initialization. */
  datatype Write = Write(target: Target, reg: nat, value: int)

  const PREVIEW_MAX_FPS := 0x2020
  const TRIGGER_MAX_MISMATCH := 0x6112
  const EXP_TIME := 0x500c
  const AE_CTRL := 0x5002
  const AE_MANUAL := 0x0290

  /** The part of the control cache that the exposure replay reads. */
  datatype Cache = Cache(control: Control, ae0: bool, ae1: bool)

  /** The rate-derived writes of one ISP in the post-firmware program. */
  function PreviewWrites(build: Build, fp: Fingerprint, target: Target): seq<Write> {
    if OutputUsesHighFps(build, OutputWidth(fp.mode), Height(fp.mode), fp.fps)
    then [Write(target, PREVIEW_MAX_FPS, MaxFpsFixed8(fp.fps)), Write(target, TRIGGER_MAX_MISMATCH, 0)]
    else []
  }

  /** The seed writes of one channel in the cached-control replay. */
  function SeedWrites(fp: Fingerprint, cache: Cache, channel: Channel, target: Target): seq<Write> {
    var dual := IsDual(fp.mode);
    var aeOn := if dual then cache.ae0 && cache.ae1 else if channel == Ch1 then cache.ae1 else cache.ae0;
    var c := cache.control;
    var d := DecideReplay(dual, channel, c.mask, aeOn, fp.fps, EXPOSURE_SAFE_MAX_FPS, c.shared,
                          if c.mask.ch0 then c.ch0 else c.shared,
                          if c.mask.ch1 then c.ch1 else c.shared);
    if d.route == Skip then []
    else [Write(target, AE_CTRL, AE_MANUAL),
          Write(if d.route == Pair then Broadcast else target, EXP_TIME, d.value)]
  }

  /** Every write of a cold initialization whose presence or value depends on the rate. */
  function FpsTrace(build: Build, fp: Fingerprint, cache: Cache): seq<Write> {
    if IsDual(fp.mode) then
      PreviewWrites(build, fp, IspCh0) + PreviewWrites(build, fp, IspCh1)
      + SeedWrites(fp, cache, Ch0, IspCh0) + SeedWrites(fp, cache, Ch1, IspCh1)
    else
      PreviewWrites(build, fp, Broadcast)
      + SeedWrites(fp, cache, if fp.enable == 2 then Ch1 else Ch0, Broadcast)
  }

  /** Two fingerprints of one table program the same rate-dependent registers, whatever the
      control cache holds. */
  ghost predicate SameFpsTrace(build: Build, l: Fingerprint, r: Fingerprint) {
    forall cache: Cache :: FpsTrace(build, l, cache) == FpsTrace(build, r, cache)
  }

  // ----- when the rate is written -----

  /** An untouched cache: automatic exposure, no override. */
  const QUIET := Cache(Control(0, 0, 0, NO_OVERRIDE), true, true)

  /** With an untouched cache an initialization writes an exposure seed exactly at rates of at most 30. */
  lemma SeedsUpToSafeRate(build: Build, fp: Fingerprint)
    requires Admissible(build, fp)
    ensures (exists w :: w in FpsTrace(build, fp, QUIET) && w.reg == EXP_TIME) <==> fp.fps <= 30
  {
    var channel := if fp.enable == 2 then Ch1 else Ch0;
    SeedOf(fp, Ch0, IspCh0);
    SeedOf(fp, Ch1, IspCh1);
    SeedOf(fp, channel, Broadcast);
    if fp.fps <= 30 {
      var target := if IsDual(fp.mode) then IspCh0 else Broadcast;
      var seeds := SeedWrites(fp, QUIET, if IsDual(fp.mode) then Ch0 else channel, target);
      assert seeds[1].reg == EXP_TIME && seeds[1] in FpsTrace(build, fp, QUIET);
    }
  }

  lemma SeedOf(fp: Fingerprint, channel: Channel, target: Target)
    ensures var seeds := SeedWrites(fp, QUIET, channel, target);
            if fp.fps > 30 then seeds == []
            else |seeds| == 2 && seeds[0] == Write(target, AE_CTRL, AE_MANUAL) && seeds[1].reg == EXP_TIME
                 && seeds[1].target == if IsDual(fp.mode) then Broadcast else target
  {
  }

  /** The preview ceiling is written exactly for 360-line tables above 30 frames a second, as the rate in 8.8 fixed
      point, to each processor of a pair on its own. */
  lemma CeilingAboveThirty(build: Build, fp: Fingerprint, target: Target)
    requires Admissible(build, fp) && fp.fps <= 120
    ensures PreviewWrites(build, fp, target) ==
            if Height(fp.mode) == 360 && fp.fps > 30
            then [Write(target, PREVIEW_MAX_FPS, fp.fps * 256), Write(target, TRIGGER_MAX_MISMATCH, 0)] else []
  {
  }

  // ----- warm reuse is exact -----

  lemma EqualSeedRouteSameSeeds(l: Fingerprint, r: Fingerprint, cache: Cache, channel: Channel, target: Target)
    requires l.mode == r.mode && l.mode != NoMode
    requires ExposureSeedRoute(l) == ExposureSeedRoute(r)
    ensures SeedWrites(l, cache, channel, target) == SeedWrites(r, cache, channel, target)
  {
  }

  lemma EqualCeilingSameWrites(build: Build, l: Fingerprint, r: Fingerprint, target: Target)
    requires Admissible(build, l) && Admissible(build, r) && l.mode == r.mode
    ensures PreviewMaxFps(build, l) == PreviewMaxFps(build, r)
            <==> PreviewWrites(build, l, target) == PreviewWrites(build, r, target)
  {
    if PreviewWrites(build, l, target) == PreviewWrites(build, r, target) && PreviewWrites(build, l, target) != [] {
      assert PreviewWrites(build, l, target)[0] == PreviewWrites(build, r, target)[0];
    }
  }

  /** What the trace of an untouched cache starts with: the preview ceiling, or else a seed, or nothing. */
  lemma TraceShape(build: Build, fp: Fingerprint)
    requires Admissible(build, fp)
    ensures var t, p := FpsTrace(build, fp, QUIET), PreviewWrites(build, fp, if IsDual(fp.mode) then IspCh0 else Broadcast);
            if p == [] then (t == [] <==> fp.fps > 30) && (t != [] ==> t[0].reg == AE_CTRL)
            else && |p| == 2 && t != [] && t[0] == p[0] && p[0].reg == PREVIEW_MAX_FPS && fp.fps > 30
                 && p[1] == Write(p[0].target, TRIGGER_MAX_MISMATCH, 0)
  {
    hide SeedWrites;
    SeedOf(fp, Ch0, IspCh0);
    SeedOf(fp, Ch1, IspCh1);
    SeedOf(fp, if fp.enable == 2 then Ch1 else Ch0, Broadcast);
  }

  lemma RouteOf(build: Build, fp: Fingerprint)
    requires Admissible(build, fp)
    ensures ExposureSeedRoute(fp) == if fp.fps > 30 then Skip else if IsDual(fp.mode) then Pair else OneChannel
  {
  }

  /** So it decides both of its parts. */
  lemma QuietTraceDecides(build: Build, l: Fingerprint, r: Fingerprint)
    requires Admissible(build, l) && Admissible(build, r) && l.mode == r.mode && l.enable == r.enable
    requires SameFpsTrace(build, l, r)
    ensures PreviewMaxFps(build, l) == PreviewMaxFps(build, r)
    ensures ExposureSeedRoute(l) == ExposureSeedRoute(r)
  {
    assert FpsTrace(build, l, QUIET) == FpsTrace(build, r, QUIET);
    TraceShape(build, l);
    TraceShape(build, r);
    RouteOf(build, l);
    RouteOf(build, r);
    EqualCeilingSameWrites(build, l, r, if IsDual(l.mode) then IspCh0 else Broadcast);
    hide FpsTrace, PreviewWrites, PreviewMaxFps, ExposureSeedRoute, Admissible, SameFpsTrace;
    var target := if IsDual(l.mode) then IspCh0 else Broadcast;
    var pl, pr := PreviewWrites(build, l, target), PreviewWrites(build, r, target);
    if pl != [] && pr != [] {
      assert pl == pr;
    }
  }

  /** Warm reuse is exact: two admissible fingerprints compare equal precisely when they select the
      same table, format, enable mask and crop, and a cold initialization would issue the same
      rate-dependent register writes under every state of the control cache. */
  lemma EqualIffSameRegisters(build: Build, l: Fingerprint, r: Fingerprint)
    requires Admissible(build, l) && Admissible(build, r)
    ensures Equal(build, l, r)
            <==> l.mode == r.mode && l.code == r.code && l.enable == r.enable && l.crop == r.crop
                 && SameFpsTrace(build, l, r)
  {
    if l.mode == r.mode && l.enable == r.enable {
      if Equal(build, l, r) {
        forall cache: Cache ensures FpsTrace(build, l, cache) == FpsTrace(build, r, cache) {
          var single := if l.enable == 2 then Ch1 else Ch0;
          EqualCeilingSameWrites(build, l, r, IspCh0);
          EqualCeilingSameWrites(build, l, r, IspCh1);
          EqualCeilingSameWrites(build, l, r, Broadcast);
          EqualSeedRouteSameSeeds(l, r, cache, Ch0, IspCh0);
          EqualSeedRouteSameSeeds(l, r, cache, Ch1, IspCh1);
          EqualSeedRouteSameSeeds(l, r, cache, single, Broadcast);
        }
      } else if SameFpsTrace(build, l, r) {
        QuietTraceDecides(build, l, r);
      }
    }
  }

  /** Adding the raw rate turns the hardware identity into equality of requests. */
  lemma RequestEqualIffSame(build: Build, l: Fingerprint, r: Fingerprint)
    requires Admissible(build, l) && Admissible(build, r)
    ensures RequestEqual(build, l, r) <==> l == r
  {
  }
}
