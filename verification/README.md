# Verified model of the MAX9296 dual-deserializer driver

Two MAX9296 deserializer instances share one board power rail, one reset line and one FSYNC net. This project
models the driver code that keeps them from disturbing each other, together with the decision arithmetic it
depends on, and proves what the code relies on over every input, every run and every interleaving. Paths below are
relative to the root of the driver's repository. `dafny verify dfyconfig.toml` checks the whole project.

## The board protocol

`Protocol.dfy` is a transition system on values. One op is one stretch of code no other thread can see half done:
a section under `max9296_power_lock` with the instance-local code around it. A call that holds the instance lock
over several sections keeps its place in `txn`, one that holds the request lock in `request`; the sibling's steps,
the FSYNC and enable workers and the lease timer interleave freely between sections. Results of I2C, GPIO,
firmware and controls are parameters. `ProtocolInvariants.dfy` proves what each step keeps, `ProtocolRuns.dfy` what
follows over whole runs.

`PreparedHardware.dfy` adds what a READY lease and a committed stream say about the hardware, `LeaseReservation.dfy`
that a lease gives back exactly the reservation it took.

`Driver.dfy` is the same code in its own form: a class for an instance, a class for the board, methods that change
their fields in place, whole calls made of sections with other threads' steps in every gap (`Others`, `Weather`).
Contracts of whole calls hold under any interference. A start of a powered instance has one predicted result whatever
the sibling does (`StartVerdict`); a prepare has one when nothing else happens (`PrepareWorks`). The board keeps the
history of its steps; `Valid` says the history is a run of the protocol that ends in the present state, so every
theorem about runs is one about the objects.

Two orders the driver expects of its V4L2 caller are step conditions on runs, not preconditions of methods: a
stream starts only on an instance with a positive power count (`PoweredStart`), and the count reaches zero only
when the stream is off (`StopBeforePowerOff`). Power conservation needs neither. `CallerOrder.dfy` gives concrete
runs that break each order and lose the guarantee that depends on it, and one in which a removal lets two rates
differ. The protocol starts with both instances probed and linked; epoch 0 means never, the running epoch starts at 1.

Where the model admits more than the code, every theorem still covers the code: a pulse needs only what
`max9296_fsync_pulse_current()` checks, not the worker's own init and enable tests and warm-up sleeps; the
fingerprint of a STREAMON is arbitrary; sections under the FSYNC configuration lock may interleave with everything
that does not hold the power lock.

## The other modules

- `Fingerprint.dfy`: when two hardware identities may share one programming. The register writers are modelled, and
  equality of fingerprints is proved to be equality of what they write.
- `PairHealth.dfy`, `PairVerdict.dfy`: when two equal reads of an 8-bit frame counter prove a stall, and what the
  verdict's log keeps, over any sequence of samples between two resets. Time is real and its readings are whole
  milliseconds; a counter ticks at the configured rate with any phase.
- `ExposureSession.dfy`: the exposure cluster over a configuration session. Registers carry the origin of their
  value (firmware reload, shared control, channel override), so that an override hidden behind a skipped seed can
  be named. As the code does, the model takes a firmware download to reset the exposure register.
- `Firmware.dfy`, `IspBoot.dfy`: the download loop against a receiver with 8192-byte windows, and the boot checks
  around it.
- `PrepareCommand.dfy`: the prepare attribute's text, both directions, and the fingerprints it can request.
- `Crop.dfy`, `DewarpMap.dfy`: crop selection and the default vertex map of the dewarp engine, in 32-bit and UQ
  fixed-point arithmetic with its wrap-around.
- `ResetLine.dfy`, `PeerLifetime.dfy`, `LockOrder.dfy`: the reset descriptor, the raw peer links, and the lock
  hierarchy with its joins.

## What turned out false of the code

Each of these has a lemma at a concrete input and a lemma with the exact condition.

- Hardware that may be reused can hold an exposure override the cache has forgotten. It never does over a run exactly
  when no step of the run does harm (`SafeThroughoutIffHarmless`, `StepKeepsSafeIff`), and there are two harmful steps:
  selecting manual exposure for the idle channel of a single topology while a stray override is cached
  (`ManualHidesIff`, `IdleManualLeavesOverride`), and an update that fails after the device took an override
  (`FailedUpdateHidesIff`, `FailedWriteLeavesOverride`).
- A crop whose extent outgrows the request is not centred: the half offset is unsigned, so the rectangle jumps to an
  edge of the frame (`PositionIs`). With `V4L2_SEL_FLAG_GE` a side comes out one pixel short exactly when its own
  scale is the one taken and lost a remainder to rounding (`GreaterOrEqualSizes`; 321 of 640 columns,
  `GreaterOrEqualLosesAPixel`), and the request is covered exactly when no side is short and no grown side was carried
  off it (`GreaterOrEqualCoversIff`; `GreaterOrEqualMissesRequest`).
- The default vertex map is called an identity map. Inside the image it is one exactly for sides of at most one block
  or of whole 16-pixel blocks, below 4096 pixels (`IdentityIffWholeBlocks`). On any other side every inner crossing
  reads before its own pixel (`RaggedSideDrifts`; 1080 rows end more than 8 pixels off, `Rows1080Drift`), and a
  4096-pixel side collapses (`WidestSideCollapses`).
- The prepare parser caps the rate at 120 even if a build raises a mode's ceiling above it: what can be requested is
  what the preflight admits up to 120 (`ExpressibleIffAdmissible`), so a build with a ceiling of 144 has a 130 fps
  fingerprint no command can ask for (`RaisedCeilingIsOutOfReach`).

Two limits are not failures of the code. Two reservations of one epoch may differ once one of the instances is being
removed, because the conflict test leaves it out (`RemovalLetsRatesDiffer`); until then they agree in every reachable
state (`StreamsAlways`). The download copies the image size to a signed int and sends the whole image exactly when it
fits (`WholeImageIffIntSized`); whether a larger image can be delivered to the driver is outside this repository.

## Model

| member | source | states |
|---|---|---|
| `Fingerprint.EqualIffSameRegisters` | max9296.c:5089-5108 | warm reuse is exact: two admissible fingerprints compare equal if and only if mode, code, enable and crop agree and a cold initialization would issue the same rate-dependent writes under every state of the control cache, for any ceiling constants |
| `Fingerprint.RequestEqualIffSame` | max9296.c:5110-5114 | with the raw rate added, equality of requests is equality of the whole fingerprint |
| `Fingerprint.QuietTraceDecides` | max9296.c:5158-5278 | from the register trace alone one can tell the programmed preview ceiling and the exposure seed route apart, so the comparison is not finer than the registers |
| `Fingerprint.EqualCeilingSameWrites` | max9296_360p_policy.h:130-156 | two rates of one table program the same preview ceiling exactly when they write the same 0x2020 and 0x6112 values |
| `Fingerprint.EqualSeedRouteSameSeeds` | max9296_exposure_policy.h:67-114 | equal seed routes give equal 0x5002 and 0x500c seed writes for every control cache |
| `Fingerprint.SeedsUpToSafeRate` | max9296_exposure_policy.h:84-92 | with an untouched cache an initialization writes an exposure seed exactly at rates of at most 30 |
| `Fingerprint.CeilingAboveThirty` | max9296.c:5255-5275 | the preview ceiling is written exactly for 360-line tables above 30 frames a second, as the rate in 8.8 fixed point |
| `ProtocolInvariants.PowerStep` | max9296.c:2339-2404 | every step of either instance keeps: power users equal the number of accounted instances, and a lease and a positive count exclude each other; no assumption on the caller |
| `ProtocolInvariants.EpochMovesOnCrossings` | max9296.c:2364-2390 | the epoch advances by one exactly when the user count crosses between zero and non-zero or a first power-on fails |
| `ProtocolInvariants.SiblingTouched` | max9296.c:2232-2277 | all that any step of one instance can change in the other: its live rate, its serializers' power-on addresses, and the FSYNC state of a stream it pulses for while that stream is entitled |
| `ProtocolInvariants.AccountedFreezesEpoch` | max9296.c:2350-2372 | a step that leaves an instance accounted leaves the epoch where it was |
| `ProtocolInvariants.CadenceStep` | max9296.c:2232-2277 | every step keeps: a stream that may authorize a pulse holds a reservation of the current epoch equal to its live rate, and the reservations of two instances agree while neither is being removed |
| `ProtocolInvariants.LeaseStep` | max9296.c:5684-5702 | every step keeps the lease timer protocol: generations, queued or waiting timeout, drained timer during requests |
| `ProtocolInvariants.ColdStep` | max9296.c:5433-5530 | every step keeps: valid hardware has the boot record of its own epoch and fingerprint, judged after configuration and not failed |
| `ProtocolInvariants.WalkStartsFresh` | max9296.c:5468-5487 | a mode-table walk starts only on an instance that owns power, for the first time in the epoch, with serializers at their power-on addresses |
| `ProtocolInvariants.FsyncStep` | max9296.c:6249-6266 | every step keeps: a published FSYNC state belongs to a running stream |
| `ProtocolInvariants.RequestStep` | max9296.c:5750-5754 | every step keeps: a call that will give the request lock back holds it |
| `ProtocolRuns.PowerAlways` | max9296.c:1909-1926 | power conservation in every reachable state, whatever the caller does |
| `ProtocolRuns.RequestAlways` | max9296.c:5918-5922 | in every reachable state a call that will give the request lock back holds it, whatever the caller does |
| `ProtocolRuns.StreamsAlways` | max9296.c:6015-6021 | power, cadence, lease and cold-initialization invariants in every reachable state of runs whose streams start powered |
| `ProtocolRuns.FsyncAlways` | max9296.c:6033-6053 | in every reachable state FSYNC running implies streaming |
| `ProtocolRuns.EpochNeverDecreases` | max9296.c:1927-1932 | over every run the epoch never decreases |
| `ProtocolRuns.AccountedSeesOneEpoch` | max9296.c:2350-2372 | an instance that stays accounted sees one epoch over any stretch of a run, whatever its sibling does |
| `ProtocolRuns.PulsesAreReserved` | max9296.c:6033-6053 | every pulse serves only streams that hold a current reservation at their live rate, and a shared pulse serves one rate |
| `ProtocolRuns.EntitledStreamKeepsRate` | max9296.c:2300-2337 | over any stretch in which a stream stays entitled to pulse, no failure, cancel, expiry or survivor path of either instance changes its reservation or its live rate |
| `ProtocolRuns.FsyncStemsFromPulse` | max9296.c:6043-6052 | a published FSYNC state stems from a pulse that served this very life of the stream |
| `ProtocolRuns.OutputFollowsPulse` | max9296.c:6063-6081 | every CSI output enable comes after a pulse authorized by the same stream life, for all interleavings of workers, starts, stops and removals |
| `ProtocolRuns.FailedStartRestoresReservation` | max9296.c:6156-6240 | a failed start of an idle instance leaves the epoch and its reservation of the current epoch exactly as before its bind |
| `ProtocolRuns.KeptReservationSurvives` | max9296.c:6277-6310 | a reservation kept by a failed output disable survives every later start, prepare, cancel, expiry and retried stop until a stop that really ends a stream disables the output or the epoch moves |
| `ProtocolRuns.FailedStopReservationOutlives` | max9296.c:6265-6310 | the same told from the failed stop itself: what it leaves reserved stays reserved at every later moment before such an end |
| `ProtocolRuns.LeaseAlwaysTimed` | max9296.c:5734-5754 | outside a request every held lease of a live instance is ready or stale with matching generations and its timeout is queued or waiting for the instance lock |
| `ProtocolRuns.ExpiryEndsItsOwnLease` | max9296.c:5980-6013 | a timeout callback that ends a lease stems from the latest arming of that very lease, although s_power cancels the work without waiting |
| `ProtocolRuns.OneWalkPerEpoch` | max9296.c:5461-5487 | one instance starts at most one mode-table walk in one epoch, each on owned power and from power-on addresses |
| `ProtocolRuns.RetryInEpochWritesNothing` | max9296.c:5464-5476 | after a walk has started in an epoch, however it ended, every later attempt of that instance in that epoch touches neither serializers nor boot record, leaves the hardware invalid and fails with ESTALE, or with the preflight's error |
| `ProtocolRuns.ValidHardwareIsProven` | max9296.c:5500-5520 | valid hardware always stems from the latest attempt, of its own epoch and fingerprint, whose last boot check ran after configuration and passed |
| `CallerOrder.UnpoweredStartLosesReservation` | max9296.c:6144-6170 | a start without local power can end up entitled to pulse with no reservation of the current epoch |
| `CallerOrder.EarlyPowerOffSkipsPulse` | max9296.c:2148-2170 | returning the last reference under a running stream lets the next life enable its output before any pulse of its own |
| `CallerOrder.LeaseStartLosesTimeout` | max9296.c:5750-5772 | a start on a lease nobody consumed, then another prepare, leaves a lease held with no timeout |
| `CallerOrder.RemovalLetsRatesDiffer` | max9296.c:2203-2225 | a concrete run in which a removal lets the sibling reserve another rate in the same epoch |
| `PreparedHardware.FitAlways` | max9296.c:5827-5873 | in every reachable state: ready means ready, an admitted request owes no reinitialization on valid hardware, and a start past its checks runs on hardware programmed for it |
| `PreparedHardware.ReadyIsReady` | max9296.c:5654-5664 | over every run, a held lease that reads READY has its rate reserved and its hardware programmed for exactly its request in this epoch, with no exposure reinitialization owed |
| `PreparedHardware.StreamRunsOnItsHardware` | max9296.c:6172-6248 | over every run, a stream is committed only on hardware that is programmed in this epoch for the fingerprint its start was bound with, whatever happens on the board in between |
| `LeaseReservation.LeaseLeavesNoReservation` | max9296.c:5902-5916 | over the whole life of a lease, renewals and the sibling's steps included, its end leaves the instance reserving exactly what it reserved before the lease was published |
| `Driver.Deserializer.QueueLease` | max9296.c:5684-5702 | arms exactly when the lease can be armed and no timeout is pending; otherwise the lease goes to its unarmed end |
| `Driver.Deserializer.Admit` | max9296.c:5754-5835 | admission of a request: its exact condition; a refused one leaves lease, request and hardware as they were, with a fresh timeout; a pending reinitialization always takes warm reuse away, and otherwise hardware counts as current exactly when it is fit for the request |
| `Driver.Deserializer.FailCold` | max9296.c:5524-5530 | the failure tail of a cold initialization and where it sends its caller |
| `Driver.Deserializer.ConsumeLease` | max9296.c:2429-2440 | s_power takes the lease over: user, reservation flag, timer and state |
| `Driver.SharedBoard.SetPower` | max9296.c:2339-2404 | the global user count decides whether the physical sequence runs, in both directions and for a failed first power-on |
| `Driver.SharedBoard.ConfigureSharedFsync` | max9296.c:2232-2277 | no rate moves until every live reservation of the epoch agrees; then both live rates move together |
| `Driver.SharedBoard.TakeReference` | max9296.c:2425-2447 | s_power(1): lease transfer, first user or one more local reference; a consumed lease leaves its user, its reservation and a request that reads consumed, or stale if it did; EIO exactly for a failed first power-on |
| `Driver.SharedBoard.ReturnReference` | max9296.c:2448-2456 | s_power(0): one local reference less, the last one returns the global user; rate and request stay; EINVAL exactly without a reference, EIO exactly for a failed last power-off |
| `Driver.SharedBoard.SPower` | max9296.c:2408-2463 | s_power is one step of the history; each result has its exact cause |
| `Driver.SharedBoard.SFrameInterval` | max9296.c:4535-4596 | invalid rates change nothing; a valid one is refused exactly when it contradicts a live reservation of either instance; an accepted one moves both live rates and makes a ready or consumed prepare stale exactly when the rate changed |
| `Driver.SharedBoard.WriteControl` | max9296.c:5121-5128 | format and control writes mark a ready or consumed prepare stale, set or settle a demanded reinitialization, and touch nothing else of the instance |
| `Driver.SharedBoard.FsyncPulse` | max9296.c:6033-6058 | a pulse goes out exactly when every stream it serves is entitled, and publishes the FSYNC state of exactly those streams in the same section |
| `Driver.SharedBoard.EnableCsiOutput` | max9296.c:6063-6081 | the output is enabled exactly for a live current stream whose FSYNC runs |
| `Driver.SharedBoard.BeginRemove` | max9296.c:8047-8051 | a removal becomes visible in one section |
| `Driver.SharedBoard.ReconcileRemoved` | max9296.c:8076-8107 | the removed instance's single global user goes back exactly once and the epoch moves when it was the last |
| `Driver.SharedBoard.StopSurvivor` | max9296.c:8162-8203 | a survivor without a worker stops streaming and goes on to drop exactly when its own stream was ended with the output off and no lease claims the reservation |
| `Driver.SharedBoard.OpenRequest` | max9296.c:5750-5753 | a request takes the request lock and cancels the timeout before the instance lock |
| `Driver.SharedBoard.AdmitRequest` | max9296.c:5754-5835 | admission under the instance lock is one step with its exact condition; it ends admitted, returned or ending the lease, and a pending reinitialization takes warm reuse and hardware validity away |
| `Driver.SharedBoard.RebindHeldLease` | max9296.c:5837-5873 | renewing a held lease: ready exactly on current hardware without a rate conflict, to be programmed exactly without either, for exactly this request with its rate reserved |
| `Driver.SharedBoard.AcquireForPrepare` | max9296.c:5583-5618 | a leaked local reference becomes the lease's user, otherwise one is acquired; EIO exactly for a failed first power-on |
| `Driver.SharedBoard.PublishFreshLease` | max9296.c:5619-5664 | reservation, lease and request identity are published together exactly without a rate conflict, or nothing is; the initialization is skipped exactly on fit hardware, which is then ready for exactly this request |
| `Driver.SharedBoard.ReleaseUnpublishedPower` | max9296.c:5678-5682 | power acquired for an unpublished lease goes back |
| `Driver.SharedBoard.BeginCold` | max9296.c:5433-5483 | a cold initialization starts exactly when it is not refused and not already attempted in this epoch; ownership, rate and request stay |
| `Driver.SharedBoard.EndCold` | max9296.c:5484-5530 | only a complete attempt makes the hardware valid, in this epoch, for the requested fingerprint and with nothing owed; every failure leaves it invalid with its debt and sends the caller to its release path |
| `Driver.SharedBoard.ArmHeldLease` | max9296.c:5881-5887 | the timeout of a fresh lease is queued exactly when it can be armed and none is pending; otherwise a held lease ends unarmed |
| `Driver.SharedBoard.DropLeaseReservation` | max9296.c:6000-6003 | a lease end returns exactly the reservation the lease created, and a timeout none of a streaming instance |
| `Driver.SharedBoard.RelinquishLease` | max9296.c:5960-5974 | a lease end clears the lease and its reservation flag, returns its user and leaves the state its cause asks for: idle, expired or failed |
| `Driver.SharedBoard.AdmitCancellation` | max9296.c:5931-5956 | cancel ends a held lease of an idle instance, or leaves the request idle; ENODEV exactly on a dying instance, EBUSY exactly on a preparing, streaming or powered one |
| `Driver.SharedBoard.RunTimeout` | max9296.c:5986-6012 | the callback ends the lease exactly when it is held by a live unpowered instance in its own generation, ready or stale |
| `Driver.SharedBoard.BindStream` | max9296.c:6150-6170 | a start binds its rate exactly without a conflict, or changes nothing and returns ESTALE |
| `Driver.SharedBoard.CheckStream` | max9296.c:6172-6203 | hardware in use for another fingerprint aborts with ESTALE, fit hardware replays untouched, everything else is initialized: exactly these three cases |
| `Driver.SharedBoard.ReplayControls` | max9296.c:6204-6225 | a failed replay sends the start to its abort |
| `Driver.SharedBoard.CommitStream` | max9296.c:6226-6248 | the commit stamps the current epoch, keeps the hardware, and turns a dying instance away |
| `Driver.SharedBoard.AbortStream` | max9296.c:2329-2337 | a failed start drops only the reservation its own bind created, and not under a running stream |
| `Driver.SharedBoard.StopStream` | max9296.c:6250-6266 | a stop clears streaming, commit and FSYNC state together and goes on to drop only after ending a stream with the output off |
| `Driver.SharedBoard.DropStoppedReservation` | max9296.c:6308-6310 | the reservation goes back after such a stop |
| `Driver.SharedBoard.Others` | max9296.c:5593-5597 | while a call holds its instance lock, steps of other threads leave everything it relies on undisturbed and, when the instance owns power, the epoch too; a request that drains the timer keeps its place |
| `Driver.SharedBoard.OthersMeanwhile` | max9296.c:5593-5597 | a lease that is ready for a request, or under way, stays so over any steps of other threads |
| `Driver.SharedBoard.PrepareHardware` | max9296.c:5433-5530 | the whole initialization with interference ends exactly as preflight, epoch stamp and outcome say, with that errno; on success the hardware is valid in this epoch for the requested fingerprint and owes nothing, on failure it is invalid and owes what it owed |
| `Driver.SharedBoard.FailStart` | max9296.c:6182-6242 | the failed end of a start restores the reservation its bind found |
| `Driver.SharedBoard.RunStart` | max9296.c:6172-6248 | a bound powered start, with interference in every gap, ends exactly as its hardware and its surroundings say; only a removal overtakes it |
| `Driver.SharedBoard.BoundStart` | max9296.c:6150-6248 | an admitted start from its bind on: on a powered instance it ends with exactly one predicted result, success only on hardware fit for its fingerprint; a failed one leaves the reservation of an idle instance as before the bind |
| `Driver.SharedBoard.SStreamOn` | max9296.c:6093-6248 | the whole STREAMON: turned away without effect with the error of the first test that fails; otherwise, on a powered instance, exactly the result that rate conflict, fingerprint mismatch, initialization and replay decide; success means the hardware is programmed for this fingerprint in this epoch and owes nothing |
| `Driver.SharedBoard.SStreamOff` | max9296.c:6249-6320 | the whole STREAMOFF: each result has its exact cause; stopped and FSYNC idle afterwards; the reservation goes back exactly when this call ended a stream and the output is off |
| `Driver.SharedBoard.EndLease` | max9296.c:5956-5974 | a lease end with interference leaves no lease and no reservation flag, gives back exactly the reservation the lease took and keeps one it found, and leaves the state of its cause |
| `Driver.SharedBoard.TakeLease` | max9296.c:5598-5682 | a fresh lease with interference: one left to be armed is ready for exactly this request, one that returned is not held; without interference it works exactly when power, rate and hardware allow |
| `Driver.SharedBoard.SettleFreshLease` | max9296.c:5640-5682 | after publication was decided: unpublished power goes back, missing hardware is programmed, and what is left to be armed is ready for exactly this request |
| `Driver.SharedBoard.RenewLease` | max9296.c:5837-5873 | a renewal with interference: one that is ready or left to be armed serves exactly this request, in this epoch; without interference it works exactly without a conflict on current or programmable hardware |
| `Driver.SharedBoard.ServeAdmitted` | max9296.c:5837-5880 | an admitted request, on a held or a fresh lease, is ready, left to be armed for exactly this request, ending or over |
| `Driver.SharedBoard.CloseRequest` | max9296.c:5881-5916 | a lease left to be armed gets its timeout and is still ready for exactly this request, or it ends and gives back what it took |
| `Driver.SharedBoard.ServeRequest` | max9296.c:5754-5922 | the locked part of a request: success means ready for exactly this fingerprint and generation with the timeout queued; a refused one keeps the lease with a fresh timeout; without interference its result is exactly decided by the state it finds |
| `Driver.SharedBoard.PrepareRequest` | max9296.c:5741-5922 | the whole prepare request: success means preflight passed, the lease is held and ready for exactly this fingerprint and generation, its rate reserved, its hardware programmed in this epoch with no reinitialization owed, its timeout queued; without interference it returns, and succeeds exactly when admission, power, rate and hardware allow |
| `Driver.SharedBoard.ServeCancel` | max9296.c:5931-5976 | the locked part of a cancel: ENODEV and EBUSY have their exact causes and change nothing of ownership, stream, request and rate; otherwise no lease remains, the request is idle and the lease's own reservation is given back |
| `Driver.SharedBoard.CancelPrepare` | max9296.c:5924-5976 | the whole cancel: decided exactly by the state in which it gets the instance lock; after success or a failed power-off no lease and no reservation flag remain, the reservation that lease took is given back and any other is kept |
| `Driver.SharedBoard.LeaseTimeout` | max9296.c:5980-6013 | the whole callback: it ends the held lease of a live instance, the one it was armed for, as expired, and gives back exactly the reservation that lease took |
| `Driver.SharedBoard.StopOrphan` | max9296.c:8162-8203 | the survivor half of a removal leaves the survivor stopped and idle, and drops the reservation exactly of a stream it ended with the output off |
| `Driver.SharedBoard.Remove` | max9296.c:8030-8208 | the whole removal: the instance is no longer accounted, a survivor without a worker no longer streams; on a board at rest it returns |
| `PairHealth.VerdictNamesStalls` | max9296_pair_health.h:46-63 | the verdict is applicable exactly when both channels are decided, names a fault exactly when one is stalled, and treats the channels alike |
| `PairHealth.DecidableNeverMisreadsRunning` | max9296_pair_health.h:153-181 | for every tick phase and every truncation of both timestamps, a decidable gap contains 1 to 255 ticks of a running counter, so two equal 8-bit reads mean it stopped |
| `PairHealth.CeilingIsTight` | max9296_pair_health.h:155-179 | every gap just past the ceiling can hold exactly 256 ticks at some phase, which reads as a stall that never happened |
| `PairHealth.DecidableIffJudgeable` | max9296_pair_health.h:153-181 | a gap is decidable exactly when its reading is at least two frame periods and no two times with such readings lie 255 frame periods apart: every gap that can be judged is judged, at every rate |
| `PairHealth.GuardRefines` | max9296_pair_health.h:161-179 | the overflow guard changes no classification and keeps every product inside 64 bits for any 32-bit rate |
| `PairVerdict.PairMonitor.PairVerdict` | max9296.c:7183-7286 | one sample updates baseline and log gate and reports as the specification says |
| `PairVerdict.PairMonitor.ForgetPair` | max9296.c:2122-2132 | a reset forgets every sample seen |
| `PairVerdict.BaselineIsOneSample` | max9296.c:7272-7285 | counters, time and rate of the baseline come from one sample, and every later sample came too soon after it at the same rate |
| `PairVerdict.VerdictComparesTwoSamples` | max9296.c:7204-7222 | an applicable verdict compares two samples at one rate in a decidable gap and says of each counter whether it moved |
| `PairVerdict.VerdictIsDue` | max9296.c:7204-7222 | a verdict is given whenever it can be: a sample comparable with the baseline sample is judged exactly by which counters moved, and any other is not applicable |
| `PairVerdict.BaselineMoves` | max9296.c:7272-7285 | the baseline moves to the next sample exactly when that does not come too soon after it at the same rate |
| `PairVerdict.RunningChannelNeverStalls` | max9296.c:7204-7222 | over any spacing of samples, a channel whose counter runs at the configured rate is never found stalled, so a fault always names the other one |
| `PairVerdict.GateRemembers` | max9296.c:7240-7268 | the gate holds exactly the last logged verdict, the last verdict, and the number of distinct held transitions since the last line |
| `PairVerdict.LoggedExactlyWhen` | max9296_pair_health.h:87-109 | a decided verdict is logged exactly when it differs from the last logged one and is a first fault, or finds nothing logged, or the last line a second old |
| `PairVerdict.LineTellsWhatWasHeld` | max9296.c:7258-7268 | a staged line names the verdict logged before it and the number of transitions held since |
| `PairVerdict.FaultIsAlwaysLogged` | max9296_pair_health.h:87-109 | whenever the latest verdict is a fault, the latest logged one is a fault |
| `PairVerdict.LogStep` | max9296_pair_health.h:91-109 | one decision keeps the log spaced and the gate's clock true |
| `PairVerdict.LinesAreSpaced` | max9296.c:7172 | of any three consecutive lines the outer two are at least the minimum interval apart, fault entries included |
| `PairVerdict.HeldCountIsBounded` | max9296.c:7251-7256 | the held count stays below the interval in milliseconds, so its field never wraps |
| `ExposureSession.OverrideBitIsDifference` | max9296_exposure_policy.h:30-61 | over every run, write failures included, an override bit is set exactly when the channel value differs from the shared one |
| `ExposureSession.SafeAlways` | max9296.c:3564-3672 | over every harmless run, with failed replays, failed cold initializations and all other write failures in it, valid hardware with no reinitialization pending holds no override the cache has forgotten |
| `ExposureSession.ReplayKeepsNothingHidden` | max9296.c:3481-3562 | a replay hides nothing, whatever becomes of its writes |
| `ExposureSession.StepKeepsSafeIff` | max9296.c:3625-3662 | one step keeps the statement exactly when it is not one of the two harmful ones |
| `ExposureSession.SafeThroughoutIffHarmless` | max9296.c:3564-3672 | and over no other run: the statement holds in every state of a run exactly when no step of it does harm |
| `ExposureSession.SkippedSeedHidesNothing` | max9296.c:3350-3366 | over every harmless run, a replay that skips the seed never leaves an override, of this session or an earlier one, in an active channel |
| `ExposureSession.SeededReplayRefines` | max9296.c:3376-3399 | over every run, a completed replay at a safe rate, or with a channel whose exposure the session has set, makes the register of every active channel equal its cached value |
| `ExposureSession.ReplaySeedsWhenDue` | max9296.c:3361-3399 | a completed replay leaves the cached values in all channels in use when a seed is due, which is at rates up to the safe one or with a channel claimed by an override or by manual exposure, and otherwise leaves the registers as they were |
| `ExposureSession.RouteIs` | max9296_exposure_policy.h:67-97 | a seed is skipped exactly when it is not due, broadcast as the shared value exactly when it is due for a pair without an override, and otherwise each channel's own cached value |
| `ExposureSession.ReplayReadyIff` | max9296.c:3361-3399 | a replay leaves the firmware ready exactly when nothing was due, or it was allowed and its writes were done or neither an override nor a reinitialization demanded them |
| `ExposureSession.PairTakesOneRoute` | max9296_exposure_policy.h:67-97 | both channels of a pair take one route, and the pair route writes one shared value |
| `ExposureSession.AppliedSharedUpdateRefines` | max9296.c:3625-3662 | a shared update that reaches the hardware leaves every active channel equal to its cached value and settles a pending reinitialization |
| `ExposureSession.AppliedUpdateReaches` | max9296.c:3625-3662 | an applied update reaches the register of every channel in use that it is about, and keeps a register that agreed with its cache in agreement |
| `ExposureSession.UpdateGives` | max9296_exposure_policy.h:30-61 | what an update requests is what the cache then says, the shared value first, a channel's own after it |
| `ExposureSession.InvalidatedIsSilent` | max9296.c:2823-2836 | hardware whose reinitialization is pending takes no exposure write until it is initialized again |
| `ExposureSession.NewSessionForgetsOverrides` | max9296.c:5805-5835 | a fresh generation drops every override without touching the hardware, and forces an initialization when there was one |
| `ExposureSession.ReinitEndsInWrites` | max9296.c:3661-3664 | a pending reinitialization ends only in a successful cold initialization or in a shared update written to all active channels |
| `ExposureSession.ManualHidesIff` | max9296.c:3817-3880 | selecting manual exposure leaves a hidden override exactly when it writes the idle channel of a single topology, and that channel is overridden while the active one is not |
| `ExposureSession.IdleManualLeavesOverride` | max9296.c:3874-3884 | a concrete run of successful writes after which a skipped replay keeps an override nobody has set |
| `ExposureSession.FailedUpdateHidesIff` | max9296.c:3632-3650 | a failed update leaves a hidden override exactly when a channel write that was an override reached the device and the cache does not have it |
| `ExposureSession.FailedWriteLeavesOverride` | max9296.c:3632-3650 | a concrete run with one failed write that ends so |
| `ExposureSession.ExposureControls.WriteCluster` | max9296.c:3632-3650 | the register writes of an update, in order, ended by the first failure |
| `ExposureSession.ExposureControls.ClusterBody` | max9296.c:3564-3672 | the cluster update changes registers, cache and reinitialization flag as specified; it fails exactly when refused or a write fails, and then leaves the cache |
| `ExposureSession.ExposureControls.SetExposureCluster` | max9296.c:3564-3672 | an update is one step of the history; it succeeds exactly when no policy refuses it and no write of it fails, then the cache is the updated one, and otherwise the cache is untouched |
| `ExposureSession.ExposureControls.ResetSession` | max9296.c:5805-5829 | a fresh generation drops every override unless it is refused, and asks for a reinitialization when there was one; an old generation changes nothing |
| `ExposureSession.ExposureControls.BeginSession` | max9296.c:5805-5835 | a fresh generation leaves no override, equal values and no usable hardware behind an earlier override; it fails exactly when a needed reset is refused |
| `ExposureSession.ExposureControls.ApplyChannelControls` | max9296.c:3331-3479 | the replay of one channel: nothing when no seed is due, its cached value when it is due and taken, and its exact error |
| `ExposureSession.ExposureControls.ApplyCachedControls` | max9296.c:3481-3562 | the replay of all active channels: exactly when it is ready, and the cached values in the registers exactly when a seed is due |
| `ExposureSession.ExposureControls.InvalidateIfRequired` | max9296.c:2823-2836 | a pending reinitialization takes hardware validity away |
| `ExposureSession.ExposureControls.PrepareHardware` | max9296.c:5478-5530 | a cold initialization is valid and settled exactly when it was loaded and its replay is ready; then the registers hold the cached values where a seed is due and the firmware's own otherwise; a failed one keeps its debt |
| `ExposureSession.ExposureControls.StreamOnControls` | max9296.c:6190-6225 | a stream start that succeeds leaves no override hidden, whatever became of single writes, and, with its replay taken, the cached values in every channel in use exactly when a seed is due; one that nothing refuses succeeds |
| `ExposureSession.ExposureControls.SetExposureAuto` | max9296.c:3817-3880 | an exposure-auto control is one step of the history; it fails exactly when manual exposure is refused or its write fails, and a manual one leaves the cached value in the register of a channel in use |
| `Firmware.Download` | max9296.c:4885-4922 | the loop ends; what was sent is well formed, in order and reassembles to a prefix of the image, to all of it that the int size covers unless a write is refused |
| `Firmware.Fill` | max9296.c:4897-4904 | the buffer holds header, chunk and zeros, within its 257 bytes |
| `Firmware.ReceiverReassembles` | max9296.c:4617-4621 | a receiver with 8192-byte windows that follows headers of 0x8000 plus the offset holds exactly the payloads, in order, for every length |
| `Firmware.Continue` | max9296.c:4899-4916 | one more chunk at the current offset continues the transfer |
| `Firmware.WholeImageIffIntSized` | max9296.c:4885-4893 | the whole image is sent exactly when its size fits the signed int it is copied to |
| `IspBoot.SettledPasses` | max9296.c:4808-4819 | the read that settles a channel is unique, and accepted exactly when one of the allowed reads is acceptable |
| `IspBoot.PassesIff` | max9296.c:4743-4759 | what a channel has to show: anything but zero, asked once, before the download; neither zero nor the ROM's width after it; exactly the programmed width in the end, within eleven reads |
| `IspBoot.FailureIsLastRead` | max9296.c:4808-4828 | a channel that does not pass has used every read its stage allows, and its error is that of the last |
| `IspBoot.StuckInRomNeverPasses` | max9296.c:4743-4759 | a processor that stays in its boot ROM never passes the check after the download, also for modes whose width equals the ROM's |
| `IspBoot.BootRecord.Probe` | max9296.c:4808-4819 | re-reads only refused values and at most as often as the stage allows |
| `IspBoot.BootRecord.CheckChannel` | max9296.c:4806-4828 | one channel's record is that of its settling read; its error is zero exactly when it passes |
| `IspBoot.BootRecord.Check` | max9296.c:4789-4848 | every channel of the mask is judged before the check fails; it fails exactly when one does not pass, with the error of the lowest |
| `IspBoot.BootRecord.Begin` | max9296.c:4761-4775 | a new attempt starts a fresh record for its epoch, mask and width |
| `IspBoot.LoadFirmware` | max9296.c:4850-4958 | the download ends at its first failing step and the boot record shows which check was the last; nothing is sent before every processor answered |
| `IspBoot.ColdAttempt` | max9296.c:5485-5508 | an attempt ends at its first failing step, its record has the stage and verdict the protocol assigns to that outcome, and reads OK exactly when all three checks passed and the whole transfer was sent |
| `PrepareCommand.Tokenize` | max9296.c:6768-6774 | the tokenizer yields the words of the line, or fails on an eighth |
| `PrepareCommand.ParseNumber` | max9296.c:6785-6798 | a field is accepted exactly as an unsigned 64-bit decimal number |
| `PrepareCommand.ParseCommand` | max9296.c:6752-6864 | the parser equals its specification on every text |
| `PrepareCommand.PrintParses` | max9296.c:6752-6864 | printing any acceptable command and parsing it gives the command back |
| `PrepareCommand.ParsedIsAcceptable` | max9296.c:6801-6855 | whatever parses is acceptable, and parses again when printed |
| `PrepareCommand.ParseIff` | max9296.c:6752-6864 | the parser returns a command exactly for the lines that say it within the limits, and refuses every other line |
| `PrepareCommand.ValueIsPositional` | max9296.c:6785-6798 | decimal numbers are positional, whatever zeros they start with |
| `PrepareCommand.FieldsLoseNothing` | max9296.c:6768-6774 | splitting at blanks and tabs loses and joins nothing |
| `PrepareCommand.TrimSplits` | max9296.c:6766 | trimming takes white space off both ends and nothing else |
| `PrepareCommand.ExpressibleIffAdmissible` | max9296.c:6991-7004 | a fingerprint can be requested if and only if it passes the preflight's table, size, format, rate and topology clauses at a rate of at most 120 |
| `PrepareCommand.RaisedCeilingIsOutOfReach` | max9296.c:6811-6814 | a build with a 144 fps ceiling admits a 130 fps fingerprint that no command requests |
| `Crop.SetSelection` | dw100-spike/src/dw100.c:951-1027 | the method stores what the specification selects; a refusal keeps the crop and still clamps the request |
| `Crop.SelectInsideFrame` | dw100-spike/src/dw100.c:975-1022 | for every frame, flags and request the stored rectangle lies in the frame and is the frame shrunk by one factor, each side less than a pixel short |
| `Crop.ClampedIsNearest` | dw100-spike/src/dw100.c:975-982 | the clamp keeps what lies in the frame and is not too small, and moves or cuts anything else no further than it must |
| `Crop.NoFlagIsHalfway` | dw100-spike/src/dw100.c:983-992 | without a flag the stored sizes lie halfway between those of the two flags, within a pixel |
| `Crop.AspectWithinAPixel` | dw100-spike/src/dw100.c:1007-1008 | its sides keep the frame's proportion within one pixel |
| `Crop.LessOrEqualStaysInside` | dw100-spike/src/dw100.c:997-1012 | with V4L2_SEL_FLAG_LE, or with an already proportional request, the stored rectangle lies inside the clamped request |
| `Crop.GreaterOrEqualSizes` | dw100-spike/src/dw100.c:994-1008 | with V4L2_SEL_FLAG_GE a side is shorter than the clamped request, and then by one pixel, exactly when its own scale is the one taken and lost a remainder to rounding |
| `Crop.PositionIs` | dw100-spike/src/dw100.c:1009-1012 | a shrunk axis is centred on the request; a grown one is carried to an edge of the frame by the unsigned half offset, to the start when the request began at least half the growth in and to the end otherwise |
| `Crop.AxisCoversIff` | dw100-spike/src/dw100.c:1009-1012 | an axis covers its request exactly when it is not short and, if it grew, the edge it was carried to reaches over the request |
| `Crop.GreaterOrEqualCoversIff` | dw100-spike/src/dw100.c:994-1012 | a V4L2_SEL_FLAG_GE selection covers the clamped request exactly when both sides keep their size and neither grown side was carried off the request |
| `Crop.GreaterOrEqualMissesRequest` | dw100-spike/src/dw100.c:994-1012 | a concrete V4L2_SEL_FLAG_GE request whose stored rectangle does not cover it |
| `Crop.GreaterOrEqualLosesAPixel` | dw100-spike/src/dw100.c:994-1008 | a concrete V4L2_SEL_FLAG_GE request that comes out a column short although nothing grew |
| `Crop.ExtentBounds` | dw100-spike/src/dw100.c:1007-1008 | an extent is the scaled size rounded down, and no product leaves 64 bits |
| `Crop.ScaleBounds` | dw100-spike/src/dw100.c:983-984 | a scale is the largest UQ16.16 ratio not above the true one |
| `Crop.ExtentOfOwnScale` | dw100-spike/src/dw100.c:1007-1008 | a side cut by its own scale keeps its size exactly when the scale lost no remainder, and is one pixel short otherwise |
| `Crop.SelectErrors` | dw100-spike/src/dw100.c:987-1005 | a selection fails only for two different scales, with ERANGE for both flags and EINVAL for unknown ones, and so never for a request in the frame's own proportion |
| `DewarpMap.InitMap` | dw100-spike/src/dw100.c:374-408 | every vertex from the given index on decodes to the crossing of its column and row, and earlier ones stay |
| `DewarpMap.ColumnsSpanSource` | dw100-spike/src/dw100.c:392-403 | columns start at the source's edge, never go back and end within a sixteenth of a pixel per block of the other edge |
| `DewarpMap.CrossingNearItsShare` | dw100-spike/src/dw100.c:392-403 | every crossing lies on its share of the source side, short of it by less than a sixteenth of a pixel for each block before it |
| `DewarpMap.IdentityIffWholeBlocks` | dw100-spike/src/dw100.c:363-373 | for every side up to 4096 the map is the identity inside the image exactly when the side is at most one block or a whole number of blocks, and below 4096 |
| `DewarpMap.RaggedSideDrifts` | dw100-spike/src/dw100.c:363-373 | on a side that ends in a part of a block every inner crossing reads a source pixel before its own |
| `DewarpMap.Rows1080Drift` | dw100-spike/src/dw100.c:379-403 | 1080 rows: steps of 254 sixteenths, the last inner crossing more than 8 pixels before its own |
| `DewarpMap.WidestSideCollapses` | dw100-spike/src/dw100.c:286-289 | a 4096-pixel side, which the format allows, maps every crossing to the first pixel |
| `ResetLine.ResetLineIsAccounted` | max9296.c:1934-2022 | over every sequence of binds, unbinds, failed actions and power transitions: requests and puts differ by the one kept descriptor, a kept one without an owner means the board is in use, and a board in use never has its line asserted |
| `ResetLine.LevelHoldsWhileInUse` | max9296.c:1963-1969 | while the board stays in use the level does not change and the descriptor is not put, whoever unbinds, probes or fails to |
| `ResetLine.RestingLineIsAsserted` | max9296.c:2339-2404 | when every direction change is carried out and the last user leaves by a power-off, a board at rest has its line asserted as long as it has a descriptor |
| `ResetLine.CopyNeverNeeded` | max9296.c:2030-2034 | an instance's copy exists only while the board's descriptor does, so the fallback is never taken |
| `ResetLine.ResetBoard.AcquireResetGpio` | max9296.c:1970-2018 | a probe's request: who owns the line and how often it was requested afterwards, as one step of the history |
| `ResetLine.ResetBoard.ReleaseResetGpio` | max9296.c:1947-1964 | the cleanup of an unbind is one step of the history |
| `ResetLine.ResetBoard.PutOrphanedResetGpio` | max9296.c:1934-1945 | puts the descriptor exactly when it has no owner and the board no user |
| `ResetLine.ResetBoard.SetPower` | max9296.c:2339-2404 | a first power-on releases the line, a failed one leaves it and no user, a last power-off asserts it or puts an orphan, and everything in between leaves the level |
| `ResetLine.ResetBoard.AccountRemoval` | max9296.c:8084-8105 | the accounting of a removal is one step of the history |
| `PeerLifetime.PublishedLinksAreLive` | max9296.c:2203-2225 | in every reachable state a published link names the live storage of the other instance |
| `PeerLifetime.BoundInstancesAreLinked` | max9296.c:2203-2225 | in every reachable state two bound instances are linked to each other, however often either was removed and probed again |
| `PeerLifetime.EveryAccessIsLive` | max9296.c:6390-6498 | no interleaving follows a link into freed storage, or one that was cleared under a worker using it over its sleeps |
| `PeerLifetime.RemoveReturnsClean` | max9296.c:8109-8231 | when a remove returns, no link and no worker refers to what it frees |
| `PeerLifetime.StoppedWorkerComesBack` | max9296.c:8123-8157 | a remove records exactly whether it stopped a worker of the other side, and starts it again unless that fails |
| `PeerLifetime.FreedLifeStaysForgotten` | max9296.c:8042-8066 | nothing refers to a freed life of either side again, however often either side is probed later |
| `PeerLifetime.ApplyKeepsSafe` | max9296.c:8042-8254 | every step of either instance keeps links live and detaches a removed one in order |
| `LockOrder.EntriesAreOrdered` | max9296.c:1912-1921 | the critical sections of every entry point nest in increasing rank |
| `LockOrder.PathIsDisciplined` | max9296.c:5613-5639 | every path through them, early exits included, acquires in increasing rank and releases all it took |
| `LockOrder.NeverDeadlocked` | max9296.c:8044-8208 | however many threads run whichever entry points of either instance, no group is ever stuck waiting for one another, the joins of removal, request and cancel included |
| `LockOrder.SomeThreadCanGo` | max9296.c:5750-5754 | as long as a thread is not done, some thread can go on |
| `LockOrder.NeverBothInstances` | max9296.c:1909-1918 | no thread holds the same kind of lock of both instances |

## Left out

- StreamsAlways: holds on runs whose streams start on a positive power count, as the driver's caller order promises.
- FsyncAlways: holds on runs that also return the last power reference only after the stream is off.
- PulsesAreReserved: says nothing about the pulse's period, which the worker computes before the authority check.
- OutputFollowsPulse: the mode-dependent value written to 0x0313 and the latency of the enable worker are not modelled.
- CadenceStep: two reservations agree while neither instance is being removed; a dying instance is left out of the
  conflict test by the code (`RemovalLetsRatesDiffer`), and no pulse serves it any more.
- SStreamOn: the mode lookup and the preflight are one refusal with one errno, and the fingerprint is arbitrary.
- PrepareRequest: which errno a request that fails returns, and the crop part of its fingerprint check, are not part of
  the contract.
- WriteControl: of format, enable and control writes only their effect on the prepared state is modelled.
- EndCold: the failing step is a parameter, tied to the reads and transfers by ColdAttempt; its errno is merged, and
  pwdn_released and the preflight appear as one refusal.
- VerdictComparesTwoSamples: counters are taken to be read at the sample's timestamp; I2C latency in between is not
  modelled.
- RunningChannelNeverStalls: a rate that changes and changes back between two samples is not modelled; rates below
  2000 fps are covered, the driver accepts 1 to 120.
- ForgetPair: also clears the counter values, which the code leaves behind an invalid flag and never reads.
- ColdAttempt: ends at the last boot check; the crop and control replay after it are in EndCold and PrepareHardware.
- Download: write timing and the pauses between windows carry no state; buffers are sent by value.
- ParseCommand: the failing allocation of the text copy is not modelled.
- SetSelection: the 5.10 spike build of the same file differs only in control plumbing and is not modelled.
- InitMap: the cached map dimensions and the flag for a user map are plumbing and are not modelled.
- ResetLine.ResetBoard.SetPower: a failed direction change is taken to leave the line's level as it was.
- EveryAccessIsLive: the peer's storage is the devm object; the reference count of the I2C device is not modelled.
- ApplyKeepsSafe: peer lifetime is a state machine on values with one step per section; the two objects' other fields
  and the in-place update are not in it.
- NeverDeadlocked: locks of the driver core, V4L2 and the media framework are not part of the hierarchy; a trylock
  counts as a lock, which only adds waiting.
- I2C, GPIO, regulator and clock transfers, sleeps, V4L2 registration, sysfs formatting, module parameters: plumbing,
  or nondeterministic results here.
- Register table contents, zoom crop, white balance, gain, LED flash, MCP4018 and DMA register access: finite data or
  independent best-effort writes without a protocol.
- state.power, state.setup, link status and the health record outside the pair verdict: reported only.
- tools, artifacts and shell scripts: conversion and log scraping without protocol state.
