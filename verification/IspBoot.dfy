/** How far a cold initialization gets, as the boot record shows it. */
module BootStages {
  /** When the processors were last judged. */
  datatype Stage = NoStage | PreDownload | PostDownload | PostConfig

  /** How a cold initialization ends; each failure names the step that failed. */
  datatype Outcome = TableFailed | FirmwareMissing | PreCheckFailed | DownloadFailed | PostCheckFailed
                   | ProgramFailed | ConfigCheckFailed | ReplayFailed | Completed

  /** The last check of an attempt that ends so. */
  function StageOf(outcome: Outcome): Stage {
    match outcome
    case TableFailed => NoStage
    case FirmwareMissing => NoStage
    case PreCheckFailed => PreDownload
    case DownloadFailed => PreDownload
    case PostCheckFailed => PostDownload
    case ProgramFailed => PostDownload
    case ConfigCheckFailed => PostConfig
    case ReplayFailed => PostConfig
    case Completed => PostConfig
  }

  /** Whether it was that check that failed. */
  predicate CheckFailed(outcome: Outcome) {
    outcome == PreCheckFailed || outcome == PostCheckFailed || outcome == ConfigCheckFailed
  }
}

/** The boot evidence of the image processors: what one cold attempt reads, what it records, and what a
    record that reads OK proves. */
module IspBoot {
  import opened BootStages
  import Firmware

  type Errno = x: int | x < 0 witness -1

  /** One attempt to read a width register. */
  datatype Read = Error(errno: Errno) | Value(value: nat)

  /** What one channel answers, attempt by attempt. */
  type Answers = nat -> Read

  /** AP1302_PREVIEW_WIDTH_ROM: what a processor still in its boot ROM shows. */
  const ROM_WIDTH := 0x0280
  const EIO := 5
  const REREADS := 10

  predicate ValueOk(stage: Stage, value: nat, expected: nat) {
    match stage
    case PreDownload => value != 0
    case PostDownload => value != 0 && value != ROM_WIDTH
    case PostConfig => value == expected
    case NoStage => false
  }

  /** The error a read amounts to at a stage; zero accepts it. */
  function Judge(stage: Stage, read: Read, expected: nat): int {
    match read
    case Error(errno) => errno
    case Value(value) => if ValueOk(stage, value, expected) then 0 else -EIO
  }

  /** The last read a stage may use, counting from zero. */
  function LastRead(stage: Stage): nat {
    if stage == PreDownload then 0 else REREADS
  }

  /** Read `k` decides: every earlier one was refused, and it is accepted or the last allowed. */
  ghost predicate SettledBy(stage: Stage, answers: Answers, expected: nat, k: nat) {
    && k <= LastRead(stage)
    && (forall j :: 0 <= j < k ==> Judge(stage, answers(j), expected) != 0)
    && (Judge(stage, answers(k), expected) == 0 || k == LastRead(stage))
  }

  /** A channel passes a stage: one of the reads the stage allows is acceptable. */
  ghost predicate Passes(stage: Stage, answers: Answers, expected: nat) {
    exists j :: 0 <= j <= LastRead(stage) && Judge(stage, answers(j), expected) == 0
  }

  lemma {:induction false} SettledPasses(stage: Stage, answers: Answers, expected: nat, k: nat)
    requires SettledBy(stage, answers, expected, k)
    ensures Judge(stage, answers(k), expected) == 0 <==> Passes(stage, answers, expected)
    ensures forall i: nat :: SettledBy(stage, answers, expected, i) ==> i == k
  {
    if Passes(stage, answers, expected) {
      var j :| 0 <= j <= LastRead(stage) && Judge(stage, answers(j), expected) == 0;
      assert k <= j;
    }
    forall i: nat | SettledBy(stage, answers, expected, i)
      ensures i == k
    {
      assert !(i < k) && !(k < i);
    }
  }

  /** What a channel has to show at each stage, and how often it may be asked: anything but zero, once, before the
      download; neither zero nor the ROM's width after it; exactly the programmed width in the end. */
  lemma {:induction false} PassesIff(answers: Answers, expected: nat)
    ensures Passes(PreDownload, answers, expected) <==> answers(0).Value? && answers(0).value != 0
    ensures Passes(PostDownload, answers, expected)
            <==> exists j :: 0 <= j <= 10 && answers(j).Value? && answers(j).value != 0 && answers(j).value != 0x0280
    ensures Passes(PostConfig, answers, expected)
            <==> exists j :: 0 <= j <= 10 && answers(j).Value? && answers(j).value == expected
    ensures !Passes(NoStage, answers, expected)
  {
    forall j | 0 <= j <= 10
      ensures Judge(PostDownload, answers(j), expected) == 0
              <==> answers(j).Value? && answers(j).value != 0 && answers(j).value != 0x0280
      ensures Judge(PostConfig, answers(j), expected) == 0 <==> answers(j).Value? && answers(j).value == expected
    {
    }
    assert Judge(PreDownload, answers(0), expected) == 0 <==> answers(0).Value? && answers(0).value != 0;
  }

  /** A channel that does not pass has used every read its stage allows, and its error is that of the last: the bus
      error, or EIO for a value. */
  lemma {:induction false} FailureIsLastRead(stage: Stage, answers: Answers, expected: nat, k: nat)
    requires SettledBy(stage, answers, expected, k) && !Passes(stage, answers, expected)
    ensures k == if stage == PreDownload then 0 else 10
    ensures Judge(stage, answers(k), expected) == if answers(k).Error? then answers(k).errno else -5
  {
    SettledPasses(stage, answers, expected, k);
  }

  /** A processor that never leaves its boot ROM answers the first check and fails the second, also for the
      modes whose programmed width is the ROM's own, where the last check alone could not tell. */
  lemma {:induction false} StuckInRomNeverPasses(answers: Answers, expected: nat)
    requires forall j :: answers(j) == Value(ROM_WIDTH)
    ensures Passes(PreDownload, answers, expected) && !Passes(PostDownload, answers, expected)
    ensures Passes(PostConfig, answers, expected) <==> expected == ROM_WIDTH
  {
    assert Judge(PreDownload, answers(0), expected) == 0;
    assert Judge(PostConfig, answers(0), expected) == 0 <==> expected == ROM_WIDTH;
  }

  /** The error, value and validity a check records for a channel are those of the read that settled it. */
  ghost predicate Reading(stage: Stage, answers: Answers, expected: nat, error: int, value: nat, valid: bool) {
    exists k ::
      && SettledBy(stage, answers, expected, k)
      && error == Judge(stage, answers(k), expected)
      && valid == answers(k).Value?
      && value == if valid then answers(k).value else 0
  }

  datatype Status = NotRun | Failed | Ok | Incomplete

  class BootRecord {
    var epoch: nat
    var mask: seq<bool>
    var expectedWidth: nat
    var stage: Stage
    var failed: bool
    var err: seq<int>
    var value: seq<nat>
    var valueValid: seq<bool>

    ghost predicate Valid()
      reads this
    {
      |mask| == |err| == |value| == |valueValid| == 2
    }

    constructor ()
      ensures Valid() && Status() == NotRun
    {
      epoch, mask, expectedWidth, stage, failed := 0, [false, false], 0, NoStage, false;
      err, value, valueValid := [0, 0], [0, 0], [false, false];
    }

    function Status(): Status
      reads this
    {
      if epoch == 0 then NotRun
      else if failed then Failed
      else if stage == PostConfig then Ok
      else Incomplete
    }

    /** max9296_isp_boot_begin_locked() */
    method Begin(newEpoch: nat, dual: bool, enable: seq<bool>, width: nat)
      requires |enable| == 2
      modifies this
      ensures Valid() && epoch == newEpoch && mask == (if dual then [true, true] else enable)
      ensures expectedWidth == width && stage == NoStage && !failed
    {
      err, value, valueValid, failed := [0, 0], [0, 0], [false, false], false;
      epoch, mask, expectedWidth, stage := newEpoch, if dual then [true, true] else enable, width, NoStage;
    }

    /** The reads of one channel: repeated while refused, as often as the stage allows. */
    method Probe(at: Stage, answers: Answers) returns (error: int, width: nat, readOk: bool, ghost k: nat)
      ensures SettledBy(at, answers, expectedWidth, k) && error == Judge(at, answers(k), expectedWidth)
      ensures readOk == answers(k).Value? && width == if readOk then answers(k).value else 0
    {
      var reread := 0;
      while true
        invariant 0 <= reread <= LastRead(at)
        invariant forall j :: 0 <= j < reread ==> Judge(at, answers(j), expectedWidth) != 0
        decreases LastRead(at) - reread
      {
        var read := answers(reread);
        error, width, readOk, k := Judge(at, read, expectedWidth), if read.Value? then read.value else 0, read.Value?, reread;
        if error == 0 || at == PreDownload || reread == REREADS {
          return;
        }
        reread := reread + 1;
      }
    }

    /** What the record says of channel `c` after the check of a stage. */
    ghost predicate Recorded(at: Stage, answers: Answers, c: nat)
      requires Valid() && c < 2
      reads this
    {
      Reading(at, answers, expectedWidth, err[c], value[c], valueValid[c])
    }

    /** The part of a check that concerns one channel of the mask. */
    method CheckChannel(at: Stage, answers: Answers, c: nat) returns (error: int)
      requires Valid() && c < 2
      modifies `err, `value, `valueValid, `failed
      ensures Valid() && Recorded(at, answers, c) && error == err[c]
      ensures error == 0 <==> Passes(at, answers, expectedWidth)
      ensures err[1 - c] == old(err)[1 - c] && value[1 - c] == old(value)[1 - c]
      ensures valueValid[1 - c] == old(valueValid)[1 - c]
      ensures failed <==> old(failed) || error != 0
    {
      var width, readOk;
      ghost var k;
      error, width, readOk, k := Probe(at, answers);
      SettledPasses(at, answers, expectedWidth, k);
      value, valueValid, err := value[c := width], valueValid[c := readOk], err[c := error];
      if error != 0 {
        failed := true;
      }
    }

    /** max9296_isp_boot_check_locked(): both channels are judged before the check fails, and it returns the
        error of the lowest one that failed. */
    method Check(at: Stage, answers: seq<Answers>) returns (ret: int)
      requires Valid() && |answers| == 2
      modifies this
      ensures Valid() && stage == at
      ensures epoch == old(epoch) && mask == old(mask) && expectedWidth == old(expectedWidth)
      ensures forall c :: 0 <= c < 2 && mask[c] ==> Recorded(at, answers[c], c)
      ensures forall c :: 0 <= c < 2 && !mask[c] ==> err[c] == old(err)[c] && value[c] == old(value)[c]
      ensures ret == 0 <==> forall c :: 0 <= c < 2 && mask[c] ==> Passes(at, answers[c], expectedWidth)
      ensures ret == FirstError(2)
      ensures failed <==> old(failed) || ret != 0
    {
      hide SettledBy, Passes, Judge, Reading;
      stage, ret := at, 0;
      for c := 0 to 2
        invariant Valid() && stage == at && mask == old(mask) && epoch == old(epoch)
        invariant expectedWidth == old(expectedWidth)
        invariant forall i :: 0 <= i < c && mask[i] ==> Recorded(at, answers[i], i)
        invariant forall i :: 0 <= i < c && mask[i] ==> (err[i] == 0 <==> Passes(at, answers[i], expectedWidth))
        invariant forall i :: 0 <= i < 2 && (i >= c || !mask[i]) ==> err[i] == old(err)[i] && value[i] == old(value)[i]
        invariant ret == FirstError(c)
        invariant failed <==> old(failed) || ret != 0
      {
        if mask[c] {
          var error := CheckChannel(at, answers[c], c);
          if ret == 0 {
            ret := error;
          }
        }
      }
    }

    /** The error recorded for the lowest channel of the mask, below `upto`, that has one. */
    ghost function FirstError(upto: nat): int
      requires Valid() && upto <= 2
      reads this
    {
      if upto > 0 && mask[0] && err[0] != 0 then err[0]
      else if upto > 1 && mask[1] then err[1]
      else 0
    }
  }

  /** What the outside world does in one cold attempt. */
  datatype World = World(tableWritten: bool, image: seq<Firmware.Byte>, fileFound: bool, started: bool,
                         refusedWrite: nat, ended: bool, configured: bool,
                         pre: seq<Answers>, post: seq<Answers>, config: seq<Answers>)

  /** The two answers of a stage come from the two channels. */
  predicate TwoChannels(w: World) {
    |w.pre| == |w.post| == |w.config| == 2
  }

  ghost predicate AllPass(record: BootRecord, stage: Stage, answers: seq<Answers>)
    requires record.Valid() && |answers| == 2
    reads record
  {
    forall c :: 0 <= c < 2 && record.mask[c] ==> Passes(stage, answers[c], record.expectedWidth)
  }

  /** The receiver holds all of the image that the int size covers. */
  ghost predicate Delivered(sent: seq<seq<Firmware.Byte>>, image: seq<Firmware.Byte>) {
    Firmware.ReceiveAll(sent).memory == image[..Firmware.Transferred(|image|)]
  }

  /** The step of the download, from the file to the check after it, that fails first. */
  ghost function LoadOutcome(record: BootRecord, w: World, sent: seq<seq<Firmware.Byte>>): Outcome
    requires record.Valid() && TwoChannels(w)
    reads record
  {
    if !w.fileFound then FirmwareMissing
    else if !AllPass(record, PreDownload, w.pre) then PreCheckFailed
    else if !(w.started && Delivered(sent, w.image) && w.ended) then DownloadFailed
    else if !AllPass(record, PostDownload, w.post) then PostCheckFailed
    else Completed
  }

  /** max9296_loadfw(): the download between its two boot checks. */
  method LoadFirmware(record: BootRecord, w: World) returns (outcome: Outcome, sent: seq<seq<Firmware.Byte>>)
    requires record.Valid() && TwoChannels(w) && !record.failed && record.stage == NoStage
    modifies record
    ensures record.Valid() && record.epoch == old(record.epoch) && record.mask == old(record.mask)
    ensures record.expectedWidth == old(record.expectedWidth)
    ensures outcome == LoadOutcome(record, w, sent)
    ensures record.stage == (if outcome == Completed then PostDownload else StageOf(outcome))
    ensures record.failed == CheckFailed(outcome)
    ensures sent != [] ==> AllPass(record, PreDownload, w.pre)
  {
    hide Passes, Firmware.Transferred, Firmware.ReceiveAll, Firmware.Sends;
    sent := [];
    if !w.fileFound {
      return FirmwareMissing, sent;
    }
    var ret := record.Check(PreDownload, w.pre);
    if ret != 0 {
      return PreCheckFailed, sent;
    }
    if !w.started {
      return DownloadFailed, sent;
    }
    var complete;
    ghost var n;
    complete, sent, n := Firmware.Download(w.image, w.refusedWrite);
    if !complete || !w.ended {
      return DownloadFailed, sent;
    }
    ret := record.Check(PostDownload, w.post);
    outcome := if ret == 0 then Completed else PostCheckFailed;
  }

  /** A cold attempt up to its last boot check: it ends at its first failing step, and its record shows exactly
      how far it came.  So the record reads OK exactly when every checked processor answered before the download,
      left its boot ROM after it and shows the programmed width, and the processors were sent the whole transfer. */
  method ColdAttempt(record: BootRecord, epoch: nat, dual: bool, enable: seq<bool>, width: nat, w: World)
    returns (outcome: Outcome, sent: seq<seq<Firmware.Byte>>)
    requires epoch > 0 && |enable| == 2 && TwoChannels(w)
    modifies record
    ensures record.Valid() && record.epoch == epoch && record.expectedWidth == width
    ensures record.mask == if dual then [true, true] else enable
    ensures outcome ==
            if !w.tableWritten then TableFailed
            else if LoadOutcome(record, w, sent) != Completed then LoadOutcome(record, w, sent)
            else if !w.configured then ProgramFailed
            else if !AllPass(record, PostConfig, w.config) then ConfigCheckFailed
            else Completed
    ensures record.stage == StageOf(outcome) && record.failed == CheckFailed(outcome)
    ensures outcome == Completed <==> record.Status() == Ok
    ensures sent != [] ==> AllPass(record, PreDownload, w.pre)
  {
    hide Passes, Delivered;
    sent := [];
    record.Begin(epoch, dual, enable, width);
    if !w.tableWritten {
      return TableFailed, sent;
    }
    outcome, sent := LoadFirmware(record, w);
    if outcome != Completed {
      return;
    }
    if !w.configured {
      return ProgramFailed, sent;
    }
    var ret := record.Check(PostConfig, w.config);
    outcome := if ret == 0 then Completed else ConfigCheckFailed;
  }
}
