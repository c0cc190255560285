/**
 The voice-activity detector of the repeater (class `VoiceBox`).

 The detector's state is a record: the number of samples per frame, the
 calibration accumulator (sum and count), the calibrated flag and the dynamic
 threshold. Three operations act on it:
 - collecting calibration data from one frame (reset, then sum the samples from
   index 10 on),
 - finalizing the threshold from the accumulator (once per calibration pass),
 - deciding whether a frame holds more than five samples above the threshold.
 Each C loop is a method whose result is tied to a recursive specification
 function; the printer calls are returned as an appended log.
 */
module VoiceBox {
  import opened MachineInt
  import Printer

  const GAIN_FACTOR: int := 1
  const DYNAMIC_SOUND_THRESHOLD_MULTIPLIER: int := 2
  const MIN_DYNAMIC_SOUND_THRESHOLD: int := 2500

  /** Calibration ignores the first samples of a frame. */
  const CALIBRATION_START: nat := 10
  /** Detection ignores fewer leading samples than calibration does. */
  const DETECTION_START: nat := 5
  /** A frame is voice only when strictly more samples than this exceed the threshold. */
  const MIN_SAMPLES_ABOVE: nat := 5

  /** The frame size is a `uint16_t` byte count holding two bytes per sample. */
  const MAX_SAMPLES: nat := UINT16_MAX / 2
  /** The largest threshold a finalize can compute: twice the largest sample. */
  const MAX_THRESHOLD: int := DYNAMIC_SOUND_THRESHOLD_MULTIPLIER * INT16_MAX

  const AVERAGE_KEY: string := "Average Sound Level"
  const THRESHOLD_KEY: string := "Dynamic Threshold"
  const SOUND_LEVEL_KEY: string := "Sound level"
  const ABOVE_THRESHOLD_TEXT: string := "- Above sound threshold -"

  /** One captured frame of signed 16-bit samples. */
  type Frame = seq<Int16>

  datatype State = State(
    numSamples: nat,
    calibrationSum: int,
    calibrationCount: int,
    calibrated: bool,
    threshold: int)

  /**
   What every reachable state satisfies: the frame holds at most 32767 samples,
   the accumulator holds `calibrationCount` int16 values, and the threshold is
   either the initial 0 or a finalized value in [2500, 65534] (always the
   latter once calibrated).
   */
  predicate Valid(s: State) {
    && s.numSamples <= MAX_SAMPLES
    && 0 <= s.calibrationCount <= s.numSamples
    && INT16_MIN * s.calibrationCount <= s.calibrationSum <= INT16_MAX * s.calibrationCount
    && (s.threshold == 0 || MIN_DYNAMIC_SOUND_THRESHOLD <= s.threshold <= MAX_THRESHOLD)
    && (s.calibrated ==> MIN_DYNAMIC_SOUND_THRESHOLD <= s.threshold)
  }

  /** The constructor: a frame of `dataSize` bytes, nothing collected, threshold 0. */
  function New(dataSize: UInt16): (s: State)
    ensures Valid(s)
    ensures 2 * s.numSamples <= dataSize < 2 * s.numSamples + 2
    ensures !s.calibrated && s.calibrationCount == 0 && s.calibrationSum == 0
    ensures s.threshold == 0
  {
    State(dataSize / 2, 0, 0, false, 0)
  }

  /** A sample scaled by the gain. The gain is 1, so the level is the raw sample. */
  function Level(sample: Int16): (level: int)
    ensures level == sample
    ensures INT16_MIN <= level <= INT16_MAX
  {
    sample * GAIN_FACTOR
  }

  /**
   The sum of the scaled samples with index in [lo, hi); 0 for an empty range,
   which may start beyond the end of the frame.
   */
  function ScaledSum(frame: Frame, lo: nat, hi: int): (sum: int)
    requires hi <= Max(lo, |frame|)
    ensures INT16_MIN * Max(0, hi - lo) <= sum <= INT16_MAX * Max(0, hi - lo)
    decreases hi - lo
  {
    if hi <= lo then 0 else ScaledSum(frame, lo, hi - 1) + Level(frame[hi - 1])
  }

  // ---------------------------------------------------------------- collect

  /** Clears the accumulator and the calibrated flag; the threshold is kept. */
  function Reset(s: State): (r: State)
    ensures Valid(s) ==> Valid(r)
    ensures !r.calibrated && r.calibrationSum == 0 && r.calibrationCount == 0
    ensures r.numSamples == s.numSamples && r.threshold == s.threshold
  {
    s.(calibrated := false, calibrationSum := 0, calibrationCount := 0)
  }

  /**
   The state after collecting calibration data from `frame`: the accumulator
   holds exactly the samples from index 10 to the end of the frame.
   */
  function Collect(s: State, frame: Frame): (r: State)
    requires s.numSamples <= |frame|
    ensures Valid(s) ==> Valid(r)
    ensures r.calibrationCount == Max(0, s.numSamples - CALIBRATION_START)
    ensures !r.calibrated
    ensures r.numSamples == s.numSamples && r.threshold == s.threshold
  {
    Reset(s).(
      calibrationSum := ScaledSum(frame, CALIBRATION_START, s.numSamples),
      calibrationCount := Max(0, s.numSamples - CALIBRATION_START))
  }

  /**
   The C loop of `collectSoundLevelCalibrationData`. Every partial sum fits in
   a 32-bit `int`, so the accumulator never overflows, and the result is
   `Collect`.
   */
  method CollectCalibrationData(s: State, frame: Frame) returns (r: State)
    requires s.numSamples <= MAX_SAMPLES
    requires s.numSamples <= |frame|
    ensures r == Collect(s, frame)
  {
    r := Reset(s);
    var n := CALIBRATION_START;
    while n < s.numSamples
      invariant CALIBRATION_START <= n <= Max(CALIBRATION_START, s.numSamples)
      invariant r == Reset(s).(
        calibrationSum := ScaledSum(frame, CALIBRATION_START, n),
        calibrationCount := n - CALIBRATION_START)
    {
      var level := Level(frame[n]);
      assert InInt32(r.calibrationSum + level);
      assert InInt32(r.calibrationCount + 1);
      r := r.(calibrationSum := r.calibrationSum + level,
              calibrationCount := r.calibrationCount + 1);
      n := n + 1;
    }
  }

  /**
   Collecting discards everything accumulated before, including the calibrated
   flag: two boxes with the same frame size that collect the same frame agree
   on everything except the threshold, and finalizing them gives the same state.
   */
  lemma CollectDiscardsHistory(s1: State, s2: State, frame: Frame)
    requires s1.numSamples == s2.numSamples <= |frame|
    ensures Collect(s1, frame).(threshold := 0) == Collect(s2, frame).(threshold := 0)
    ensures Finalize(Collect(s1, frame)) == Finalize(Collect(s2, frame))
  {
  }

  // --------------------------------------------------------------- finalize

  /** The average the firmware computes: C division of the sum, or 0 when nothing was counted. */
  function AverageLevel(sum: int, count: int): int {
    if count > 0 then TruncDiv(sum, count) else 0
  }

  /**
   The average of `count` int16 samples is an int16 value, even for a negative
   sum, whose truncated average is rounded toward zero.
   */
  lemma AverageLevelBounds(sum: int, count: int)
    requires count >= 0
    requires INT16_MIN * count <= sum <= INT16_MAX * count
    ensures INT16_MIN <= AverageLevel(sum, count) <= INT16_MAX
    ensures count > 0 ==> AverageLevel(sum, count) == TruncDiv(sum, count)
    ensures count > 0 ==> Abs(sum - AverageLevel(sum, count) * count) < count
    ensures count > 0 ==>
      var r := sum - AverageLevel(sum, count) * count;
      r == 0 || (r > 0) == (sum > 0)
  {
    if count > 0 {
      TruncDivBounds(sum, count, INT16_MIN, INT16_MAX);
      TruncDivRemainder(sum, count);
    }
  }

  /**
   `setSoundLevelBasedOnCalibrationData`: from an uncalibrated state, set the
   threshold to twice the average, raised to at least 2500, and mark the state
   calibrated; from a calibrated state, change nothing.
   */
  function Finalize(s: State): (r: State)
    ensures r.calibrated
    ensures s.calibrated ==> r == s
    ensures !s.calibrated ==>
      r == s.(calibrated := true,
              threshold := Max(MIN_DYNAMIC_SOUND_THRESHOLD,
                               DYNAMIC_SOUND_THRESHOLD_MULTIPLIER
                               * AverageLevel(s.calibrationSum, s.calibrationCount)))
    ensures !s.calibrated ==> r.threshold >= MIN_DYNAMIC_SOUND_THRESHOLD
  {
    if s.calibrated then s
    else
      var threshold := DYNAMIC_SOUND_THRESHOLD_MULTIPLIER
                       * AverageLevel(s.calibrationSum, s.calibrationCount);
      s.(calibrated := true,
         threshold := if threshold < MIN_DYNAMIC_SOUND_THRESHOLD
                      then MIN_DYNAMIC_SOUND_THRESHOLD else threshold)
  }

  /** The printer calls of a finalize: the average and the threshold, or nothing when already calibrated. */
  function FinalizeLog(s: State): (log: seq<Printer.Entry>)
    ensures s.calibrated <==> log == []
    ensures !s.calibrated ==>
      |log| == 2
      && log[0] == Printer.KeyVal(AVERAGE_KEY, AverageLevel(s.calibrationSum, s.calibrationCount))
      && log[1] == Printer.KeyVal(THRESHOLD_KEY, Finalize(s).threshold)
  {
    if s.calibrated then []
    else
      [ Printer.KeyVal(AVERAGE_KEY, AverageLevel(s.calibrationSum, s.calibrationCount)),
        Printer.KeyVal(THRESHOLD_KEY, Finalize(s).threshold) ]
  }

  /** A second finalize without an intervening collect changes nothing and prints nothing. */
  lemma FinalizeIdempotent(s: State)
    ensures Finalize(Finalize(s)) == Finalize(s)
    ensures FinalizeLog(Finalize(s)) == []
  {
  }

  /**
   Finalize keeps the state valid. Every value it computes fits in a 32-bit
   `int` (the product `2 * average` included), and the threshold it leaves lies
   in [2500, 65534], even when the average is negative.
   */
  lemma FinalizeKeepsValid(s: State)
    requires Valid(s)
    ensures Valid(Finalize(s))
    ensures MIN_DYNAMIC_SOUND_THRESHOLD <= Finalize(s).threshold <= MAX_THRESHOLD
    ensures InInt32(s.calibrationSum) && InInt32(s.calibrationCount)
    ensures InInt32(DYNAMIC_SOUND_THRESHOLD_MULTIPLIER
                    * AverageLevel(s.calibrationSum, s.calibrationCount))
  {
    AverageLevelBounds(s.calibrationSum, s.calibrationCount);
  }

  /**
   A calibration pass (collect one frame, then finalize) recomputes the
   threshold from that frame alone, whatever the state was before, including a
   state that was already calibrated.
   */
  lemma CalibrationPass(s: State, frame: Frame)
    requires s.numSamples <= |frame|
    ensures Finalize(Collect(s, frame)).calibrated
    ensures Finalize(Collect(s, frame)).threshold
            == Max(MIN_DYNAMIC_SOUND_THRESHOLD,
                   DYNAMIC_SOUND_THRESHOLD_MULTIPLIER
                   * AverageLevel(ScaledSum(frame, CALIBRATION_START, s.numSamples),
                                  Max(0, s.numSamples - CALIBRATION_START)))
    ensures s.numSamples <= CALIBRATION_START ==>
            Finalize(Collect(s, frame)).threshold == MIN_DYNAMIC_SOUND_THRESHOLD
  {
  }

  /** The sum of a run of equal samples `c` is `c` times the run's length. */
  lemma {:induction false} ScaledSumConstant(frame: Frame, lo: nat, hi: int, c: Int16)
    requires lo <= hi <= |frame|
    requires forall k :: lo <= k < hi ==> frame[k] == c
    ensures ScaledSum(frame, lo, hi) == c * (hi - lo)
    decreases hi - lo
  {
    if hi > lo {
      ScaledSumConstant(frame, lo, hi - 1, c);
    }
  }

  /**
   Calibrating on a frame whose samples from index 10 on all equal `c` gives
   the threshold max(2500, 2 * c); a silent frame gives the floor 2500.
   */
  lemma CalibrationOnConstantFrame(s: State, frame: Frame, c: Int16)
    requires CALIBRATION_START < s.numSamples <= |frame|
    requires forall k :: CALIBRATION_START <= k < s.numSamples ==> frame[k] == c
    ensures Finalize(Collect(s, frame)).threshold
            == Max(MIN_DYNAMIC_SOUND_THRESHOLD, DYNAMIC_SOUND_THRESHOLD_MULTIPLIER * c)
    ensures c == 0 ==> Finalize(Collect(s, frame)).threshold == MIN_DYNAMIC_SOUND_THRESHOLD
  {
    var count := s.numSamples - CALIBRATION_START;
    ScaledSumConstant(frame, CALIBRATION_START, s.numSamples, c);
    assert c * count - c * count == 0;
    TruncDivUnique(c * count, count, c);
  }

  // ----------------------------------------------------------------- detect

  /** The scaled samples with index in [lo, hi) that exceed `t`, in frame order. */
  function LevelsAbove(frame: Frame, lo: nat, hi: int, t: int): (levels: seq<int>)
    requires hi <= Max(lo, |frame|)
    ensures |levels| <= Max(0, hi - lo)
    ensures forall i :: 0 <= i < |levels| ==> levels[i] > t
    decreases hi - lo
  {
    if hi <= lo then []
    else
      var levels := LevelsAbove(frame, lo, hi - 1, t);
      var level := Level(frame[hi - 1]);
      if level > t then levels + [level] else levels
  }

  /** The indices in [lo, hi) whose scaled sample exceeds `t`. */
  ghost function IndicesAbove(frame: Frame, lo: nat, hi: int, t: int): set<int>
    requires hi <= Max(lo, |frame|)
  {
    set k | lo <= k < hi && Level(frame[k]) > t
  }

  /** `LevelsAbove` keeps exactly one level per qualifying index. */
  lemma {:induction false} LevelsAboveCountsIndices(frame: Frame, lo: nat, hi: int, t: int)
    requires hi <= Max(lo, |frame|)
    ensures |LevelsAbove(frame, lo, hi, t)| == |IndicesAbove(frame, lo, hi, t)|
    decreases hi - lo
  {
    if hi <= lo {
      assert IndicesAbove(frame, lo, hi, t) == {};
    } else {
      LevelsAboveCountsIndices(frame, lo, hi - 1, t);
      var prefix := IndicesAbove(frame, lo, hi - 1, t);
      if Level(frame[hi - 1]) > t {
        assert IndicesAbove(frame, lo, hi, t) == prefix + {hi - 1};
        assert hi - 1 !in prefix;
      } else {
        assert IndicesAbove(frame, lo, hi, t) == prefix;
      }
    }
  }

  /**
   `wasSoundAboveSoundThreshold`: the frame is voice iff strictly more than
   five indices in [5, numSamples) carry a scaled sample strictly above the
   current threshold (0 before the first finalize).
   */
  function Detect(s: State, frame: Frame): (above: bool)
    requires s.numSamples <= |frame|
    ensures above <==>
      |IndicesAbove(frame, DETECTION_START, s.numSamples, s.threshold)| > MIN_SAMPLES_ABOVE
    ensures s.numSamples <= DETECTION_START + MIN_SAMPLES_ABOVE ==> !above
  {
    LevelsAboveCountsIndices(frame, DETECTION_START, s.numSamples, s.threshold);
    |LevelsAbove(frame, DETECTION_START, s.numSamples, s.threshold)| > MIN_SAMPLES_ABOVE
  }

  /** One "Sound level" printer entry per level, in order. */
  function SoundLevelEntries(levels: seq<int>): (log: seq<Printer.Entry>)
    ensures |log| == |levels|
    ensures forall i :: 0 <= i < |log| ==> log[i] == Printer.KeyVal(SOUND_LEVEL_KEY, levels[i])
  {
    if levels == [] then []
    else SoundLevelEntries(levels[..|levels| - 1])
         + [Printer.KeyVal(SOUND_LEVEL_KEY, levels[|levels| - 1])]
  }

  /**
   The printer calls of a detection: one entry per qualifying sample, then the
   summary message exactly when the frame is classified as voice.
   */
  function DetectLog(s: State, frame: Frame): (log: seq<Printer.Entry>)
    requires s.numSamples <= |frame|
    ensures |log| == |IndicesAbove(frame, DETECTION_START, s.numSamples, s.threshold)|
                     + (if Detect(s, frame) then 1 else 0)
    ensures Detect(s, frame) <==> (|log| > 0 && log[|log| - 1] == Printer.Msg(ABOVE_THRESHOLD_TEXT))
    ensures forall i :: 0 <= i < |log| && log[i].KeyVal? ==> log[i].value > s.threshold
  {
    var levels := LevelsAbove(frame, DETECTION_START, s.numSamples, s.threshold);
    LevelsAboveCountsIndices(frame, DETECTION_START, s.numSamples, s.threshold);
    SoundLevelEntries(levels)
    + (if |levels| > MIN_SAMPLES_ABOVE then [Printer.Msg(ABOVE_THRESHOLD_TEXT)] else [])
  }

  /**
   The C loop of `wasSoundAboveSoundThreshold`. Each write into the local
   `soundsAboveThreshold` array, which has `numSoundSamples` slots, is at an
   index below `numSoundSamples`. The state is passed by value and no state is
   returned, so detection leaves the calibration and the threshold as they were.
   */
  method WasSoundAboveSoundThreshold(s: State, frame: Frame)
    returns (above: bool, log: seq<Printer.Entry>)
    requires s.numSamples <= |frame|
    ensures above == Detect(s, frame)
    ensures log == DetectLog(s, frame)
    ensures s.numSamples <= DETECTION_START ==> !above && log == []
  {
    var aboveCount := 0;
    log := [];
    var n := DETECTION_START;
    while n < s.numSamples
      invariant DETECTION_START <= n <= Max(DETECTION_START, s.numSamples)
      invariant aboveCount == |LevelsAbove(frame, DETECTION_START, n, s.threshold)|
      invariant log == SoundLevelEntries(LevelsAbove(frame, DETECTION_START, n, s.threshold))
    {
      var level := Level(frame[n]);
      if level > s.threshold {
        log := log + [Printer.KeyVal(SOUND_LEVEL_KEY, level)];
        assert aboveCount < s.numSamples;
        aboveCount := aboveCount + 1;
      }
      n := n + 1;
    }
    above := aboveCount > MIN_SAMPLES_ABOVE;
    if above {
      log := log + [Printer.Msg(ABOVE_THRESHOLD_TEXT)];
    }
  }

  /** Raising the threshold never adds qualifying samples. */
  lemma {:induction false} LevelsAboveAntitone(frame: Frame, lo: nat, hi: int, t1: int, t2: int)
    requires hi <= Max(lo, |frame|)
    requires t1 <= t2
    ensures |LevelsAbove(frame, lo, hi, t2)| <= |LevelsAbove(frame, lo, hi, t1)|
    decreases hi - lo
  {
    if hi > lo {
      LevelsAboveAntitone(frame, lo, hi - 1, t1, t2);
    }
  }

  /** A frame that is voice against a threshold is voice against every lower threshold. */
  lemma DetectAntitone(s: State, frame: Frame, lower: int)
    requires s.numSamples <= |frame|
    requires lower <= s.threshold
    requires Detect(s, frame)
    ensures Detect(s.(threshold := lower), frame)
  {
    LevelsAboveAntitone(frame, DETECTION_START, s.numSamples, lower, s.threshold);
  }

  /** Samples that all exceed `t` all qualify. */
  lemma {:induction false} LevelsAboveAll(frame: Frame, lo: nat, hi: int, t: int)
    requires lo <= hi <= |frame|
    requires forall k :: lo <= k < hi ==> Level(frame[k]) > t
    ensures |LevelsAbove(frame, lo, hi, t)| == hi - lo
    decreases hi - lo
  {
    if hi > lo {
      LevelsAboveAll(frame, lo, hi - 1, t);
    }
  }

  /** Extending the scanned range by samples that do not exceed `t` adds nothing. */
  lemma {:induction false} LevelsAboveSkip(frame: Frame, lo: nat, mid: int, hi: int, t: int)
    requires lo <= mid <= hi <= |frame|
    requires forall k :: mid <= k < hi ==> Level(frame[k]) <= t
    ensures LevelsAbove(frame, lo, hi, t) == LevelsAbove(frame, lo, mid, t)
    decreases hi - mid
  {
    if hi > mid {
      LevelsAboveSkip(frame, lo, mid, hi - 1, t);
    }
  }

  /**
   The boundary of the count test: with threshold 2500 and a 20-sample frame,
   six samples of 3000 from index 5 on make the frame voice, five do not.
   */
  lemma DetectBoundaryExamples()
    ensures
      var six := seq(20, i => if DETECTION_START <= i < 11 then 3000 else 0);
      Detect(State(20, 0, 0, true, 2500), six)
    ensures
      var five := seq(20, i => if DETECTION_START <= i < 10 then 3000 else 0);
      !Detect(State(20, 0, 0, true, 2500), five)
  {
    var six: Frame := seq(20, i => if DETECTION_START <= i < 11 then 3000 else 0);
    LevelsAboveAll(six, DETECTION_START, 11, 2500);
    LevelsAboveSkip(six, DETECTION_START, 11, 20, 2500);
    var five: Frame := seq(20, i => if DETECTION_START <= i < 10 then 3000 else 0);
    LevelsAboveAll(five, DETECTION_START, 10, 2500);
    LevelsAboveSkip(five, DETECTION_START, 10, 20, 2500);
  }
}
