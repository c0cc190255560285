# Voice-activated repeater: detector and bus set-up

A Dafny model of the two components of the M5Stack repeater sketch that hold
real logic.

- **`VoiceBox`** (`voice_box.dfy`) is the voice-activity detector. Its state
  is an immutable record with these parts:
  - the number of samples per frame;
  - the calibration accumulator, a sum and a count;
  - the calibrated flag;
  - the dynamic threshold.

  It has three operations:
  - **Collect.** Reset the accumulator and the flag, then add up the samples
    from index 10 to the end of the frame.
  - **Finalize.** Compute the threshold once: twice the C-truncated average,
    raised to at least 2500.
  - **Detect.** A frame is voice iff strictly more than five samples from
    index 5 on lie strictly above the current threshold.

  Each C loop is modelled as a method. Its result is proved equal to a
  recursive specification function, and every partial sum is proved to fit in
  a 32-bit `int`.
- **`I2sConfig`** (`i2s_config.dfy`) is the set-up of the I2S bus that the
  microphone and the speaker share. It has two parts:
  - a pure builder for the driver configuration and the pin assignment;
  - the driver calls of each mode switch, recorded as an appended trace.

  Each switch appends uninstall, install, set-pin and set-clock to the trace,
  in that order. The configuration the driver currently holds is not stored
  anywhere; `InstalledConfig` reads it off the trace as the last install not
  followed by an uninstall, taking every driver call to have succeeded.
- `machine_int.dfy` holds the C integer ranges and C's truncating division
  `TruncDiv`. Dafny's own `/` is Euclidean, so `-7 / 2` gives -4 in Dafny but
  -3 in C.
- `printer.dfy` holds the printer entry type. Printer calls are returned as a
  log of `Msg(text)` and `KeyVal(key, value)` entries.

Two behaviours of the code are easy to misread; the model follows the code:

- **Mode switches.** A mode switch does not report failure. The driver's
  error codes are added into a local variable that is never read, so the
  operations return only the trace.
- **Calibration.** Each collect resets the accumulator and the calibrated
  flag. Only the frame collected last before a finalize determines the
  threshold, so there is no calibration over several frames.

## Model

| member | source | states |
|---|---|---|
| MachineInt.TruncDivRemainder | repeater/voice_box.cpp:33 | the average uses C division: the remainder is smaller than the divisor in magnitude and is zero or has the sign of the dividend |
| MachineInt.TruncDivUnique | repeater/voice_box.cpp:33 | those two remainder properties determine the quotient, so `TruncDiv` is exactly C's division |
| MachineInt.TruncDivDiffersFromEuclidean | repeater/voice_box.cpp:33 | on a negative sum C's division rounds toward zero (-7/2 is -3), unlike Euclidean division (-4) |
| VoiceBox.New | repeater/voice_box.cpp:3-9 | a new box is valid and uncalibrated, with sum, count and threshold 0; its sample count is half the `uint16_t` byte size, so at most 32767 |
| VoiceBox.Level | repeater/voice_box.h:17 | with gain 1 the scaled sample is the raw sample and stays within the int16 range |
| VoiceBox.ScaledSum | repeater/voice_box.cpp:17-21 | the sum of the samples in [lo, hi) lies between -32768 and 32767 times the number of samples; it is 0 for an empty range |
| VoiceBox.Reset | repeater/voice_box.cpp:70-74 | the reset clears the calibrated flag, the sum and the count, keeps the threshold, and keeps the state valid |
| VoiceBox.Collect | repeater/voice_box.cpp:11-22 | after a collect the count is max(0, numSamples - 10), the state is uncalibrated, the threshold is untouched and the state stays valid |
| VoiceBox.CollectCalibrationData | repeater/voice_box.cpp:11-22 | the C loop computes `Collect`: the sum over [10, numSamples) and that many counted samples; every partial sum and count fits in a 32-bit int |
| VoiceBox.CollectDiscardsHistory | repeater/voice_box.cpp:12 | earlier accumulated data and the earlier calibrated flag leave no trace: two boxes that collect the same frame end in the same state up to the threshold, and finalize to the same state |
| VoiceBox.AverageLevelBounds | repeater/voice_box.cpp:30-34 | the average of int16 samples is itself in the int16 range, including negative averages; for a positive count it is `TruncDiv(sum, count)`, whose remainder is below count in magnitude and zero or of the sum's sign (C truncation, not floor) |
| VoiceBox.Finalize | repeater/voice_box.cpp:24-39 | from an uncalibrated state it sets threshold = max(2500, 2 * average), with average 0 when the count is 0, and marks the state calibrated; from a calibrated state it changes nothing |
| VoiceBox.FinalizeLog | repeater/voice_box.cpp:41-42 | a finalize prints the average and then the threshold, and prints nothing when it is already calibrated |
| VoiceBox.FinalizeIdempotent | repeater/voice_box.cpp:25-27 | a second finalize without a collect in between changes no state and prints nothing |
| VoiceBox.FinalizeKeepsValid | repeater/voice_box.cpp:35-39 | after a finalize the threshold lies in [2500, 65534], even for a negative average; the sum, the count and the product 2 * average all fit in a 32-bit int |
| VoiceBox.CalibrationPass | repeater/voice_box.cpp:11-39 | collect then finalize recomputes the threshold from that frame alone, even when the box was calibrated before; a frame of at most 10 samples gives the floor 2500 |
| VoiceBox.ScaledSumConstant | repeater/voice_box.cpp:17-21 | a run of equal samples sums to the sample value times the run's length |
| VoiceBox.CalibrationOnConstantFrame | repeater/voice_box.cpp:11-39 | calibrating on a frame whose samples from index 10 on all equal c gives threshold max(2500, 2c); a silent frame gives 2500 |
| VoiceBox.LevelsAbove | repeater/voice_box.cpp:52-59 | the samples kept by the detection scan all lie strictly above the threshold, and there are at most as many as the range is long |
| VoiceBox.LevelsAboveCountsIndices | repeater/voice_box.cpp:52-59 | the scan keeps exactly one level per index whose scaled sample exceeds the threshold |
| VoiceBox.Detect | repeater/voice_box.cpp:45-66 | a frame is voice iff strictly more than 5 indices in [5, numSamples) have a scaled sample strictly above the current threshold; a frame of at most 10 samples never is |
| VoiceBox.SoundLevelEntries | repeater/voice_box.cpp:56 | each qualifying sample prints one "Sound level" entry with its value, in frame order |
| VoiceBox.DetectLog | repeater/voice_box.cpp:55-63 | the detection log has one entry per qualifying sample, all above the threshold, plus a final summary message iff the frame is voice |
| VoiceBox.WasSoundAboveSoundThreshold | repeater/voice_box.cpp:45-66 | the C loop computes `Detect` and `DetectLog`; every write into `soundsAboveThreshold` is at an index below numSamples; a frame of at most 5 samples gives false and no log |
| VoiceBox.LevelsAboveAntitone | repeater/voice_box.cpp:55 | raising the threshold never adds qualifying samples |
| VoiceBox.DetectAntitone | repeater/voice_box.cpp:55-65 | a frame that is voice against some threshold is voice against every lower threshold |
| VoiceBox.DetectBoundaryExamples | repeater/voice_box.cpp:61-65 | with threshold 2500, six samples of 3000 make a frame voice and five do not, because the comparison is strictly greater |
| I2sConfig.ConfigurationStructure | repeater/i2s_config.cpp:42-63 | every mode is master. Mode 0 (mic) receives through PDM and never transmits. Every other mode transmits, never receives, auto-clears the trailing TX buffer and does not use the APLL |
| I2sConfig.ModesShareCommonFields | repeater/i2s_config.cpp:43-52 | both modes share sample rate, 16-bit samples, right-only channel, I2S framing, interrupts and 6 DMA buffers of 60; only the direction bits and TX auto-clear differ |
| I2sConfig.PinConfiguration | repeater/i2s_config.cpp:65-75 | the pins do not depend on the mode: bck 19, ws 33, data out 22, data in 23, mck 0, five distinct GPIOs |
| I2sConfig.InitCalls | repeater/i2s_config.cpp:26-40 | a switch makes four calls on port 0, uninstall first; the clock call uses the installed configuration's sample rate and bit depth |
| I2sConfig.Init | repeater/i2s_config.cpp:26-40 | a switch only appends to the trace: four calls, starting with the uninstall whatever the trace held before |
| I2sConfig.MicMode | repeater/i2s_config.cpp:16-18 | entering mic mode appends the four calls; the last install in the trace is then a receive-only PDM configuration with no uninstall after it |
| I2sConfig.SpeakerMode | repeater/i2s_config.cpp:20-22 | entering speaker mode appends the four calls; the last install in the trace is then a transmit-only configuration with TX auto-clear on and the APLL off, with no uninstall after it |
| I2sConfig.InitInstalls | repeater/i2s_config.cpp:30-34 | whatever the trace held before, after a switch its last install is the configuration built for the requested mode and no uninstall follows it |
| I2sConfig.RoleSwitchLeavesNoResidue | repeater/i2s_config.cpp:16-22 | after mic then speaker the last install has no receive or PDM bit; after speaker then mic it has no transmit bit and no TX auto-clear |
| I2sConfig.InitIdempotent | repeater/i2s_config.cpp:26-40 | entering the same mode twice leaves the same last install in the trace as entering it once |
| I2sConfig.InitKeepsTeardownBeforeInstall | repeater/i2s_config.cpp:30-34 | if every install in the trace comes straight after an uninstall, this still holds after a switch |

## Left out

- Serial output (`printer.cpp`). Printer calls are recorded as log entries and are never rendered to text. The `isDisabled` field is never read, so there is no enable/disable switch.
- The ESP-IDF I2S driver. Register programming, DMA and the numeric `esp_err_t` codes belong to a foreign library. Driver calls are trace events only. The `err` sum in `init` is dead code, so it is not modelled.
- Zero-initialised fields of `i2s_config_t`. Fields the firmware neither sets nor relies on, such as `fixed_mclk`, are not represented. `use_apll` and `tx_desc_auto_clear` are represented.
- `calculateDynamicSoundThreshold`. It is declared in `voice_box.h` but never defined.
- The contents of `soundsAboveThreshold`. The array is written but never read. Only the bound on its write index is proved.
- The top-level control loop. It owns timing, blocking reads and hardware waits, and it is not part of this model. Any mode ordering it may enforce is therefore not modelled.
- Reading past the caller's buffer. Every operation requires the frame to hold at least `numSamples` samples, as the C code does when it indexes `buffer[n]`.
- The owning `Printer` copy held by `I2sConfig`. `I2sConfig` never uses it.
- I2sConfig.InstalledConfig: reads the trace as if every driver call succeeded. The firmware discards the result of `i2s_driver_install`, `i2s_set_pin` and `i2s_set_clk`, so a failed install would leave nothing installed while the model still reports the configuration of the last install; driver failure is not modelled.
- VoiceBox.CollectCalibrationData: requires at most 32767 samples per frame. The constructor guarantees this, because the byte size is a `uint16_t`. Under this bound the 32-bit accumulator is proved never to overflow, so wrap-around is not modelled.
