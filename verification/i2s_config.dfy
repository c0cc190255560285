/**
 The set-up of the shared I2S audio bus (class `I2sConfig`).

 The microphone and the speaker share one I2S port. Entering either role
 always uninstalls the driver first, then installs a configuration built for
 the role, assigns the pins and sets the clock. The driver itself is foreign
 code: the model records each call to it as one event of an appended trace,
 and the configuration and pin records hold the values the firmware passes.
 The firmware keeps no mode variable and reports no failure; the configuration
 currently installed is read off the trace by `InstalledConfig`.
 */
module I2sConfig {
  import opened MachineInt

  /** The two values the private `init(int mode)` is called with. */
  const MODE_MIC: int := 0
  const MODE_SPK: int := 1

  /** The port both roles use (`I2S_NUM_0`). */
  const I2S_NUMBER: nat := 0
  const SAMPLE_RATE: UInt32 := 16000
  const DMA_BUF_COUNT: int := 6
  const DMA_BUF_LEN: int := 60

  const BCK_PIN: int := 19
  const LRCK_PIN: int := 33
  const DATA_PIN: int := 22
  const DATA_IN_PIN: int := 23
  const MCK_PIN: int := 0

  /** The bits of the driver's `i2s_mode_t` bit mask. */
  datatype ModeFlag = Master | Slave | Tx | Rx | DacBuiltIn | AdcBuiltIn | Pdm

  datatype BitsPerSample = Bits8 | Bits16 | Bits24 | Bits32
  datatype ChannelFormat = RightLeft | AllRight | AllLeft | OnlyRight | OnlyLeft
  datatype CommFormat = CommI2s | CommMsb | CommPcmShort | CommPcmLong
  datatype InterruptFlags = NoInterruptFlags | Level1
  datatype Channel = Mono | Stereo

  /**
   The driver configuration (`i2s_config_t`). Fields the designated initializer
   leaves out are zero, so `useApll` and `txDescAutoClear` start out false.
   */
  datatype Config = Config(
    mode: set<ModeFlag>,
    sampleRate: UInt32,
    bitsPerSample: BitsPerSample,
    channelFormat: ChannelFormat,
    commFormat: CommFormat,
    intrAllocFlags: InterruptFlags,
    dmaBufCount: int,
    dmaBufLen: int,
    useApll: bool,
    txDescAutoClear: bool)

  /** The pin assignment (`i2s_pin_config_t`), as GPIO numbers. */
  datatype PinConfig = PinConfig(bck: int, ws: int, dataOut: int, dataIn: int, mck: int)

  /** One call into the I2S driver. */
  datatype DriverCall =
    | Uninstall(port: nat)
    | Install(port: nat, config: Config, queueSize: nat)
    | SetPin(port: nat, pins: PinConfig)
    | SetClk(port: nat, rate: UInt32, bits: BitsPerSample, channel: Channel)

  /** What the driver has installed after a trace of calls. */
  datatype Installed = NotInstalled | InstalledWith(config: Config)

  /**
   `initI2sConfigurationStructure`: a master-clock configuration that receives
   through the PDM front end for the microphone, and transmits with the
   trailing buffer auto-cleared for any other mode. Exactly one direction is
   ever set.
   */
  function ConfigurationStructure(mode: int, sampleRate: UInt32): (c: Config)
    ensures Master in c.mode && Slave !in c.mode
    ensures Rx in c.mode <==> mode == MODE_MIC
    ensures Tx in c.mode <==> mode != MODE_MIC
    ensures Pdm in c.mode <==> mode == MODE_MIC
    ensures c.mode <= {Master, Rx, Tx, Pdm}
    ensures c.txDescAutoClear <==> mode != MODE_MIC
    ensures !c.useApll
  {
    var base := Config(
      mode := {Master},
      sampleRate := sampleRate,
      bitsPerSample := Bits16,
      channelFormat := AllRight,
      commFormat := CommI2s,
      intrAllocFlags := Level1,
      dmaBufCount := DMA_BUF_COUNT,
      dmaBufLen := DMA_BUF_LEN,
      useApll := false,
      txDescAutoClear := false);
    if mode == MODE_MIC then
      base.(mode := {Master, Rx, Pdm})
    else
      base.(mode := {Master, Tx}, useApll := false, txDescAutoClear := true)
  }

  /**
   Apart from the direction bits and the transmit auto-clear, the microphone
   and speaker configurations are the same: 16-bit samples, right channel
   only, I2S framing, level-1 interrupts and six DMA buffers of 60 samples,
   at the given sample rate.
   */
  lemma ModesShareCommonFields(mode1: int, mode2: int, sampleRate: UInt32)
    ensures var c1 := ConfigurationStructure(mode1, sampleRate);
            var c2 := ConfigurationStructure(mode2, sampleRate);
            c1.(mode := {}, txDescAutoClear := false) == c2.(mode := {}, txDescAutoClear := false)
    ensures var c := ConfigurationStructure(mode1, sampleRate);
            && c.sampleRate == sampleRate
            && c.bitsPerSample == Bits16
            && c.channelFormat == AllRight
            && c.commFormat == CommI2s
            && c.dmaBufCount == DMA_BUF_COUNT && c.dmaBufLen == DMA_BUF_LEN
  {
  }

  /**
   `initI2sPinConfiguration`: the same five GPIOs for both roles, no GPIO used
   twice, bit clock 19, word select 33, data out 22, data in 23, master clock 0.
   */
  function PinConfiguration(): (p: PinConfig)
    ensures p == PinConfig(BCK_PIN, LRCK_PIN, DATA_PIN, DATA_IN_PIN, MCK_PIN)
    ensures |{p.bck, p.ws, p.dataOut, p.dataIn, p.mck}| == 5
  {
    PinConfig(
      bck := BCK_PIN,
      ws := LRCK_PIN,
      dataOut := DATA_PIN,
      dataIn := DATA_IN_PIN,
      mck := MCK_PIN)
  }

  /** The four driver calls of `init(mode)`, in the order the firmware makes them. */
  function InitCalls(mode: int): (calls: seq<DriverCall>)
    ensures |calls| == 4
    ensures calls[0] == Uninstall(I2S_NUMBER)
    ensures forall i :: 0 <= i < |calls| ==> calls[i].port == I2S_NUMBER
    ensures calls[1].Install? && calls[3].SetClk?
    ensures calls[1].config.sampleRate == calls[3].rate
    ensures calls[1].config.bitsPerSample == calls[3].bits
  {
    [ Uninstall(I2S_NUMBER),
      Install(I2S_NUMBER, ConfigurationStructure(mode, SAMPLE_RATE), 0),
      SetPin(I2S_NUMBER, PinConfiguration()),
      SetClk(I2S_NUMBER, SAMPLE_RATE, Bits16, Mono) ]
  }

  /**
   `init(mode)` appends its calls to the driver trace; what came before is
   kept, and the appended part starts with the teardown whatever the trace held.
   */
  function Init(mode: int, trace: seq<DriverCall>): (t: seq<DriverCall>)
    ensures |t| == |trace| + 4
    ensures t[..|trace|] == trace
    ensures t[|trace|] == Uninstall(I2S_NUMBER)
  {
    trace + InitCalls(mode)
  }

  /**
   `micMode`: the trace gains the four `init` calls, starting with the teardown,
   and afterwards the driver holds a receive-only configuration.
   */
  function MicMode(trace: seq<DriverCall>): (t: seq<DriverCall>)
    ensures t == trace + InitCalls(MODE_MIC)
    ensures var i := InstalledConfig(t);
            && i.InstalledWith?
            && Rx in i.config.mode && Pdm in i.config.mode && Tx !in i.config.mode
  {
    InitInstalls(MODE_MIC, trace);
    Init(MODE_MIC, trace)
  }

  /**
   `speakerMode`: the trace gains the four `init` calls, starting with the
   teardown, and afterwards the driver holds a transmit-only configuration that
   auto-clears its trailing buffer and does not use the audio PLL.
   */
  function SpeakerMode(trace: seq<DriverCall>): (t: seq<DriverCall>)
    ensures t == trace + InitCalls(MODE_SPK)
    ensures var i := InstalledConfig(t);
            && i.InstalledWith?
            && Tx in i.config.mode && Rx !in i.config.mode
            && i.config.txDescAutoClear && !i.config.useApll
  {
    InitInstalls(MODE_SPK, trace);
    Init(MODE_SPK, trace)
  }

  /**
   The configuration the driver holds after a trace: the one of the last
   install, unless an uninstall came after it. The driver's return codes are
   not part of the trace, so every install is read as having succeeded.
   */
  function InstalledConfig(trace: seq<DriverCall>): Installed
  {
    if trace == [] then NotInstalled
    else
      match trace[|trace| - 1]
      case Uninstall(_) => NotInstalled
      case Install(_, config, _) => InstalledWith(config)
      case _ => InstalledConfig(trace[..|trace| - 1])
  }

  /** Every install in the trace comes straight after an uninstall. */
  ghost predicate TeardownBeforeInstall(trace: seq<DriverCall>) {
    forall i :: 0 <= i < |trace| && trace[i].Install? ==> 0 < i && trace[i - 1].Uninstall?
  }

  /**
   Whatever the driver held before, `init(mode)` leaves installed exactly the
   configuration built for `mode`: nothing of an earlier configuration remains.
   */
  lemma InitInstalls(mode: int, trace: seq<DriverCall>)
    ensures InstalledConfig(Init(mode, trace))
            == InstalledWith(ConfigurationStructure(mode, SAMPLE_RATE))
  {
    var t := Init(mode, trace);
    var calls := InitCalls(mode);
    // Peel the clock and pin calls off the end; the install is then last.
    var withPins := t[..|t| - 1];
    assert withPins == trace + calls[..3];
    var withInstall := withPins[..|withPins| - 1];
    assert withInstall == trace + calls[..2];
    assert InstalledConfig(withInstall) == InstalledWith(calls[1].config);
    assert InstalledConfig(withPins) == InstalledConfig(withInstall);
  }

  /**
   Switching from the microphone to the speaker leaves the speaker's transmit
   configuration installed, with no receive or PDM bit left over; switching back
   leaves the microphone's receive configuration with no transmit bit.
   */
  lemma RoleSwitchLeavesNoResidue(trace: seq<DriverCall>)
    ensures var i := InstalledConfig(SpeakerMode(MicMode(trace)));
            i.InstalledWith? && Tx in i.config.mode
            && Rx !in i.config.mode && Pdm !in i.config.mode
    ensures var i := InstalledConfig(MicMode(SpeakerMode(trace)));
            i.InstalledWith? && Rx in i.config.mode
            && Tx !in i.config.mode && !i.config.txDescAutoClear
  {
    InitInstalls(MODE_SPK, MicMode(trace));
    InitInstalls(MODE_MIC, SpeakerMode(trace));
  }

  /** Entering the same role twice leaves the same configuration installed as entering it once. */
  lemma InitIdempotent(mode: int, trace: seq<DriverCall>)
    ensures InstalledConfig(Init(mode, Init(mode, trace))) == InstalledConfig(Init(mode, trace))
  {
    InitInstalls(mode, trace);
    InitInstalls(mode, Init(mode, trace));
  }

  /**
   The teardown-before-install discipline holds of every trace the firmware
   produces: it holds of the empty trace and `init` preserves it.
   */
  lemma InitKeepsTeardownBeforeInstall(mode: int, trace: seq<DriverCall>)
    requires TeardownBeforeInstall(trace)
    ensures TeardownBeforeInstall(Init(mode, trace))
  {
    var t := Init(mode, trace);
    forall i | 0 <= i < |t| && t[i].Install?
      ensures 0 < i && t[i - 1].Uninstall?
    {
      if i < |trace| {
        assert t[i] == trace[i];
        assert t[i - 1] == trace[i - 1];
      } else {
        assert i == |trace| + 1;
      }
    }
  }
}
