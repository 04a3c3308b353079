/**
 * The LIS2DH12 as the driver sees it through ST's register library: a register
 * file holding the fields the driver touches, and the values the silicon
 * itself supplies (identity, FIFO level, samples).
 *
 * Each call into the register library is one bus transaction. A transaction's
 * status comes from the bus (`Hardware.reply`, indexed by the transaction
 * count `tick`). A field write takes effect only when its transaction
 * succeeds. A read returns the field's current content.
 */
module Lis2dh12Chip {
  import opened Types
  import opened DriverStatus

  type Bits2 = x: int | 0 <= x < 4
  type Bits3 = x: int | 0 <= x < 8
  type Bits4 = x: int | 0 <= x < 16
  type Bits5 = x: int | 0 <= x < 32
  type Bits7 = x: int | 0 <= x < 128

  /** Output data rates (CTRL_REG1.ODR). */
  const ODR_POWER_DOWN: Bits4 := 0
  const ODR_1HZ: Bits4 := 1
  const ODR_10HZ: Bits4 := 2
  const ODR_25HZ: Bits4 := 3
  const ODR_50HZ: Bits4 := 4
  const ODR_100HZ: Bits4 := 5
  const ODR_200HZ: Bits4 := 6
  const ODR_400HZ: Bits4 := 7
  const ODR_1KHZ620_LP: Bits4 := 8
  const ODR_5KHZ376_LP: Bits4 := 9

  /** Operating modes, i.e. output resolutions (CTRL_REG1.LPen with CTRL_REG4.HR). */
  const HR_12BIT: Bits2 := 0
  const NM_10BIT: Bits2 := 1
  const LP_8BIT: Bits2 := 2

  /** Full scales (CTRL_REG4.FS). */
  const FS_2G: Bits2 := 0
  const FS_4G: Bits2 := 1
  const FS_8G: Bits2 := 2
  const FS_16G: Bits2 := 3

  /** Self-test (CTRL_REG4.ST). */
  const ST_DISABLE: Bits2 := 0
  const ST_POSITIVE: Bits2 := 1
  const ST_NEGATIVE: Bits2 := 2

  /** High-pass cut-off (CTRL_REG2.HPCF). */
  const HPCF_AGGRESSIVE: Bits2 := 0
  const HPCF_STRONG: Bits2 := 1
  const HPCF_MEDIUM: Bits2 := 2
  const HPCF_LIGHT: Bits2 := 3

  /** High-pass filter mode "normal" (CTRL_REG2.HPM). */
  const HPM_NORMAL: Bits2 := 2

  /** High-pass filter routed to the interrupt 1 generator (CTRL_REG2.HP_IA1). */
  const HP_ON_INT1_GEN: Bits2 := 1

  /** FIFO modes (FIFO_CTRL_REG.FM). */
  const FM_BYPASS: Bits2 := 0
  const FM_DYNAMIC_STREAM: Bits2 := 2

  /** Content of WHO_AM_I on a genuine LIS2DH12. */
  const DEVICE_ID: Byte := 0x33

  /** CTRL_REG3 with only I1_WTM (FIFO watermark on INT1) set. */
  const CTRL3_I1_WTM: Byte := 0x04
  /** INT1_CFG with XHIE, YHIE and ZHIE set. */
  const INT1_CFG_HIGH_EVENTS: Byte := 0x2A
  /** CTRL_REG6 with only I2_IA1 (interrupt generator 1 on INT2) set. */
  const CTRL6_I2_IA1: Byte := 0x40

  /** One sample of the three axes, as the left-justified int16 output registers. */
  type Axes = s: seq<Int16> | |s| == 3 witness [0, 0, 0]

  /** The two temperature output bytes, low then high. */
  datatype TemperatureRaw = TemperatureRaw(low: Byte, high: Byte)

  /** The register fields the driver reads or writes. */
  datatype Regs = Regs(
    odr: Bits4,
    lowPower: bool,
    axes: Bits3,
    highResolution: bool,
    fullScale: Bits2,
    selfTest: Bits2,
    blockDataUpdate: bool,
    hpcf: Bits2,
    hpm: Bits2,
    hpOnOutputs: bool,
    hpOnInterrupt: Bits2,
    temperatureEnabled: bool,
    fifoEnabled: bool,
    fifoMode: Bits2,
    fifoWatermark: Bits5,
    ctrlReg3: Byte,
    int1Threshold: Bits7,
    int1Config: Byte,
    ctrlReg6: Byte)

  /** What the silicon and the bus supply, transaction by transaction. */
  datatype Hardware = Hardware(
    reply: nat -> Status,
    whoAmI: nat -> Byte,
    fifoLevel: nat -> Bits5,
    acceleration: nat -> Axes,
    temperature: nat -> TemperatureRaw)

  /** One register-library setter, with the value it writes. */
  datatype RegWrite =
    | DataRate(odr: Bits4)
    | OperatingMode(mode: Bits2)
    | FullScale(fs: Bits2)
    | SelfTest(st: Bits2)
    | BlockDataUpdate(enable: bool)
    | HighPassBandwidth(hpcf: Bits2)
    | HighPassMode(hpm: Bits2)
    | HighPassOnOutputs(enable: bool)
    | HighPassOnInterrupt(hp: Bits2)
    | TemperatureMeasurement(enable: bool)
    | Ctrl1(value: Byte)
    | FifoEnable(enable: bool)
    | FifoMode(fm: Bits2)
    | FifoWatermark(fth: Bits5)
    | Int1Pin(ctrl3: Byte)
    | Int1Threshold(ths: Bits7)
    | Int1Config(cfg: Byte)
    | Int2Pin(ctrl6: Byte)

  /**
   * The register file after a successful write. Writing CTRL_REG1 whole sets
   * ODR, LPen and the axis enables from the byte's fields.
   */
  function Apply(r: Regs, w: RegWrite): Regs
  {
    match w
    case DataRate(odr) => r.(odr := odr)
    case OperatingMode(mode) =>
      if mode == HR_12BIT then r.(lowPower := false, highResolution := true)
      else if mode == LP_8BIT then r.(lowPower := true, highResolution := false)
      else r.(lowPower := false, highResolution := false)
    case FullScale(fs) => r.(fullScale := fs)
    case SelfTest(st) => r.(selfTest := st)
    case BlockDataUpdate(enable) => r.(blockDataUpdate := enable)
    case HighPassBandwidth(hpcf) => r.(hpcf := hpcf)
    case HighPassMode(hpm) => r.(hpm := hpm)
    case HighPassOnOutputs(enable) => r.(hpOnOutputs := enable)
    case HighPassOnInterrupt(hp) => r.(hpOnInterrupt := hp)
    case TemperatureMeasurement(enable) => r.(temperatureEnabled := enable)
    case Ctrl1(value) => r.(odr := value / 16, lowPower := (value / 8) % 2 == 1, axes := value % 8)
    case FifoEnable(enable) => r.(fifoEnabled := enable)
    case FifoMode(fm) => r.(fifoMode := fm)
    case FifoWatermark(fth) => r.(fifoWatermark := fth)
    case Int1Pin(ctrl3) => r.(ctrlReg3 := ctrl3)
    case Int1Threshold(ths) => r.(int1Threshold := ths)
    case Int1Config(cfg) => r.(int1Config := cfg)
    case Int2Pin(ctrl6) => r.(ctrlReg6 := ctrl6)
  }

  /** The operating mode the library reports: LPen wins over HR. */
  function OperatingModeOf(r: Regs): (mode: Bits2)
    ensures mode in {HR_12BIT, NM_10BIT, LP_8BIT}
  {
    if r.lowPower then LP_8BIT else if r.highResolution then HR_12BIT else NM_10BIT
  }

  /** Writing an operating mode and reading it back gives the mode written. */
  lemma OperatingModeRoundTrip(r: Regs, mode: Bits2)
    requires mode in {HR_12BIT, NM_10BIT, LP_8BIT}
    ensures OperatingModeOf(Apply(r, OperatingMode(mode))) == mode
  {
  }

  /** The register file after a transaction with status `st`. */
  function Settle(r: Regs, w: RegWrite, st: Status): Regs
  {
    if st == SUCCESS then Apply(r, w) else r
  }

  /** The bus reports success for the `count` transactions from `from` on. */
  predicate Healthy(hw: Hardware, from: nat, count: nat)
  {
    forall t :: from <= t < from + count ==> hw.reply(t) == SUCCESS
  }

  /** The chip on its bus: register file and transaction counter. */
  class Chip {
    const hw: Hardware
    var regs: Regs
    var tick: nat

    /** A chip whose registers hold `regs`, before any transaction. */
    constructor (hw: Hardware, regs: Regs)
      ensures this.hw == hw && this.regs == regs && tick == 0
    {
      this.hw, this.regs, tick := hw, regs, 0;
    }

    /** One register-library setter. */
    method Write(w: RegWrite) returns (st: Status)
      modifies this
      ensures st == hw.reply(old(tick)) && tick == old(tick) + 1
      ensures regs == Settle(old(regs), w, st)
    {
      st := hw.reply(tick);
      regs := Settle(regs, w, st);
      tick := tick + 1;
    }

    /** lis2dh12_data_rate_get */
    method ReadDataRate() returns (st: Status, odr: Bits4)
      modifies this
      ensures st == hw.reply(old(tick)) && tick == old(tick) + 1 && regs == old(regs)
      ensures odr == regs.odr
    {
      st, odr := hw.reply(tick), regs.odr;
      tick := tick + 1;
    }

    /** lis2dh12_operating_mode_get */
    method ReadOperatingMode() returns (st: Status, mode: Bits2)
      modifies this
      ensures st == hw.reply(old(tick)) && tick == old(tick) + 1 && regs == old(regs)
      ensures mode == OperatingModeOf(regs)
    {
      st, mode := hw.reply(tick), OperatingModeOf(regs);
      tick := tick + 1;
    }

    /** lis2dh12_full_scale_get */
    method ReadFullScale() returns (st: Status, fs: Bits2)
      modifies this
      ensures st == hw.reply(old(tick)) && tick == old(tick) + 1 && regs == old(regs)
      ensures fs == regs.fullScale
    {
      st, fs := hw.reply(tick), regs.fullScale;
      tick := tick + 1;
    }

    /** lis2dh12_high_pass_bandwidth_get */
    method ReadHighPassBandwidth() returns (st: Status, hpcf: Bits2)
      modifies this
      ensures st == hw.reply(old(tick)) && tick == old(tick) + 1 && regs == old(regs)
      ensures hpcf == regs.hpcf
    {
      st, hpcf := hw.reply(tick), regs.hpcf;
      tick := tick + 1;
    }

    /** lis2dh12_high_pass_on_outputs_get */
    method ReadHighPassOnOutputs() returns (st: Status, enabled: bool)
      modifies this
      ensures st == hw.reply(old(tick)) && tick == old(tick) + 1 && regs == old(regs)
      ensures enabled == regs.hpOnOutputs
    {
      st, enabled := hw.reply(tick), regs.hpOnOutputs;
      tick := tick + 1;
    }

    /** lis2dh12_device_id_get */
    method ReadWhoAmI() returns (st: Status, id: Byte)
      modifies this
      ensures st == hw.reply(old(tick)) && tick == old(tick) + 1 && regs == old(regs)
      ensures id == hw.whoAmI(old(tick))
    {
      st, id := hw.reply(tick), hw.whoAmI(tick);
      tick := tick + 1;
    }

    /** lis2dh12_fifo_data_level_get */
    method ReadFifoLevel() returns (st: Status, level: Bits5)
      modifies this
      ensures st == hw.reply(old(tick)) && tick == old(tick) + 1 && regs == old(regs)
      ensures level == hw.fifoLevel(old(tick))
    {
      st, level := hw.reply(tick), hw.fifoLevel(tick);
      tick := tick + 1;
    }

    /** lis2dh12_acceleration_raw_get */
    method ReadAcceleration() returns (st: Status, raw: Axes)
      modifies this
      ensures st == hw.reply(old(tick)) && tick == old(tick) + 1 && regs == old(regs)
      ensures raw == hw.acceleration(old(tick))
    {
      st, raw := hw.reply(tick), hw.acceleration(tick);
      tick := tick + 1;
    }

    /** lis2dh12_temperature_raw_get */
    method ReadTemperature() returns (st: Status, raw: TemperatureRaw)
      modifies this
      ensures st == hw.reply(old(tick)) && tick == old(tick) + 1 && regs == old(regs)
      ensures raw == hw.temperature(old(tick))
    {
      st, raw := hw.reply(tick), hw.temperature(tick);
      tick := tick + 1;
    }
  }
}
