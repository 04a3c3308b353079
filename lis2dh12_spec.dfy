/**
 * What each LIS2DH12 driver operation does, as a function from the state
 * before the call to the state after it, the status returned and what is
 * written back through the caller's pointers.
 *
 * The state is the driver's static settings record, the chip's register
 * file, the bus transaction count and the process-wide error record.
 */
module Lis2dh12Spec {
  import opened Types
  import opened DriverStatus
  import opened DriverError
  import opened DriverSensor
  import opened Lis2dh12Chip

  /**
   * The driver's static settings record. `bound` says whether the bus
   * functions are set. Only init tests it: a transaction on an unbound driver
   * goes through a NULL pointer in C, and here it gets an oracle reply like
   * any other.
   */
  datatype Settings = Settings(
    resolution: Bits2,
    scale: Bits2,
    samplerate: Bits4,
    selftest: Bits2,
    mode: Byte,
    handle: Byte,
    tsample: Timestamp,
    bound: bool)

  /** The settings record at program start and after uninit. */
  const ZEROED: Settings := Settings(0, 0, 0, 0, 0, 0, 0, false)

  datatype State = State(dev: Settings, regs: Regs, tick: nat, log: Errors)

  /** The outcome of one operation: new state, returned status, values written back. */
  datatype Step<T> = Step(state: State, err: Status, out: T)

  /** The status of the next bus transaction. */
  function Reply(hw: Hardware, s: State): Status
  {
    hw.reply(s.tick)
  }

  /** The state after a read transaction. */
  function Tick(s: State): State
  {
    s.(tick := s.tick + 1)
  }

  /** The state after a write transaction; the write lands only if the bus reports success. */
  function Put(hw: Hardware, s: State, w: RegWrite): (r: State)
    ensures r.dev == s.dev && r.log == s.log && r.tick == s.tick + 1
  {
    s.(regs := Settle(s.regs, w, Reply(hw, s)), tick := s.tick + 1)
  }

  // ---------------------------------------------------------------- mode_get

  /** mode_get: what is reported for a stored mode, and the status. */
  function ModeReport(mode: Byte): (r: (Byte, Status))
    ensures r.1 == SUCCESS <==> mode == CFG_SLEEP || mode == CFG_CONTINUOUS
    ensures r.1 == SUCCESS ==> r.0 == mode
    ensures r.1 != SUCCESS ==> r == (ERR_NOT_SUPPORTED, ERROR_INTERNAL)
  {
    if mode == CFG_SLEEP then (CFG_SLEEP, SUCCESS)
    else if mode == CFG_CONTINUOUS then (CFG_CONTINUOUS, SUCCESS)
    else (ERR_NOT_SUPPORTED, ERROR_INTERNAL)
  }

  /** The guard at the head of every setter: the reported mode is SLEEP. */
  predicate Asleep(s: State)
  {
    ModeReport(s.dev.mode).0 == CFG_SLEEP
  }

  // ------------------------------------------------------------- samplerate

  /** The rate in Hz of the data rates a request of 1 to 200 can select. */
  function RateHz(odr: Bits4): nat
  {
    if odr == ODR_1HZ then 1
    else if odr == ODR_10HZ then 10
    else if odr == ODR_25HZ then 25
    else if odr == ODR_50HZ then 50
    else if odr == ODR_100HZ then 100
    else if odr == ODR_200HZ then 200
    else 0
  }

  /**
   * samplerate_set's choice of data rate for a request; None when the request
   * is not supported. Requests of 1 to 200 Hz are rounded up to the slowest
   * rate that is at least the request.
   */
  function RateCode(request: Byte, current: Bits4): (odr: Option<Bits4>)
    ensures request == CFG_NO_CHANGE ==> odr == Some(current)
    ensures 1 <= request <= 200 ==>
              odr.Some? && ODR_1HZ <= odr.value <= ODR_200HZ && RateHz(odr.value) >= request
    ensures 1 <= request <= 200 ==>
              forall o: Bits4 :: ODR_1HZ <= o <= ODR_200HZ && RateHz(o) >= request ==> RateHz(o) >= RateHz(odr.value)
    ensures odr.None? <==>
              (200 < request < CFG_MIN && request !in {CFG_CUSTOM_1, CFG_CUSTOM_2, CFG_CUSTOM_3})
              || request in {CFG_SLEEP, CFG_SINGLE, CFG_CONTINUOUS, 254}
    ensures request == CFG_MIN || request == CFG_DEFAULT ==> odr.Some? && RateHz(odr.value) == 1
    ensures request == CFG_MAX || request == CFG_CUSTOM_3 ==> odr.Some? && RateReport(odr.value).0 == CFG_MAX
    ensures request == CFG_CUSTOM_1 || request == CFG_CUSTOM_2 ==> odr.Some? && RateReport(odr.value).0 == request
  {
    if request == CFG_NO_CHANGE then Some(current)
    else if request == CFG_MIN then Some(ODR_1HZ)
    else if request == CFG_MAX then Some(ODR_5KHZ376_LP)
    else if request == CFG_DEFAULT then Some(ODR_1HZ)
    else if request == 1 then Some(ODR_1HZ)
    else if request <= 10 then Some(ODR_10HZ)
    else if request <= 25 then Some(ODR_25HZ)
    else if request <= 50 then Some(ODR_50HZ)
    else if request <= 100 then Some(ODR_100HZ)
    else if request <= 200 then Some(ODR_200HZ)
    else if request == CFG_CUSTOM_1 then Some(ODR_400HZ)
    else if request == CFG_CUSTOM_2 then Some(ODR_1KHZ620_LP)
    else if request == CFG_CUSTOM_3 then Some(ODR_5KHZ376_LP)
    else None
  }

  /** samplerate_get's report of a data-rate field, and the status. */
  function RateReport(odr: Bits4): (r: (Byte, Status))
    ensures r.1 == SUCCESS <==> ODR_1HZ <= odr <= ODR_5KHZ376_LP
    ensures r.1 != SUCCESS ==> r == (ERR_NOT_SUPPORTED, ERROR_INTERNAL)
    ensures ODR_1HZ <= odr <= ODR_200HZ ==> r.0 == RateHz(odr)
  {
    if odr == ODR_1HZ then (1, SUCCESS)
    else if odr == ODR_10HZ then (10, SUCCESS)
    else if odr == ODR_25HZ then (25, SUCCESS)
    else if odr == ODR_50HZ then (50, SUCCESS)
    else if odr == ODR_100HZ then (100, SUCCESS)
    else if odr == ODR_200HZ then (200, SUCCESS)
    else if odr == ODR_400HZ then (CFG_CUSTOM_1, SUCCESS)
    else if odr == ODR_5KHZ376_LP then (CFG_MAX, SUCCESS)
    else if odr == ODR_1KHZ620_LP then (CFG_CUSTOM_2, SUCCESS)
    else (ERR_NOT_SUPPORTED, ERROR_INTERNAL)
  }

  /** samplerate_get: read the data rate into the settings record and report it. */
  function SamplerateGetSpec(hw: Hardware, s: State, p: Option<Byte>): Step<Option<Byte>>
  {
    if p.None? then Step(s, ERROR_NULL, p)
    else
      var report := RateReport(s.regs.odr);
      Step(Tick(s).(dev := s.dev.(samplerate := s.regs.odr)), Or(Reply(hw, s), report.1), Some(report.0))
  }

  /** samplerate_set: choose, record and write a data rate, then read it back. */
  function SamplerateSetSpec(hw: Hardware, s: State, p: Option<Byte>): Step<Option<Byte>>
  {
    if p.None? then Step(s, ERROR_NULL, p)
    else if !Asleep(s) then Step(s, ERROR_INVALID_STATE, p)
    else match RateCode(p.value, s.dev.samplerate)
      case None => Step(s, ERROR_NOT_SUPPORTED, Some(ERR_NOT_SUPPORTED))
      case Some(odr) =>
        var s1 := s.(dev := s.dev.(samplerate := odr));
        var get := SamplerateGetSpec(hw, Put(hw, s1, DataRate(odr)), p);
        Step(get.state, Or(Reply(hw, s1), get.err), get.out)
  }

  // ------------------------------------------------------------- resolution

  /** resolution_set's choice of operating mode for a request; None when not supported. */
  function ResolutionCode(request: Byte, current: Bits2): (mode: Option<Bits2>)
    ensures request == CFG_NO_CHANGE ==> mode == Some(current)
    ensures 1 <= request <= 12 ==> mode.Some? && ResolutionBits(mode.value) >= request
    ensures 1 <= request <= 12 ==>
              forall m: Bits2 :: m in {HR_12BIT, NM_10BIT, LP_8BIT} && ResolutionBits(m) >= request ==>
                ResolutionBits(m) >= ResolutionBits(mode.value)
    ensures mode.None? <==> 12 < request < CFG_MIN || request in {CFG_SLEEP, CFG_SINGLE, CFG_CONTINUOUS, 254}
    ensures request == CFG_MIN ==> mode.Some? && ResolutionBits(mode.value) == 8
    ensures request == CFG_DEFAULT ==> mode.Some? && ResolutionBits(mode.value) == 10
    ensures request == CFG_MAX ==> mode.Some? && ResolutionBits(mode.value) == 12
  {
    if request == CFG_NO_CHANGE then Some(current)
    else if request == CFG_MIN then Some(LP_8BIT)
    else if request == CFG_MAX then Some(HR_12BIT)
    else if request == CFG_DEFAULT then Some(NM_10BIT)
    else if request <= 8 then Some(LP_8BIT)
    else if request <= 10 then Some(NM_10BIT)
    else if request <= 12 then Some(HR_12BIT)
    else None
  }

  /** The bits of resolution of an operating mode. */
  function ResolutionBits(mode: Bits2): nat
  {
    if mode == LP_8BIT then 8 else if mode == NM_10BIT then 10 else if mode == HR_12BIT then 12 else 0
  }

  /** resolution_get's report of an operating mode, and the status. */
  function ResolutionReport(mode: Bits2): (r: (Byte, Status))
    ensures r.1 == SUCCESS <==> mode in {HR_12BIT, NM_10BIT, LP_8BIT}
    ensures r.1 == SUCCESS ==> r.0 == ResolutionBits(mode)
    ensures r.1 != SUCCESS ==> r == (ERR_INVALID, ERROR_INTERNAL)
  {
    if mode == LP_8BIT then (8, SUCCESS)
    else if mode == NM_10BIT then (10, SUCCESS)
    else if mode == HR_12BIT then (12, SUCCESS)
    else (ERR_INVALID, ERROR_INTERNAL)
  }

  /** resolution_get: read the operating mode into the settings record and report it. */
  function ResolutionGetSpec(hw: Hardware, s: State, p: Option<Byte>): Step<Option<Byte>>
  {
    if p.None? then Step(s, ERROR_NULL, p)
    else
      var mode := OperatingModeOf(s.regs);
      var report := ResolutionReport(mode);
      Step(Tick(s).(dev := s.dev.(resolution := mode)), Or(Reply(hw, s), report.1), Some(report.0))
  }

  /** resolution_set: choose, record and write an operating mode, then read it back. */
  function ResolutionSetSpec(hw: Hardware, s: State, p: Option<Byte>): Step<Option<Byte>>
  {
    if p.None? then Step(s, ERROR_NULL, p)
    else if !Asleep(s) then Step(s, ERROR_INVALID_STATE, p)
    else match ResolutionCode(p.value, s.dev.resolution)
      case None => Step(s, ERROR_NOT_SUPPORTED, Some(ERR_NOT_SUPPORTED))
      case Some(mode) =>
        var s1 := s.(dev := s.dev.(resolution := mode));
        var get := ResolutionGetSpec(hw, Put(hw, s1, OperatingMode(mode)), p);
        Step(get.state, Or(Reply(hw, s1), get.err), get.out)
  }

  // ------------------------------------------------------------------ scale

  /** The full scale in g of a full-scale field. */
  function ScaleG(fs: Bits2): nat
  {
    if fs == FS_2G then 2 else if fs == FS_4G then 4 else if fs == FS_8G then 8 else 16
  }

  /** scale_set's choice of full scale for a request; None when not supported. */
  function ScaleCode(request: Byte, current: Bits2): (fs: Option<Bits2>)
    ensures request == CFG_NO_CHANGE ==> fs == Some(current)
    ensures 1 <= request <= 16 ==> fs.Some? && ScaleG(fs.value) >= request
    ensures 1 <= request <= 16 ==> forall f: Bits2 :: ScaleG(f) >= request ==> ScaleG(f) >= ScaleG(fs.value)
    ensures fs.None? <==> 16 < request < CFG_MIN || request in {CFG_SLEEP, CFG_SINGLE, CFG_CONTINUOUS, 254}
    ensures request == CFG_MIN || request == CFG_DEFAULT ==> fs.Some? && ScaleG(fs.value) == 2
    ensures request == CFG_MAX ==> fs.Some? && ScaleG(fs.value) == 16
  {
    if request == CFG_NO_CHANGE then Some(current)
    else if request == CFG_MIN then Some(FS_2G)
    else if request == CFG_MAX then Some(FS_16G)
    else if request == CFG_DEFAULT then Some(FS_2G)
    else if request <= 2 then Some(FS_2G)
    else if request <= 4 then Some(FS_4G)
    else if request <= 8 then Some(FS_8G)
    else if request <= 16 then Some(FS_16G)
    else None
  }

  /** scale_get's report of a full-scale field: every 2-bit field is a scale. */
  function ScaleReport(fs: Bits2): (r: (Byte, Status))
    ensures r == (ScaleG(fs), SUCCESS)
  {
    if fs == FS_2G then (2, SUCCESS)
    else if fs == FS_4G then (4, SUCCESS)
    else if fs == FS_8G then (8, SUCCESS)
    else if fs == FS_16G then (16, SUCCESS)
    else (ERR_NOT_SUPPORTED, ERROR_INTERNAL)
  }

  /** scale_get: read the full scale into the settings record and report it. */
  function ScaleGetSpec(hw: Hardware, s: State, p: Option<Byte>): Step<Option<Byte>>
  {
    if p.None? then Step(s, ERROR_NULL, p)
    else
      var report := ScaleReport(s.regs.fullScale);
      Step(Tick(s).(dev := s.dev.(scale := s.regs.fullScale)), Or(Reply(hw, s), report.1), Some(report.0))
  }

  /** scale_set: choose, record and write a full scale, then read it back. */
  function ScaleSetSpec(hw: Hardware, s: State, p: Option<Byte>): Step<Option<Byte>>
  {
    if p.None? then Step(s, ERROR_NULL, p)
    else if !Asleep(s) then Step(s, ERROR_INVALID_STATE, p)
    else match ScaleCode(p.value, s.dev.scale)
      case None => Step(s, ERROR_NOT_SUPPORTED, Some(ERR_NOT_SUPPORTED))
      case Some(fs) =>
        var s1 := s.(dev := s.dev.(scale := fs));
        var get := ScaleGetSpec(hw, Put(hw, s1, FullScale(fs)), p);
        Step(get.state, Or(Reply(hw, s1), get.err), get.out)
  }

  // -------------------------------------------------------------------- dsp

  /** A DSP function with its parameter, as passed through the two pointers. */
  datatype DspSetting = DspSetting(dsp: Byte, parameter: Byte)

  /** dsp_get's parameter for a high-pass cut-off: 0 is the lightest filtering, 3 the strongest. */
  function CutoffParameter(hpcf: Bits2): (parameter: Byte)
    ensures parameter <= 3
  {
    if hpcf == HPCF_LIGHT then 0
    else if hpcf == HPCF_MEDIUM then 1
    else if hpcf == HPCF_STRONG then 2
    else 3
  }

  /**
   * dsp_set's high-pass cut-off for a parameter, with the parameter written
   * back; None when the parameter is not supported.
   */
  function HighPassCutoff(parameter: Byte): (r: Option<(Bits2, Byte)>)
    ensures r.Some? <==> parameter <= 3 || parameter == CFG_MIN || parameter == CFG_MAX
    ensures r.Some? ==> CutoffParameter(r.value.0) == r.value.1
    ensures parameter <= 3 ==> r.Some? && r.value.1 == parameter
    ensures parameter == CFG_MIN ==> r == Some((HPCF_LIGHT, 0))
    ensures parameter == CFG_MAX ==> r == Some((HPCF_AGGRESSIVE, 3))
  {
    if parameter == CFG_MIN || parameter == 0 then Some((HPCF_LIGHT, 0))
    else if parameter == 1 then Some((HPCF_MEDIUM, 1))
    else if parameter == 2 then Some((HPCF_STRONG, 2))
    else if parameter == CFG_MAX || parameter == 3 then Some((HPCF_AGGRESSIVE, 3))
    else None
  }

  /**
   * dsp_get: read the cut-off and the output filter switch. Every 2-bit
   * cut-off has a parameter, so the read statuses are the only errors.
   */
  function DspGetSpec(hw: Hardware, s: State): Step<DspSetting>
  {
    var hpcf := s.regs.hpcf;
    var s1 := Tick(s);
    var on := s1.regs.hpOnOutputs;
    Step(Tick(s1), Or(Reply(hw, s), Reply(hw, s1)),
         DspSetting(if on then DSP_HIGH_PASS else DSP_LAST, CutoffParameter(hpcf)))
  }

  /**
   * The marker a setter writes back into a parameter it rejects: the
   * sensor-level NOT_SUPPORTED. dsp_set, as written, stores the driver status
   * NOT_SUPPORTED there instead (its low byte, 8); this model uses the marker,
   * and Lis2dh12AsWritten exhibits the difference.
   */
  const REJECTED_PARAMETER: Byte := ERR_NOT_SUPPORTED

  /**
   * dsp_set: NO_CHANGE in either half is replaced by the current setting;
   * high pass writes cut-off, filter mode and the output switch; LAST (which
   * is also DEFAULT) turns the output filter off.
   */
  function DspSetSpec(hw: Hardware, s: State, p: Option<DspSetting>): Step<Option<DspSetting>>
  {
    if p.None? then Step(s, ERROR_NULL, p)
    else if !Asleep(s) then Step(s, ERROR_INVALID_STATE, p)
    else
      var orig := DspGetSpec(hw, s);
      var s1 := orig.state;
      var dsp := if p.value.dsp == CFG_NO_CHANGE then orig.out.dsp else p.value.dsp;
      var parameter := if p.value.parameter == CFG_NO_CHANGE then orig.out.parameter else p.value.parameter;
      if dsp == DSP_HIGH_PASS then
        var parameter' := if parameter == CFG_DEFAULT then 0 else parameter;
        match HighPassCutoff(parameter')
        case None => Step(s1, ERROR_NOT_SUPPORTED, Some(DspSetting(dsp, REJECTED_PARAMETER)))
        case Some((hpcf, reported)) =>
          var s2 := Put(hw, s1, HighPassBandwidth(hpcf));
          var s3 := Put(hw, s2, HighPassMode(HPM_NORMAL));
          var s4 := Put(hw, s3, HighPassOnOutputs(true));
          Step(s4, Or(Or(Or(orig.err, Reply(hw, s1)), Reply(hw, s2)), Reply(hw, s3)),
               Some(DspSetting(dsp, reported)))
      else if dsp == DSP_LAST || dsp == CFG_DEFAULT then
        Step(Put(hw, s1, HighPassOnOutputs(false)), Or(orig.err, Reply(hw, s1)),
             Some(DspSetting(DSP_LAST, parameter)))
      else Step(s1, ERROR_NOT_SUPPORTED, Some(DspSetting(dsp, parameter)))
  }

  // ------------------------------------------------------------------- mode

  /** mode_get */
  function ModeGetSpec(s: State, p: Option<Byte>): Step<Option<Byte>>
  {
    if p.None? then Step(s, ERROR_NULL, p)
    else Step(s, ModeReport(s.dev.mode).1, Some(ModeReport(s.dev.mode).0))
  }

  /**
   * mode_set. SINGLE samples once at 400 Hz and powers down, stamping the
   * sample with `stamp` (the timestamp source's reading); the stored mode is
   * not changed. SLEEP powers down but keeps the stored rate; CONTINUOUS
   * writes the stored rate.
   */
  function ModeSetSpec(hw: Hardware, s: State, p: Option<Byte>, stamp: Timestamp): Step<Option<Byte>>
  {
    if p.None? then Step(s, ERROR_NULL, p)
    else if p.value == CFG_SINGLE then
      if ModeReport(s.dev.mode).0 == CFG_CONTINUOUS then Step(s, ERROR_INVALID_STATE, Some(CFG_CONTINUOUS))
      else
        var s1 := s.(dev := s.dev.(samplerate := ODR_400HZ));
        var s2 := Put(hw, s1, DataRate(ODR_400HZ));
        var s3 := s2.(dev := s2.dev.(tsample := stamp, samplerate := ODR_POWER_DOWN));
        Step(Put(hw, s3, DataRate(ODR_POWER_DOWN)), Or(Reply(hw, s1), Reply(hw, s3)), Some(CFG_SLEEP))
    else if p.value == CFG_SLEEP then
      var s1 := s.(dev := s.dev.(mode := CFG_SLEEP));
      Step(Put(hw, s1, DataRate(ODR_POWER_DOWN)), Reply(hw, s1), p)
    else if p.value == CFG_CONTINUOUS then
      var s1 := s.(dev := s.dev.(mode := CFG_CONTINUOUS));
      Step(Put(hw, s1, DataRate(s.dev.samplerate)), Reply(hw, s1), p)
    else Step(s, ERROR_INVALID_PARAM, p)
  }

  // ------------------------------------------------------------ conversions

  /**
   * A float the driver computes. The library's conversion formulas are not
   * part of this model: a converted value is named by what it was computed from.
   */
  datatype Value =
    | FloatInvalid
    | Mg(scale: Bits2, resolution: Bits2, lsb: Int16)
    | Celsius(resolution: Bits2, lsb: Int16)
    | G(mg: Value)

  /** Whether the settings name a resolution the conversions know. */
  predicate Convertible(dev: Settings)
  {
    dev.resolution in {HR_12BIT, NM_10BIT, LP_8BIT}
  }

  /** rawToMg for one axis. */
  function AxisMg(dev: Settings, lsb: Int16): (r: (Value, Status))
  {
    if dev.scale in {FS_2G, FS_4G, FS_8G, FS_16G} && dev.resolution in {LP_8BIT, NM_10BIT, HR_12BIT}
    then (Mg(dev.scale, dev.resolution, lsb), SUCCESS)
    else (FloatInvalid, ERROR_INTERNAL)
  }

  /** The status of rawToMg: every axis adds the same error. */
  function ConversionErr(dev: Settings): Status
  {
    AxisMg(dev, 0).1
  }

  /** rawToMg: the three axes in mg. */
  function RawToMgSpec(dev: Settings, raw: Axes): (mg: seq<Value>)
    ensures |mg| == 3
  {
    [AxisMg(dev, raw[0]).0, AxisMg(dev, raw[1]).0, AxisMg(dev, raw[2]).0]
  }

  /** The two's-complement int16 whose high byte is the second temperature byte and whose low byte the first. */
  function TemperatureLsb(raw: TemperatureRaw): (lsb: Int16)
    ensures raw.high < 0x80 ==> lsb == raw.high * 0x100 + raw.low
    ensures raw.high >= 0x80 ==> lsb == raw.high * 0x100 + raw.low - 0x1_0000
  {
    ToInt16(raw.high * 0x100 + raw.low)
  }

  /** rawToC */
  function RawToCSpec(dev: Settings, raw: TemperatureRaw): (r: (Value, Status))
    ensures Convertible(dev) <==> r.1 == SUCCESS
    ensures Convertible(dev) ==> r.0 == Celsius(dev.resolution, TemperatureLsb(raw))
  {
    if dev.resolution in {LP_8BIT, NM_10BIT, HR_12BIT}
    then (Celsius(dev.resolution, TemperatureLsb(raw)), SUCCESS)
    else (FloatInvalid, ERROR_INTERNAL)
  }

  // --------------------------------------------------------------- data_get

  /** A caller's data record: its timestamp and the values populated into it. */
  datatype SensorData = SensorData(timestampMs: Timestamp, values: seq<Value>)

  /** The values data_get populates: the three axes in g, then the temperature. */
  function Reading(mg: seq<Value>, celsius: Value): (values: seq<Value>)
    requires |mg| == 3
    ensures |values| == 4 && values[3] == celsius
  {
    [G(mg[0]), G(mg[1]), G(mg[2]), celsius]
  }

  /** The file name under which the driver reports errors. */
  const SOURCE_FILE: string := "ruuvi_interface_lis2dh12.c"

  /** The line at which data_get reports a stored mode it does not know. */
  const DATA_GET_MODE_LINE: int := 822

  /**
   * The two samples data_get takes, one transaction each: the status of the
   * reads and conversions, the axes in mg and the temperature.
   */
  function SampleSpec(hw: Hardware, s: State): (r: (Status, seq<Value>, Value))
    ensures |r.1| == 3
  {
    var mg := RawToMgSpec(s.dev, hw.acceleration(s.tick));
    var celsius := RawToCSpec(s.dev, hw.temperature(s.tick + 1));
    (Or(Or(Or(hw.reply(s.tick), hw.reply(s.tick + 1)), ConversionErr(s.dev)), celsius.1), mg, celsius.0)
  }

  /**
   * data_get: read a sample and the temperature, convert them, and stamp the
   * record by mode: SLEEP with the single-sample time, CONTINUOUS with
   * `stamp`; an unknown mode is reported to the error record as non-fatal
   * and leaves the caller's timestamp alone. The values are populated only
   * when the timestamp is valid and nothing failed.
   */
  function DataGetSpec(hw: Hardware, s: State, data: Option<SensorData>, stamp: Timestamp): Step<Option<SensorData>>
  {
    if data.None? then Step(s, ERROR_NULL, data)
    else
      var sample := SampleSpec(hw, s);
      var s2 := s.(tick := s.tick + 2);
      var mg := sample.1;
      var celsius := sample.2;
      var mode := ModeReport(s.dev.mode);
      var err := Or(sample.0, mode.1);
      var s3 := if mode.0 == CFG_SLEEP || mode.0 == CFG_CONTINUOUS then s2
                else s2.(log := Check(s2.log, Report(ERROR_INTERNAL, !ERROR_FATAL, SOURCE_FILE, DATA_GET_MODE_LINE)));
      var stamped := if mode.0 == CFG_SLEEP then data.value.(timestampMs := s.dev.tsample)
                     else if mode.0 == CFG_CONTINUOUS then data.value.(timestampMs := stamp)
                     else data.value;
      var out := if stamped.timestampMs != UINT64_INVALID && err == SUCCESS
                 then stamped.(values := Reading(mg, celsius))
                 else stamped;
      Step(s3, err, Some(out))
  }

  // ------------------------------------------------------------------- FIFO

  /** fifo_use: enable or disable the FIFO and choose stream or bypass; only the second status is returned. */
  function FifoUseSpec(hw: Hardware, s: State, enable: bool): Step<()>
  {
    var s1 := Put(hw, s, RegWrite.FifoEnable(enable));
    Step(Put(hw, s1, FifoMode(if enable then FM_DYNAMIC_STREAM else FM_BYPASS)), Reply(hw, s1), ())
  }

  /** fifo_interrupt_use: watermark at 31 when enabling, and CTRL_REG3 rewritten whole. */
  function FifoInterruptUseSpec(hw: Hardware, s: State, enable: bool): Step<()>
  {
    if enable then
      var s1 := Put(hw, s, FifoWatermark(31));
      Step(Put(hw, s1, Int1Pin(CTRL3_I1_WTM)), Or(Reply(hw, s), Reply(hw, s1)), ())
    else Step(Put(hw, s, Int1Pin(0)), Reply(hw, s), ())
  }

  /** How many samples fifo_read takes: the FIFO level plus the latest, at most the capacity. */
  function FifoCount(level: Bits5, capacity: nat): (n: nat)
    ensures n <= capacity && n <= level + 1
    ensures n == level + 1 || n == capacity
    ensures 0 < capacity ==> 0 < n
  {
    if level + 1 > capacity then capacity else level + 1
  }

  /** Three axes in mg, each divided into g. */
  function InG(mg: seq<Value>): (values: seq<Value>)
    requires |mg| == 3
    ensures |values| == 3
  {
    [G(mg[0]), G(mg[1]), G(mg[2])]
  }

  /** One FIFO sample as fifo_read delivers it: the three axes in g. */
  function FifoValues(dev: Settings, raw: Axes): (values: seq<Value>)
    ensures |values| == 3
  {
    InG(RawToMgSpec(dev, raw))
  }

  /** A caller's record with one FIFO sample populated into it. */
  function FifoRecord(record: SensorData, dev: Settings, raw: Axes): SensorData
  {
    record.(values := FifoValues(dev, raw))
  }

  /** The accumulated status after reading `n` samples from transaction `t0` on. */
  function FifoErr(hw: Hardware, dev: Settings, first: Status, t0: nat, n: nat): Status
    decreases n
  {
    if n == 0 then first else Or(Or(FifoErr(hw, dev, first, t0, n - 1), hw.reply(t0 + n - 1)), ConversionErr(dev))
  }

  /** The caller's records after `n` samples were read from transaction `t0` on. */
  function FifoFilled(hw: Hardware, dev: Settings, buffer: seq<SensorData>, t0: nat, n: nat): (r: seq<SensorData>)
    requires n <= |buffer|
    ensures |r| == |buffer|
    decreases n
  {
    if n == 0 then buffer
    else
      var before := FifoFilled(hw, dev, buffer, t0, n - 1);
      before[n - 1 := FifoRecord(before[n - 1], dev, hw.acceleration(t0 + n - 1))]
  }

  /** Record `i` of the first `n` holds sample `t0 + i` in g. */
  lemma {:induction false} FifoFilledRecords(hw: Hardware, dev: Settings, buffer: seq<SensorData>, t0: nat, n: nat, i: nat)
    requires i < n <= |buffer|
    ensures FifoFilled(hw, dev, buffer, t0, n)[i] == FifoRecord(buffer[i], dev, hw.acceleration(t0 + i))
    decreases n
  {
    var before := FifoFilled(hw, dev, buffer, t0, n - 1);
    var raw := hw.acceleration(t0 + n - 1);
    assert FifoFilled(hw, dev, buffer, t0, n) == before[n - 1 := FifoRecord(before[n - 1], dev, raw)];
    if i < n - 1 {
      FifoFilledRecords(hw, dev, buffer, t0, n - 1, i);
    } else {
      FifoFilledRest(hw, dev, buffer, t0, n - 1, i);
      assert t0 + i == t0 + n - 1;
    }
  }

  /** The records after the first `n` are the caller's. */
  lemma {:induction false} FifoFilledRest(hw: Hardware, dev: Settings, buffer: seq<SensorData>, t0: nat, n: nat, i: nat)
    requires n <= i < |buffer|
    ensures FifoFilled(hw, dev, buffer, t0, n)[i] == buffer[i]
    decreases n
  {
    if n > 0 {
      FifoFilledRest(hw, dev, buffer, t0, n - 1, i);
    }
  }

  /**
   * The caller's records with the first one stamped, when any sample is to be
   * read. fifo_read as written stamps the first record even when none is to
   * be read; Lis2dh12AsWritten exhibits the difference.
   */
  function Stamped(buffer: seq<SensorData>, n: nat, stamp: Timestamp): (r: seq<SensorData>)
    ensures |r| == |buffer|
  {
    if n == 0 || |buffer| == 0 then buffer else buffer[0 := buffer[0].(timestampMs := stamp)]
  }

  /**
   * fifo_read: read the FIFO level; with an empty FIFO report 0 elements and
   * success. Otherwise stamp the first record with `stamp` and fill up to
   * `capacity` records, one sample per transaction.
   */
  function FifoReadSpec(hw: Hardware, s: State, capacity: Option<nat>, buffer: Option<seq<SensorData>>, stamp: Timestamp)
    : Step<(Option<nat>, Option<seq<SensorData>>)>
    requires buffer.Some? && capacity.Some? ==> capacity.value <= |buffer.value|
  {
    if capacity.None? || buffer.None? then Step(s, ERROR_NULL, (capacity, buffer))
    else
      var level := hw.fifoLevel(s.tick);
      var s1 := Tick(s);
      if level == 0 then Step(s1, SUCCESS, (Some(0), buffer))
      else
        var n := FifoCount(level, capacity.value);
        var stamped := Stamped(buffer.value, n, stamp);
        Step(s1.(tick := s1.tick + n), FifoErr(hw, s.dev, Reply(hw, s), s1.tick, n),
             (Some(n), Some(FifoFilled(hw, s.dev, stamped, s1.tick, n))))
  }

  // ---------------------------------------------------------- activity

  /** The threshold step in g at a full scale reported by scale_get; unknown reports use the 2 g step. */
  function Divisor(scale: Byte): (d: real)
    ensures d > 0.0
  {
    if scale == 2 then 0.016
    else if scale == 4 then 0.032
    else if scale == 8 then 0.062
    else if scale == 16 then 0.186
    else 0.016
  }

  /** The threshold register value for a limit: the limit in steps, truncated, plus one. */
  function Threshold(limit: real, d: real): (t: int)
    requires limit >= 0.0 && d > 0.0
    ensures t >= 1
  {
    (limit / d).Floor + 1
  }

  /**
   * The threshold rounds the limit up: `t` steps reach strictly beyond the
   * limit and `t - 1` steps do not.
   */
  lemma ThresholdRoundsUp(limit: real, d: real)
    requires limit >= 0.0 && d > 0.0
    ensures var t := Threshold(limit, d); (t - 1) as real * d <= limit < t as real * d
  {
    var x := limit / d;
    var f := x.Floor;
    assert f as real <= x < f as real + 1.0;
    assert x * d == limit;
    assert x >= 0.0 by {
      if x < 0.0 {
        MultiplyKeepsStrictOrder(x, 0.0, d);
      }
    }
    MultiplyKeepsOrder(f as real, x, d);
    MultiplyKeepsStrictOrder(x, f as real + 1.0, d);
    var t := f + 1;
    assert t as real == f as real + 1.0;
    assert (t - 1) as real == f as real;
    assert limit < t as real * d;
    assert t == Threshold(limit, d);
  }

  lemma MultiplyKeepsOrder(a: real, b: real, d: real)
    requires a <= b && d > 0.0
    ensures a * d <= b * d
  {
  }

  lemma MultiplyKeepsStrictOrder(a: real, b: real, d: real)
    requires a < b && d > 0.0
    ensures a * d < b * d
  {
  }

  /** INT1_CFG for the activity interrupt: high events on every axis when enabled, nothing otherwise. */
  function ActivityConfig(enable: bool): Byte
  {
    if enable then INT1_CFG_HIGH_EVENTS else 0
  }

  /**
   * activity_interrupt_use: a negative limit is refused; the limit is
   * rounded up to the next threshold step of the current scale and written
   * back; a threshold over 0x7F is refused. Then the interrupt generator 1
   * gets the high-pass filter, the threshold and the axis events, and is
   * routed to the INT2 pin.
   */
  function ActivityInterruptUseSpec(hw: Hardware, s: State, enable: bool, limit: Option<real>): Step<Option<real>>
  {
    if limit.None? then Step(s, ERROR_NULL, limit)
    else if limit.value < 0.0 then Step(s, ERROR_INVALID_PARAM, limit)
    else
      var scale := ScaleGetSpec(hw, s, Some(0));
      var d := Divisor(scale.out.value);
      var threshold := Threshold(limit.value, d);
      if threshold > 0x7F then Step(scale.state, ERROR_INVALID_PARAM, limit)
      else
        var w := ActivityWrites(hw, scale.state, scale.err, threshold, enable);
        Step(w.state, w.err, Some(threshold as real * d))
  }

  /**
   * The four register writes of activity_interrupt_use: high-pass on
   * interrupt 1, the threshold, the interrupt configuration and the routing
   * to pin 2, each status folded into `err`.
   */
  function ActivityWrites(hw: Hardware, s: State, err: Status, threshold: Bits7, enable: bool): Step<()>
  {
    var s2 := Put(hw, s, HighPassOnInterrupt(HP_ON_INT1_GEN));
    var s3 := Put(hw, s2, Int1Threshold(threshold));
    var s4 := Put(hw, s3, Int1Config(ActivityConfig(enable)));
    var s5 := Put(hw, s4, Int2Pin(CTRL6_I2_IA1));
    Step(s5, Or(Or(Or(Or(err, Reply(hw, s)), Reply(hw, s2)), Reply(hw, s3)), Reply(hw, s4)), ())
  }

  // --------------------------------------------------------------- self-test

  const SELFTEST_DIFF_MIN: int := 17
  const SELFTEST_DIFF_MAX: int := 360

  /**
   * The change on one axis between two samples: the int16 difference, shifted
   * right by 6 (arithmetic shift, i.e. floor division by 64), made absolute.
   */
  function AxisChange(newer: Int16, older: Int16): (change: nat)
    ensures change <= 512
  {
    var diff := ToInt16(newer - older) / 64;
    if diff < 0 then -diff else diff
  }

  /** Whether an axis change lies in the band the datasheet gives for the self-test. */
  predicate InBand(change: int)
  {
    SELFTEST_DIFF_MIN <= change <= SELFTEST_DIFF_MAX
  }

  /** The settings under which the self-test band is calibrated: 2 g at 10 bits. */
  predicate SelftestCalibrated(dev: Settings)
  {
    dev.scale == FS_2G && dev.resolution == NM_10BIT
  }

  /** verify_selftest_difference */
  function SelftestVerdict(dev: Settings, newer: Axes, older: Axes): (err: Status)
    ensures !SelftestCalibrated(dev) ==> err == ERROR_INVALID_STATE
    ensures SelftestCalibrated(dev) ==>
              (err == SUCCESS <==> forall i :: 0 <= i < 3 ==> InBand(AxisChange(newer[i], older[i])))
    ensures err in {SUCCESS, ERROR_INVALID_STATE, ERROR_SELFTEST}
  {
    if !SelftestCalibrated(dev) then ERROR_INVALID_STATE
    else if forall i :: 0 <= i < 3 ==> InBand(AxisChange(newer[i], older[i])) then SUCCESS
    else ERROR_SELFTEST
  }

  // -------------------------------------------------------- init and uninit

  /** The name the driver gives its sensor record. */
  const ACC_NAME: string := "LIS2DH12"

  /** The record after ruuvi_driver_sensor_initialize: stubs everywhere, the provided set kept. */
  function Stubbed(r: Record): Record
  {
    Record(NOTINIT_NAME, Stubs(), r.provided)
  }

  /**
   * The record after a successful init: its name, four quantities more, and
   * `Driver` in every slot: the LIS2DH12 function, except the two
   * configuration slots, which get the generic configuration_set/get.
   */
  function Installed(r: Record): Record
  {
    Record(ACC_NAME, Uniform(Driver), r.provided + {AccelerationX, AccelerationY, AccelerationZ, Temperature})
  }

  /** init's first step: the FIFO, its interrupt and the activity interrupt turned off, statuses ignored. */
  function InitDisable(hw: Hardware, s: State): State
  {
    var a := FifoUseSpec(hw, s, false).state;
    var b := FifoInterruptUseSpec(hw, a, false).state;
    ActivityInterruptUseSpec(hw, b, false, Some(0.0)).state
  }

  /**
   * init's configuration for the self-test, statuses ignored: CTRL_REG1
   * written whole (axes on, powered down), block data update enabled, the
   * output filter off, and the record and the chip given 400 Hz, 2 g, the
   * temperature sensor and 10-bit mode.
   */
  function InitDefaults(hw: Hardware, s: State): State
  {
    var d := Put(hw, s, Ctrl1(0x07));
    var e := Put(hw, d, BlockDataUpdate(true));
    var f := Put(hw, e, HighPassOnOutputs(false));
    var f1 := f.(dev := f.dev.(samplerate := ODR_400HZ));
    var g := Put(hw, f1, DataRate(ODR_400HZ));
    var g1 := g.(dev := g.dev.(scale := FS_2G));
    var h := Put(hw, g1, FullScale(FS_2G));
    var i := Put(hw, h, TemperatureMeasurement(true));
    var i1 := i.(dev := i.dev.(resolution := NM_10BIT));
    Put(hw, i1, OperatingMode(NM_10BIT))
  }

  /**
   * One direction of the self-test: self-test off (its status accumulated
   * into `err`), a reference sample, self-test on in `direction` (status
   * ignored), a second sample, and the verdict on the two, accumulated.
   */
  function SelfTestHalf(hw: Hardware, s: State, err: Status, direction: Bits2): (r: (State, Status))
  {
    var s1 := s.(dev := s.dev.(selftest := ST_DISABLE));
    var err1 := Or(err, Reply(hw, s1));
    var s2 := Put(hw, s1, SelfTest(ST_DISABLE));
    var older := hw.acceleration(s2.tick);
    var s3 := Tick(s2);
    var s4 := s3.(dev := s3.dev.(selftest := direction));
    var s5 := Put(hw, s4, SelfTest(direction));
    var newer := hw.acceleration(s5.tick);
    var s6 := Tick(s5);
    (s6, Or(err1, SelftestVerdict(s6.dev, newer, older)))
  }

  /** The lines at which init reports its accumulated status to the error record, with no error tolerated. */
  const INIT_CHECK_LINES: seq<int> := [175, 191, 198]

  /** A state whose error record has taken one more report from init. */
  function Reported(s: State, err: Status, line: int): State
  {
    s.(log := Check(s.log, Report(err, SUCCESS, SOURCE_FILE, line)))
  }

  /** One direction of the self-test with the accumulated status reported at `line`. */
  function CheckedHalf(hw: Hardware, s: State, err: Status, direction: Bits2, line: int): (r: (State, Status))
  {
    var half := SelfTestHalf(hw, s, err, direction);
    (Reported(half.0, half.1, line), half.1)
  }

  /**
   * init's self-test: positive direction, report; negative direction,
   * report; self-test off and power down, report.
   */
  function InitSelfTest(hw: Hardware, s: State): (r: (State, Status))
  {
    var pos := CheckedHalf(hw, s, SUCCESS, ST_POSITIVE, INIT_CHECK_LINES[0]);
    var neg := CheckedHalf(hw, pos.0, pos.1, ST_NEGATIVE, INIT_CHECK_LINES[1]);
    SelfTestEnd(hw, neg.0, neg.1)
  }

  /** The end of init's self-test: self-test off and power down, both statuses kept, and a report. */
  function SelfTestEnd(hw: Hardware, s: State, err: Status): (r: (State, Status))
  {
    var c := s.(dev := s.dev.(selftest := ST_DISABLE));
    var err1 := Or(err, Reply(hw, c));
    var d := Put(hw, c, SelfTest(ST_DISABLE));
    var d1 := d.(dev := d.dev.(samplerate := ODR_POWER_DOWN));
    var err2 := Or(err1, Reply(hw, d1));
    var e := Put(hw, d1, DataRate(ODR_POWER_DOWN));
    (Reported(e, err2, INIT_CHECK_LINES[2]), err2)
  }

  /** init once the chip is found: features off, defaults written, self-test run. */
  function Bringup(hw: Hardware, s: State): (r: (State, Status))
  {
    InitSelfTest(hw, InitDefaults(hw, InitDisable(hw, s)))
  }

  /**
   * init: refuse a NULL record and a driver whose bus is already bound; stub
   * the record; bind SPI (I2C is not implemented, other buses not
   * supported); check WHO_AM_I; configure; self-test; and install the
   * driver only when the accumulated status is SUCCESS.
   */
  function InitSpec(hw: Hardware, s: State, rec: Option<Record>, bus: Bus, handle: Byte): Step<Option<Record>>
  {
    if rec.None? then Step(s, ERROR_NULL, rec)
    else if s.dev.bound then Step(s, ERROR_INVALID_STATE, rec)
    else
      var stubbed := Some(Stubbed(rec.value));
      if bus == I2c then Step(s, ERROR_NOT_IMPLEMENTED, stubbed)
      else if bus != Spi then Step(s, ERROR_NOT_SUPPORTED, stubbed)
      else
        var s1 := s.(dev := s.dev.(bound := true, handle := handle, mode := CFG_SLEEP));
        var id := hw.whoAmI(s1.tick);
        var s2 := Tick(s1);
        if id != DEVICE_ID then Step(s2, ERROR_NOT_FOUND, stubbed)
        else Found(hw, s2, stubbed.value)
  }

  /**
   * init once WHO_AM_I matched, on the stubbed record `r`: bring the chip up
   * and install the driver only when the accumulated status is SUCCESS.
   */
  function Found(hw: Hardware, s: State, r: Record): Step<Option<Record>>
  {
    var tested := Bringup(hw, s);
    var s3 := tested.0;
    if tested.1 == SUCCESS
    then Step(s3.(dev := s3.dev.(tsample := UINT64_INVALID)), SUCCESS, Some(Installed(r)))
    else Step(s3, tested.1, Some(r))
  }

  /**
   * uninit: stub the record, power the chip down, zero the settings record
   * (which also unbinds the bus) and return the power-down status.
   */
  function UninitSpec(hw: Hardware, s: State, rec: Option<Record>): Step<Option<Record>>
  {
    if rec.None? then Step(s, ERROR_NULL, rec)
    else
      var s1 := s.(dev := s.dev.(samplerate := ODR_POWER_DOWN));
      Step(Put(hw, s1, DataRate(ODR_POWER_DOWN)).(dev := ZEROED), Reply(hw, s1), Some(Stubbed(rec.value)))
  }
}
