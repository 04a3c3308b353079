/**
 * The LIS2DH12 driver of ruuvi_interface_lis2dh12.c: the static settings
 * record `dev` is a class whose fields the operations update, with the chip
 * on its bus, the process-wide error record and the timestamp source as
 * objects it uses. Every operation is proved to do what the matching
 * function of Lis2dh12Spec says.
 */
module Lis2dh12 {
  import opened Types
  import opened DriverStatus
  import opened DriverError
  import opened DriverSensor
  import opened Lis2dh12Chip
  import opened Lis2dh12Spec

  class Lis2dh12 {
    var resolution: Bits2
    var scale: Bits2
    var samplerate: Bits4
    var selftest: Bits2
    var mode: Byte
    var handle: Byte
    var tsample: Timestamp
    /** Whether the bus functions are set (the context's write pointer is not NULL). */
    var bound: bool

    const chip: Chip
    const errors: ErrorState
    const clock: TimestampSource

    ghost function Dev(): Settings
      reads this
    {
      Settings(resolution, scale, samplerate, selftest, mode, handle, tsample, bound)
    }

    ghost function View(): State
      reads this, chip, errors
    {
      State(Dev(), chip.regs, chip.tick, errors.View())
    }

    /** The zero-initialised settings record, on a given chip, error record and clock. */
    constructor (chip: Chip, errors: ErrorState, clock: TimestampSource)
      ensures Dev() == ZEROED
      ensures this.chip == chip && this.errors == errors && this.clock == clock
    {
      resolution, scale, samplerate, selftest := 0, 0, 0, 0;
      mode, handle, tsample, bound := 0, 0, 0, false;
      this.chip, this.errors, this.clock := chip, errors, clock;
    }

    /** One register-library setter through the driver's bus context. */
    method WriteReg(w: RegWrite) returns (st: Status)
      modifies chip
      ensures st == Reply(chip.hw, old(View())) && View() == Put(chip.hw, old(View()), w)
    {
      st := chip.Write(w);
    }

    /** lis2dh12_acceleration_raw_get through the driver's bus context. */
    method ReadSample() returns (st: Status, raw: Axes)
      modifies chip
      ensures st == Reply(chip.hw, old(View())) && raw == chip.hw.acceleration(old(chip.tick))
      ensures View() == Tick(old(View()))
    {
      st, raw := chip.ReadAcceleration();
    }

    // ------------------------------------------------------------ mode_get

    /** ruuvi_interface_lis2dh12_mode_get */
    method ModeGet(p: Option<Byte>) returns (err: Status, out: Option<Byte>)
      ensures err == ModeGetSpec(View(), p).err && out == ModeGetSpec(View(), p).out
      ensures p.Some? ==> (err == SUCCESS <==> mode == CFG_SLEEP || mode == CFG_CONTINUOUS)
      ensures err == SUCCESS ==> out == Some(mode)
    {
      if p.None? {
        return ERROR_NULL, p;
      }
      if mode == CFG_SLEEP {
        out := Some(CFG_SLEEP);
      } else if mode == CFG_CONTINUOUS {
        out := Some(CFG_CONTINUOUS);
      } else {
        return ERROR_INTERNAL, Some(ERR_NOT_SUPPORTED);
      }
      err := SUCCESS;
    }

    /** The guard every setter starts with: the reported mode must be SLEEP. */
    method VerifySensorSleeps() returns (asleep: bool)
      ensures asleep == Asleep(View())
    {
      var _, current := ModeGet(Some(0));
      asleep := current == Some(CFG_SLEEP);
    }

    // ---------------------------------------------------------- samplerate

    /** ruuvi_interface_lis2dh12_samplerate_get */
    method SamplerateGet(p: Option<Byte>) returns (err: Status, out: Option<Byte>)
      modifies this, chip
      ensures Step(View(), err, out) == SamplerateGetSpec(chip.hw, old(View()), p)
    {
      if p.None? {
        return ERROR_NULL, p;
      }
      var st, odr := chip.ReadDataRate();
      samplerate := odr;
      var report := RateReport(samplerate);
      err, out := Or(st, report.1), Some(report.0);
    }

    /** ruuvi_interface_lis2dh12_samplerate_set */
    method SamplerateSet(p: Option<Byte>) returns (err: Status, out: Option<Byte>)
      modifies this, chip
      ensures Step(View(), err, out) == SamplerateSetSpec(chip.hw, old(View()), p)
    {
      if p.None? {
        return ERROR_NULL, p;
      }
      var asleep := VerifySensorSleeps();
      if !asleep {
        return ERROR_INVALID_STATE, p;
      }
      var code := RateCode(p.value, samplerate);
      if code.None? {
        return ERROR_NOT_SUPPORTED, Some(ERR_NOT_SUPPORTED);
      }
      samplerate := code.value;
      var st := WriteReg(DataRate(samplerate));
      var e, o := SamplerateGet(p);
      err, out := Or(st, e), o;
    }

    // ---------------------------------------------------------- resolution

    /** ruuvi_interface_lis2dh12_resolution_get */
    method ResolutionGet(p: Option<Byte>) returns (err: Status, out: Option<Byte>)
      modifies this, chip
      ensures Step(View(), err, out) == ResolutionGetSpec(chip.hw, old(View()), p)
    {
      if p.None? {
        return ERROR_NULL, p;
      }
      var st, opMode := chip.ReadOperatingMode();
      resolution := opMode;
      var report := ResolutionReport(resolution);
      err, out := Or(st, report.1), Some(report.0);
    }

    /** ruuvi_interface_lis2dh12_resolution_set */
    method ResolutionSet(p: Option<Byte>) returns (err: Status, out: Option<Byte>)
      modifies this, chip
      ensures Step(View(), err, out) == ResolutionSetSpec(chip.hw, old(View()), p)
    {
      if p.None? {
        return ERROR_NULL, p;
      }
      var asleep := VerifySensorSleeps();
      if !asleep {
        return ERROR_INVALID_STATE, p;
      }
      var code := ResolutionCode(p.value, resolution);
      if code.None? {
        return ERROR_NOT_SUPPORTED, Some(ERR_NOT_SUPPORTED);
      }
      resolution := code.value;
      var st := WriteReg(OperatingMode(resolution));
      var e, o := ResolutionGet(p);
      err, out := Or(st, e), o;
    }

    // --------------------------------------------------------------- scale

    /** ruuvi_interface_lis2dh12_scale_get */
    method ScaleGet(p: Option<Byte>) returns (err: Status, out: Option<Byte>)
      modifies this, chip
      ensures Step(View(), err, out) == ScaleGetSpec(chip.hw, old(View()), p)
    {
      if p.None? {
        return ERROR_NULL, p;
      }
      var st, fs := chip.ReadFullScale();
      scale := fs;
      var report := ScaleReport(scale);
      err, out := Or(st, report.1), Some(report.0);
    }

    /** ruuvi_interface_lis2dh12_scale_set */
    method ScaleSet(p: Option<Byte>) returns (err: Status, out: Option<Byte>)
      modifies this, chip
      ensures Step(View(), err, out) == ScaleSetSpec(chip.hw, old(View()), p)
    {
      if p.None? {
        return ERROR_NULL, p;
      }
      var asleep := VerifySensorSleeps();
      if !asleep {
        return ERROR_INVALID_STATE, p;
      }
      var code := ScaleCode(p.value, scale);
      if code.None? {
        return ERROR_NOT_SUPPORTED, Some(ERR_NOT_SUPPORTED);
      }
      scale := code.value;
      var st := WriteReg(FullScale(scale));
      var e, o := ScaleGet(p);
      err, out := Or(st, e), o;
    }

    // ----------------------------------------------------------------- dsp

    /** ruuvi_interface_lis2dh12_dsp_get */
    method DspGet() returns (err: Status, out: DspSetting)
      modifies chip
      ensures Step(View(), err, out) == DspGetSpec(chip.hw, old(View()))
    {
      var st1, hpcf := chip.ReadHighPassBandwidth();
      var st2, on := chip.ReadHighPassOnOutputs();
      err := Or(st1, st2);
      out := DspSetting(if on then DSP_HIGH_PASS else DSP_LAST, CutoffParameter(hpcf));
    }

    /** ruuvi_interface_lis2dh12_dsp_set */
    method DspSet(p: Option<DspSetting>) returns (err: Status, out: Option<DspSetting>)
      modifies chip
      ensures Step(View(), err, out) == DspSetSpec(chip.hw, old(View()), p)
    {
      if p.None? {
        return ERROR_NULL, p;
      }
      var asleep := VerifySensorSleeps();
      if !asleep {
        return ERROR_INVALID_STATE, p;
      }
      var origErr, orig := DspGet();
      err := origErr;
      var dsp := if p.value.dsp == CFG_NO_CHANGE then orig.dsp else p.value.dsp;
      var parameter := if p.value.parameter == CFG_NO_CHANGE then orig.parameter else p.value.parameter;
      if dsp == DSP_HIGH_PASS {
        if parameter == CFG_DEFAULT {
          parameter := 0;
        }
        var cutoff := HighPassCutoff(parameter);
        if cutoff.None? {
          return ERROR_NOT_SUPPORTED, Some(DspSetting(dsp, REJECTED_PARAMETER));
        }
        var st := WriteReg(HighPassBandwidth(cutoff.value.0));
        err := Or(err, st);
        st := WriteReg(HighPassMode(HPM_NORMAL));
        err := Or(err, st);
        st := WriteReg(HighPassOnOutputs(true));
        err := Or(err, st);
        return err, Some(DspSetting(dsp, cutoff.value.1));
      }
      if dsp == DSP_LAST || dsp == CFG_DEFAULT {
        var st := WriteReg(HighPassOnOutputs(false));
        return Or(err, st), Some(DspSetting(DSP_LAST, parameter));
      }
      return ERROR_NOT_SUPPORTED, Some(DspSetting(dsp, parameter));
    }

    // ------------------------------------------------------------ mode_set

    /** ruuvi_interface_lis2dh12_mode_set; `now` is what the registered clock would return. */
    method ModeSet(p: Option<Byte>, now: Timestamp) returns (err: Status, out: Option<Byte>)
      modifies this, chip
      ensures Step(View(), err, out) == ModeSetSpec(chip.hw, old(View()), p, TimestampValue(clock.millis, now))
    {
      if p.None? {
        return ERROR_NULL, p;
      }
      if p.value == CFG_SINGLE {
        var _, current := ModeGet(Some(0));
        if current == Some(CFG_CONTINUOUS) {
          return ERROR_INVALID_STATE, Some(CFG_CONTINUOUS);
        }
        samplerate := ODR_400HZ;
        var st1 := WriteReg(DataRate(samplerate));
        tsample := clock.Get(now);
        samplerate := ODR_POWER_DOWN;
        var st2 := WriteReg(DataRate(samplerate));
        return Or(st1, st2), Some(CFG_SLEEP);
      }
      if p.value == CFG_SLEEP {
        mode := p.value;
        err := WriteReg(DataRate(ODR_POWER_DOWN));
      } else if p.value == CFG_CONTINUOUS {
        mode := p.value;
        err := WriteReg(DataRate(samplerate));
      } else {
        err := ERROR_INVALID_PARAM;
      }
      out := p;
    }

    // --------------------------------------------------------- conversions

    /** rawToC: the temperature of two raw bytes, by the current resolution. */
    method RawToC(raw: TemperatureRaw) returns (err: Status, celsius: Value)
      ensures (celsius, err) == RawToCSpec(Dev(), raw)
      ensures err == SUCCESS <==> Convertible(Dev())
    {
      var lsb := ToInt16(raw.high * 0x100 + raw.low);
      if resolution == LP_8BIT || resolution == NM_10BIT || resolution == HR_12BIT {
        return SUCCESS, Celsius(resolution, lsb);
      }
      return ERROR_INTERNAL, FloatInvalid;
    }

    /** rawToMg: each axis in mg by the current scale and resolution. */
    method RawToMg(raw: Axes) returns (err: Status, mg: seq<Value>)
      ensures mg == RawToMgSpec(Dev(), raw)
      ensures err == ConversionErr(Dev())
      ensures err == SUCCESS <==> Convertible(Dev())
    {
      err := SUCCESS;
      mg := [];
      for i := 0 to 3
        invariant |mg| == i
        invariant forall k :: 0 <= k < i ==> mg[k] == AxisMg(Dev(), raw[k]).0
        invariant err == if i == 0 then SUCCESS else ConversionErr(Dev())
      {
        if resolution == LP_8BIT || resolution == NM_10BIT || resolution == HR_12BIT {
          mg := mg + [Mg(scale, resolution, raw[i])];
          OrKeepsBits(err, SUCCESS);
        } else {
          mg := mg + [FloatInvalid];
          OrKeepsBits(SUCCESS, ERROR_INTERNAL);
          OrIdempotent(ERROR_INTERNAL);
          err := Or(err, ERROR_INTERNAL);
        }
      }
    }

    // ------------------------------------------------------------ data_get

    /** ruuvi_interface_lis2dh12_data_get; `now` is what the registered clock would return. */
    method DataGet(data: Option<SensorData>, now: Timestamp) returns (err: Status, out: Option<SensorData>)
      modifies chip, errors
      ensures Step(View(), err, out) == DataGetSpec(chip.hw, old(View()), data, TimestampValue(clock.millis, now))
    {
      if data.None? {
        return ERROR_NULL, data;
      }
      var sampled, mg, celsius := Sample();
      var eM, current := ModeGet(Some(0));
      err := Or(sampled, eM);
      var record := data.value;
      if current == Some(CFG_SLEEP) {
        record := record.(timestampMs := tsample);
      } else if current == Some(CFG_CONTINUOUS) {
        var t := clock.Get(now);
        record := record.(timestampMs := t);
      } else {
        errors.ErrorCheck(ERROR_INTERNAL, !ERROR_FATAL, SOURCE_FILE, DATA_GET_MODE_LINE);
      }
      if record.timestampMs != UINT64_INVALID && err == SUCCESS {
        record := record.(values := Reading(mg, celsius));
      }
      out := Some(record);
    }

    /** The two samples of data_get: acceleration and temperature read and converted. */
    method Sample() returns (err: Status, mg: seq<Value>, celsius: Value)
      modifies chip
      ensures chip.tick == old(chip.tick) + 2 && chip.regs == old(chip.regs)
      ensures (err, mg, celsius) == SampleSpec(chip.hw, old(View()))
    {
      var st1, raw := chip.ReadAcceleration();
      var st2, rawT := chip.ReadTemperature();
      var e, axes := RawToMg(raw);
      var eT, c := RawToC(rawT);
      err, mg, celsius := Or(Or(Or(st1, st2), e), eT), axes, c;
    }

    // ---------------------------------------------------------------- FIFO

    /** ruuvi_interface_lis2dh12_fifo_use */
    method FifoUse(enable: bool) returns (err: Status)
      modifies chip
      ensures Step(View(), err, ()) == FifoUseSpec(chip.hw, old(View()), enable)
    {
      var fm := if enable then FM_DYNAMIC_STREAM else FM_BYPASS;
      var _ := WriteReg(RegWrite.FifoEnable(enable));
      err := WriteReg(FifoMode(fm));
    }

    /** ruuvi_interface_lis2dh12_fifo_interrupt_use */
    method FifoInterruptUse(enable: bool) returns (err: Status)
      modifies chip
      ensures Step(View(), err, ()) == FifoInterruptUseSpec(chip.hw, old(View()), enable)
    {
      err := SUCCESS;
      var ctrl: Byte := 0;
      if enable {
        var st := WriteReg(FifoWatermark(31));
        OrKeepsBits(err, st);
        err := Or(err, st);
        ctrl := CTRL3_I1_WTM;
      }
      var st := WriteReg(Int1Pin(ctrl));
      OrKeepsBits(err, st);
      err := Or(err, st);
    }

    /**
     * ruuvi_interface_lis2dh12_fifo_read: `capacity` is the in-out element
     * count and `buffer` the caller's records; `now` is what the registered
     * clock would return.
     */
    method FifoRead(capacity: Option<nat>, buffer: array?<SensorData>, now: Timestamp)
      returns (err: Status, num: Option<nat>)
      requires buffer != null && capacity.Some? ==> capacity.value <= buffer.Length
      modifies chip, buffer
      ensures var spec := FifoReadSpec(chip.hw, old(View()), capacity,
                                       if buffer == null then None else Some(old(buffer[..])),
                                       TimestampValue(clock.millis, now));
              chip.tick == spec.state.tick && chip.regs == spec.state.regs && err == spec.err && num == spec.out.0 &&
              (buffer != null ==> Some(buffer[..]) == spec.out.1)
    {
      if capacity.None? || buffer == null {
        return ERROR_NULL, capacity;
      }
      var st, level := chip.ReadFifoLevel();
      if level == 0 {
        return SUCCESS, Some(0);
      }
      var n := FifoCount(level, capacity.value);
      err := StampAndRead(buffer, n, st, now);
      num := Some(n);
    }

    /** fifo_read after the level: stamp the first record when any sample is read, then read `n` samples. */
    method StampAndRead(buffer: array<SensorData>, n: nat, first: Status, now: Timestamp) returns (err: Status)
      requires n <= buffer.Length
      modifies chip, buffer
      ensures chip.tick == old(chip.tick) + n && chip.regs == old(chip.regs)
      ensures err == FifoErr(chip.hw, Dev(), first, old(chip.tick), n)
      ensures buffer[..] == FifoFilled(chip.hw, Dev(), Stamped(old(buffer[..]), n, TimestampValue(clock.millis, now)), old(chip.tick), n)
    {
      if n > 0 {
        var t := clock.Get(now);
        buffer[0] := buffer[0].(timestampMs := t);
      }
      err := ReadSamples(buffer, n, first);
    }

    /**
     * One pass of fifo_read's loop: a sample, converted and populated into
     * record `i`, its statuses accumulated into `err`.
     */
    method ReadInto(buffer: array<SensorData>, i: nat, err: Status, ghost first: Status, ghost t0: nat, ghost initial: seq<SensorData>)
      returns (err': Status)
      requires i < buffer.Length == |initial|
      requires chip.tick == t0 + i
      requires err == FifoErr(chip.hw, Dev(), first, t0, i)
      requires buffer[..] == FifoFilled(chip.hw, Dev(), initial, t0, i)
      modifies chip, buffer
      ensures chip.tick == old(chip.tick) + 1 && chip.regs == old(chip.regs)
      ensures err' == FifoErr(chip.hw, Dev(), first, t0, i + 1)
      ensures buffer[..] == FifoFilled(chip.hw, Dev(), initial, t0, i + 1)
    {
      ghost var before := buffer[..];
      var st, raw := chip.ReadAcceleration();
      var e, mg := RawToMg(raw);
      assert st == chip.hw.reply(t0 + i) && e == ConversionErr(Dev());
      err' := Or(Or(err, st), e);
      buffer[i] := buffer[i].(values := InG(mg));
      assert buffer[i] == FifoRecord(before[i], Dev(), chip.hw.acceleration(t0 + i));
      assert buffer[..] == before[i := buffer[i]];
    }

    /** fifo_read's loop: `n` samples, one transaction each, converted into the first `n` records. */
    method ReadSamples(buffer: array<SensorData>, n: nat, first: Status) returns (err: Status)
      requires n <= buffer.Length
      modifies chip, buffer
      ensures chip.tick == old(chip.tick) + n && chip.regs == old(chip.regs)
      ensures err == FifoErr(chip.hw, Dev(), first, old(chip.tick), n)
      ensures buffer[..] == FifoFilled(chip.hw, Dev(), old(buffer[..]), old(chip.tick), n)
    {
      ghost var s0 := View();
      ghost var initial := buffer[..];
      err := first;
      var i := 0;
      while i < n
        invariant 0 <= i <= n
        invariant chip.tick == s0.tick + i && chip.regs == s0.regs
        invariant err == FifoErr(chip.hw, Dev(), first, s0.tick, i)
        invariant buffer[..] == FifoFilled(chip.hw, Dev(), initial, s0.tick, i)
      {
        err := ReadInto(buffer, i, err, first, s0.tick, initial);
        i := i + 1;
      }
    }

    // ------------------------------------------------------------ activity

    /** ruuvi_interface_lis2dh12_activity_interrupt_use */
    method ActivityInterruptUse(enable: bool, limit: Option<real>) returns (err: Status, out: Option<real>)
      modifies this, chip
      ensures Step(View(), err, out) == ActivityInterruptUseSpec(chip.hw, old(View()), enable, limit)
    {
      if limit.None? {
        return ERROR_NULL, limit;
      }
      if limit.value < 0.0 {
        return ERROR_INVALID_PARAM, limit;
      }
      ghost var spec := ActivityInterruptUseSpec(chip.hw, View(), enable, limit);
      ghost var sc := ScaleGetSpec(chip.hw, View(), Some(0));
      var e, reported := ScaleGet(Some(0));
      assert reported == sc.out && e == sc.err && View() == sc.state;
      var divisor := Divisor(reported.value);
      var threshold := Threshold(limit.value, divisor);
      assert threshold == Threshold(limit.value, Divisor(sc.out.value));
      if threshold > 0x7F {
        assert spec == Step(sc.state, ERROR_INVALID_PARAM, limit);
        return ERROR_INVALID_PARAM, limit;
      }
      out := Some(threshold as real * divisor);
      ghost var writes := ActivityWrites(chip.hw, sc.state, e, threshold, enable);
      assert spec == Step(writes.state, writes.err, out);
      err := WriteActivity(e, threshold, enable);
    }

    /** The four register writes of activity_interrupt_use, statuses folded into `err`. */
    method WriteActivity(first: Status, threshold: Bits7, enable: bool) returns (err: Status)
      modifies chip
      ensures Step(View(), err, ()) == ActivityWrites(chip.hw, old(View()), first, threshold, enable)
    {
      var st := WriteReg(HighPassOnInterrupt(HP_ON_INT1_GEN));
      err := Or(first, st);
      st := WriteReg(Int1Threshold(threshold));
      err := Or(err, st);
      st := WriteReg(Int1Config(ActivityConfig(enable)));
      err := Or(err, st);
      st := WriteReg(Int2Pin(CTRL6_I2_IA1));
      err := Or(err, st);
    }

    // ----------------------------------------------------------- self-test

    /** lis2dh12_verify_selftest_difference */
    method VerifySelftestDifference(newer: Axes, older: Axes) returns (err: Status)
      ensures err == SelftestVerdict(Dev(), newer, older)
    {
      if scale != FS_2G || resolution != NM_10BIT {
        return ERROR_INVALID_STATE;
      }
      for i := 0 to 3
        invariant forall k :: 0 <= k < i ==> InBand(AxisChange(newer[k], older[k]))
      {
        var diff: int := ToInt16(newer[i] as int - older[i] as int);
        diff := diff / 64;
        if diff < 0 {
          diff := 0 - diff;
        }
        if SELFTEST_DIFF_MIN > diff {
          return ERROR_SELFTEST;
        }
        if SELFTEST_DIFF_MAX < diff {
          return ERROR_SELFTEST;
        }
      }
      return SUCCESS;
    }

    // ------------------------------------------------------- init / uninit

    /** init's first step: FIFO, FIFO interrupt and activity interrupt off, statuses ignored. */
    method Disable()
      modifies this, chip
      ensures View() == InitDisable(chip.hw, old(View()))
    {
      var _ := FifoUse(false);
      var _ := FifoInterruptUse(false);
      var _, _ := ActivityInterruptUse(false, Some(0.0));
    }

    /** init's configuration for the self-test, statuses ignored. */
    method WriteDefaults()
      modifies this, chip
      ensures View() == InitDefaults(chip.hw, old(View()))
    {
      var _ := WriteReg(Ctrl1(0x07));
      var _ := WriteReg(BlockDataUpdate(true));
      var _ := WriteReg(HighPassOnOutputs(false));
      samplerate := ODR_400HZ;
      var _ := WriteReg(DataRate(samplerate));
      scale := FS_2G;
      var _ := WriteReg(FullScale(scale));
      var _ := WriteReg(TemperatureMeasurement(true));
      resolution := NM_10BIT;
      var _ := WriteReg(OperatingMode(resolution));
    }

    /** One direction of init's self-test, its statuses accumulated into `err`. */
    method SelfTestDirection(err: Status, direction: Bits2) returns (err': Status)
      modifies this, chip
      ensures (View(), err') == SelfTestHalf(chip.hw, old(View()), err, direction)
    {
      selftest := ST_DISABLE;
      var st := WriteReg(SelfTest(selftest));
      err' := Or(err, st);
      var _, older := ReadSample();
      selftest := direction;
      var _ := WriteReg(SelfTest(selftest));
      var _, newer := ReadSample();
      var verdict := VerifySelftestDifference(newer, older);
      err' := Or(err', verdict);
    }

    /** One direction of init's self-test, its accumulated status reported to the error record at `line`. */
    method SelfTestChecked(err: Status, direction: Bits2, line: int) returns (err': Status)
      modifies this, chip, errors
      ensures (View(), err') == CheckedHalf(chip.hw, old(View()), err, direction, line)
    {
      err' := SelfTestDirection(err, direction);
      errors.ErrorCheck(err', SUCCESS, SOURCE_FILE, line);
    }

    /** init's self-test: both directions, each reported, then self-test off and power down. */
    method RunSelfTest() returns (err: Status)
      modifies this, chip, errors
      ensures (View(), err) == InitSelfTest(chip.hw, old(View()))
    {
      err := SelfTestChecked(SUCCESS, ST_POSITIVE, INIT_CHECK_LINES[0]);
      err := SelfTestChecked(err, ST_NEGATIVE, INIT_CHECK_LINES[1]);
      err := EndSelfTest(err);
    }

    /** The end of init's self-test: self-test off, power down, and the status reported. */
    method EndSelfTest(err: Status) returns (err': Status)
      modifies this, chip, errors
      ensures (View(), err') == SelfTestEnd(chip.hw, old(View()), err)
    {
      selftest := ST_DISABLE;
      var st := WriteReg(SelfTest(selftest));
      err' := Or(err, st);
      samplerate := ODR_POWER_DOWN;
      st := WriteReg(DataRate(samplerate));
      err' := Or(err', st);
      errors.ErrorCheck(err', SUCCESS, SOURCE_FILE, INIT_CHECK_LINES[2]);
    }

    /** init once the chip is found: features off, defaults written, self-test run. */
    method PowerOnTest() returns (err: Status)
      modifies this, chip, errors
      ensures (View(), err) == Bringup(chip.hw, old(View()))
    {
      Disable();
      WriteDefaults();
      err := RunSelfTest();
    }

    /** ruuvi_interface_lis2dh12_init; `sensor` is the caller's record, null for NULL. */
    method Init(sensor: Sensor?, bus: Bus, handle: Byte) returns (err: Status)
      modifies this, chip, errors, sensor
      ensures var spec := InitSpec(chip.hw, old(View()), if sensor == null then None else Some(old(sensor.View())), bus, handle);
              View() == spec.state && err == spec.err && (sensor != null ==> Some(sensor.View()) == spec.out)
    {
      if sensor == null {
        return ERROR_NULL;
      }
      if bound {
        return ERROR_INVALID_STATE;
      }
      ghost var s0 := View();
      ghost var r0 := sensor.View();
      sensor.Initialize();
      if bus == I2c {
        return ERROR_NOT_IMPLEMENTED;
      }
      if bus != Spi {
        return ERROR_NOT_SUPPORTED;
      }
      bound, this.handle, mode := true, handle, CFG_SLEEP;
      var _, id := chip.ReadWhoAmI();
      if id != DEVICE_ID {
        return ERROR_NOT_FOUND;
      }
      ghost var s2 := View();
      assert s2 == Tick(s0.(dev := s0.dev.(bound := true, handle := handle, mode := CFG_SLEEP)));
      assert InitSpec(chip.hw, s0, Some(r0), bus, handle) == Found(chip.hw, s2, Stubbed(r0));
      err := Start(sensor);
    }

    /** init once WHO_AM_I matched: bring the chip up and install the driver into `sensor` on success. */
    method Start(sensor: Sensor) returns (err: Status)
      modifies this, chip, errors, sensor
      ensures Step(View(), err, Some(sensor.View())) == Found(chip.hw, old(View()), old(sensor.View()))
    {
      err := PowerOnTest();
      if err == SUCCESS {
        sensor.Install(ACC_NAME, Uniform(Driver), {AccelerationX, AccelerationY, AccelerationZ, Temperature});
        tsample := UINT64_INVALID;
      }
    }

    /** ruuvi_interface_lis2dh12_uninit; the bus and handle are not used. */
    method Uninit(sensor: Sensor?, bus: Bus, handle: Byte) returns (err: Status)
      modifies this, chip, sensor
      ensures var spec := UninitSpec(chip.hw, old(View()), if sensor == null then None else Some(old(sensor.View())));
              View() == spec.state && err == spec.err && (sensor != null ==> Some(sensor.View()) == spec.out)
    {
      if sensor == null {
        return ERROR_NULL;
      }
      sensor.Uninitialize();
      samplerate := ODR_POWER_DOWN;
      err := WriteReg(DataRate(samplerate));
      resolution, scale, samplerate, selftest := 0, 0, 0, 0;
      mode, this.handle, tsample, bound := 0, 0, 0, false;
    }
  }
}
