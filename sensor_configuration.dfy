/**
 * ruuvi_driver_sensor_configuration_set and _get: the generic entry points
 * that apply or read a whole configuration through a sensor record's slots,
 * one setup call after another, OR-accumulating their statuses.
 *
 * A slot holds nothing, the not-initialised stub, or the LIS2DH12 driver's
 * function for that slot, which is the one concrete driver of this model.
 */
module SensorConfiguration {
  import opened Types
  import opened DriverStatus
  import opened DriverSensor
  import opened Lis2dh12Chip
  import opened Lis2dh12Spec
  import opened Lis2dh12
  import opened Lis2dh12Properties

  /** The value of a ruuvi_driver_sensor_configuration_t. */
  datatype Config = Config(samplerate: Byte, resolution: Byte, scale: Byte, dspFunction: Byte, dspParameter: Byte, mode: Byte)

  /** What a slot of a record's table holds; a slot missing from the table is NULL. */
  function HandlerIn(handlers: map<Slot, Handler>, slot: Slot): (h: Handler)
    ensures slot !in handlers ==> h == Unset
  {
    if slot in handlers then handlers[slot] else Unset
  }

  /** The single-byte setup slots configuration_set and configuration_get call. */
  const SETUP_SLOTS: set<Slot> :=
    {SamplerateSet, SamplerateGet, ResolutionSet, ResolutionGet, ScaleSet, ScaleGet, ModeSet, ModeGet}

  /**
   * Every slot configuration_set calls holds a function: the C code checks
   * only samplerate_set and calls the others through their pointers.
   */
  predicate SettersCallable(handlers: map<Slot, Handler>)
  {
    forall slot :: slot in {ModeSet, SamplerateSet, ResolutionSet, ScaleSet, DspSet} ==> HandlerIn(handlers, slot) != Unset
  }

  /** Every slot configuration_get calls holds a function. */
  predicate GettersCallable(handlers: map<Slot, Handler>)
  {
    forall slot :: slot in {SamplerateGet, ResolutionGet, ScaleGet, DspGet, ModeGet} ==> HandlerIn(handlers, slot) != Unset
  }

  /** The byte a setup call leaves behind its pointer: the written-back value, if any. */
  function WrittenBack(out: Option<Byte>, value: Byte): Byte
  {
    if out.Some? then out.value else value
  }

  /**
   * One setup call through slot `which` holding `h`, on the byte `value`:
   * the stub answers NOT_INITIALIZED and touches nothing; the driver does
   * what its function does.
   */
  function SetupSpec(hw: Hardware, s: State, h: Handler, which: Slot, value: Byte, stamp: Timestamp): (r: (State, Status, Byte))
    requires which in SETUP_SLOTS
    ensures h == NotInitialized ==> r == (s, ERROR_NOT_INITIALIZED, value)
  {
    if h != Driver then (s, STUB_RESULT, value)
    else
      var step :=
        if which == SamplerateSet then SamplerateSetSpec(hw, s, Some(value))
        else if which == SamplerateGet then SamplerateGetSpec(hw, s, Some(value))
        else if which == ResolutionSet then ResolutionSetSpec(hw, s, Some(value))
        else if which == ResolutionGet then ResolutionGetSpec(hw, s, Some(value))
        else if which == ScaleSet then ScaleSetSpec(hw, s, Some(value))
        else if which == ScaleGet then ScaleGetSpec(hw, s, Some(value))
        else if which == ModeSet then ModeSetSpec(hw, s, Some(value), stamp)
        else ModeGetSpec(s, Some(value));
      (step.state, step.err, WrittenBack(step.out, value))
  }

  /** The DSP call through slot DspSet (`write`) or DspGet, holding `h`. */
  function DspSetupSpec(hw: Hardware, s: State, h: Handler, write: bool, value: DspSetting): (r: (State, Status, DspSetting))
    ensures h == NotInitialized ==> r == (s, ERROR_NOT_INITIALIZED, value)
  {
    if h != Driver then (s, STUB_RESULT, value)
    else if write then
      var step := DspSetSpec(hw, s, Some(value));
      (step.state, step.err, if step.out.Some? then step.out.value else value)
    else
      var step := DspGetSpec(hw, s);
      (step.state, step.err, step.out)
  }

  /**
   * configuration_set: refuse NULL and a record without samplerate_set;
   * otherwise put the sensor to sleep, then set the rate, resolution,
   * scale, DSP and mode, each writing its resolved value back into the
   * configuration, and return every status OR-ed together.
   */
  function ConfigurationSetSpec(hw: Hardware, s: State, handlers: Option<map<Slot, Handler>>, config: Option<Config>, stamp: Timestamp)
    : Step<Option<Config>>
    requires handlers.Some? && config.Some? && HandlerIn(handlers.value, SamplerateSet) != Unset ==> SettersCallable(handlers.value)
  {
    if handlers.None? || config.None? then Step(s, ERROR_NULL, config)
    else if HandlerIn(handlers.value, SamplerateSet) == Unset then Step(s, ERROR_INVALID_STATE, config)
    else
      var h := handlers.value;
      var c := config.value;
      var sleep := SetupSpec(hw, s, HandlerIn(h, ModeSet), ModeSet, CFG_SLEEP, stamp);
      var applied := ApplySpec(hw, sleep.0, h, c, stamp);
      Step(applied.state, Or(sleep.1, applied.err), applied.out)
  }

  /** configuration_set after the sleep call: the five setters in order. */
  function ApplySpec(hw: Hardware, s: State, h: map<Slot, Handler>, c: Config, stamp: Timestamp): Step<Option<Config>>
  {
    var first := ApplySetupSpec(hw, s, h, c, stamp);
    var last := ApplyDspModeSpec(hw, first.state, h, first.out, first.err, stamp);
    Step(last.state, last.err, Some(last.out))
  }

  /** The first three setters of configuration_set: rate, resolution, scale. */
  function ApplySetupSpec(hw: Hardware, s: State, h: map<Slot, Handler>, c: Config, stamp: Timestamp): Step<Config>
  {
    var rate := SetupSpec(hw, s, HandlerIn(h, SamplerateSet), SamplerateSet, c.samplerate, stamp);
    var res := SetupSpec(hw, rate.0, HandlerIn(h, ResolutionSet), ResolutionSet, c.resolution, stamp);
    var scale := SetupSpec(hw, res.0, HandlerIn(h, ScaleSet), ScaleSet, c.scale, stamp);
    Step(scale.0, Or(Or(rate.1, res.1), scale.1), c.(samplerate := rate.2, resolution := res.2, scale := scale.2))
  }

  /** The last two setters of configuration_set, DSP and mode, with `err` accumulated so far. */
  function ApplyDspModeSpec(hw: Hardware, s: State, h: map<Slot, Handler>, c: Config, err: Status, stamp: Timestamp): Step<Config>
  {
    var dsp := DspSetupSpec(hw, s, HandlerIn(h, DspSet), true, DspSetting(c.dspFunction, c.dspParameter));
    var mode := SetupSpec(hw, dsp.0, HandlerIn(h, ModeSet), ModeSet, c.mode, stamp);
    Step(mode.0, Or(Or(err, dsp.1), mode.1), c.(dspFunction := dsp.2.dsp, dspParameter := dsp.2.parameter, mode := mode.2))
  }

  /**
   * configuration_get: the same guards (the C code checks samplerate_set
   * here too); then read the rate, resolution, scale, DSP and mode into the
   * configuration and return every status OR-ed together.
   */
  function ConfigurationGetSpec(hw: Hardware, s: State, handlers: Option<map<Slot, Handler>>, config: Option<Config>)
    : Step<Option<Config>>
    requires handlers.Some? && config.Some? && HandlerIn(handlers.value, SamplerateSet) != Unset ==> GettersCallable(handlers.value)
  {
    if handlers.None? || config.None? then Step(s, ERROR_NULL, config)
    else if HandlerIn(handlers.value, SamplerateSet) == Unset then Step(s, ERROR_INVALID_STATE, config)
    else ReadSpec(hw, s, handlers.value, config.value)
  }

  /** configuration_get past its guards: the five getters in order. */
  function ReadSpec(hw: Hardware, s: State, h: map<Slot, Handler>, c: Config): Step<Option<Config>>
  {
    var first := ReadSetupSpec(hw, s, h, c);
    var last := ReadDspModeSpec(hw, first.state, h, first.out, first.err);
    Step(last.state, last.err, Some(last.out))
  }

  /** The first three getters of configuration_get: rate, resolution, scale. */
  function ReadSetupSpec(hw: Hardware, s: State, h: map<Slot, Handler>, c: Config): Step<Config>
  {
    var rate := SetupSpec(hw, s, HandlerIn(h, SamplerateGet), SamplerateGet, c.samplerate, 0);
    var res := SetupSpec(hw, rate.0, HandlerIn(h, ResolutionGet), ResolutionGet, c.resolution, 0);
    var scale := SetupSpec(hw, res.0, HandlerIn(h, ScaleGet), ScaleGet, c.scale, 0);
    Step(scale.0, Or(Or(rate.1, res.1), scale.1), c.(samplerate := rate.2, resolution := res.2, scale := scale.2))
  }

  /** The last two getters of configuration_get, DSP and mode, with `err` accumulated so far. */
  function ReadDspModeSpec(hw: Hardware, s: State, h: map<Slot, Handler>, c: Config, err: Status): Step<Config>
  {
    var dsp := DspSetupSpec(hw, s, HandlerIn(h, DspGet), false, DspSetting(c.dspFunction, c.dspParameter));
    var mode := SetupSpec(hw, dsp.0, HandlerIn(h, ModeGet), ModeGet, c.mode, 0);
    Step(mode.0, Or(Or(err, dsp.1), mode.1), c.(dspFunction := dsp.2.dsp, dspParameter := dsp.2.parameter, mode := mode.2))
  }

  /** Both entry points refuse a NULL record or configuration, and a record without samplerate_set, touching nothing. */
  lemma ConfigurationGuards(hw: Hardware, s: State, handlers: Option<map<Slot, Handler>>, config: Option<Config>, stamp: Timestamp)
    requires handlers.None? || config.None? || HandlerIn(handlers.value, SamplerateSet) == Unset
    ensures ConfigurationSetSpec(hw, s, handlers, config, stamp).state == s
    ensures ConfigurationGetSpec(hw, s, handlers, config).state == s
    ensures ConfigurationSetSpec(hw, s, handlers, config, stamp).out == config
    ensures ConfigurationGetSpec(hw, s, handlers, config).out == config
    ensures ConfigurationSetSpec(hw, s, handlers, config, stamp).err ==
              (if handlers.None? || config.None? then ERROR_NULL else ERROR_INVALID_STATE)
    ensures ConfigurationGetSpec(hw, s, handlers, config).err ==
              (if handlers.None? || config.None? then ERROR_NULL else ERROR_INVALID_STATE)
  {
  }

  /**
   * On a record that holds the not-initialised stubs, both entry points
   * return NOT_INITIALIZED and change neither the driver nor the configuration.
   */
  lemma StubbedRecordConfiguresNothing(hw: Hardware, s: State, c: Config, stamp: Timestamp)
    ensures ConfigurationSetSpec(hw, s, Some(Stubs()), Some(c), stamp) == Step(s, ERROR_NOT_INITIALIZED, Some(c))
    ensures ConfigurationGetSpec(hw, s, Some(Stubs()), Some(c)) == Step(s, ERROR_NOT_INITIALIZED, Some(c))
  {
    OrIdempotent(ERROR_NOT_INITIALIZED);
  }

  /** What configuration_get reports for a register file and a stored mode. */
  function Shown(regs: Regs, mode: Byte): Config
  {
    Config(RateReport(regs.odr).0, ResolutionBits(OperatingModeOf(regs)), ScaleG(regs.fullScale),
           if regs.hpOnOutputs then DSP_HIGH_PASS else DSP_LAST, CutoffParameter(regs.hpcf), mode)
  }

  /**
   * With the LIS2DH12 installed and a healthy bus, configuration_get reports
   * what the registers hold, whatever the configuration held before, and
   * succeeds exactly when the data rate and the stored mode are ones the
   * getters know.
   */
  lemma ConfigurationGetReportsRegisters(hw: Hardware, s: State, c: Config)
    requires Healthy(hw, s.tick, 5)
    ensures var r := ConfigurationGetSpec(hw, s, Some(Uniform(Driver)), Some(c));
            r.state.regs == s.regs && r.state.tick == s.tick + 5 &&
            (r.err == SUCCESS <==> ODR_1HZ <= s.regs.odr <= ODR_5KHZ376_LP && s.dev.mode in {CFG_SLEEP, CFG_CONTINUOUS}) &&
            (r.err == SUCCESS ==> r.out == Some(Shown(s.regs, s.dev.mode)))
  {
    var h := Uniform(Driver);
    assert HandlerIn(h, SamplerateSet) == Driver;
    assert ConfigurationGetSpec(hw, s, Some(h), Some(c)) == ReadSpec(hw, s, h, c);
    ReadInstalled(hw, s, c);
  }

  /** The five getters with the LIS2DH12 installed on a healthy bus, as configuration_get runs them. */
  lemma ReadInstalled(hw: Hardware, s: State, c: Config)
    requires Healthy(hw, s.tick, 5)
    ensures var r := ReadSpec(hw, s, Uniform(Driver), c);
            r.state.regs == s.regs && r.state.tick == s.tick + 5 &&
            (r.err == SUCCESS <==> ODR_1HZ <= s.regs.odr <= ODR_5KHZ376_LP && s.dev.mode in {CFG_SLEEP, CFG_CONTINUOUS}) &&
            (r.err == SUCCESS ==> r.out == Some(Shown(s.regs, s.dev.mode)))
  {
    var h := Uniform(Driver);
    ReadSetupInstalled(hw, s, c);
    var first := ReadSetupSpec(hw, s, h, c);
    ReadDspModeInstalled(hw, first.state, first.out, first.err);
    OrKeepsBits(RateReport(s.regs.odr).1, ModeReport(s.dev.mode).1);
  }

  /**
   * The first three getters with the LIS2DH12 installed on a healthy bus
   * report the rate, resolution and scale the registers hold; only an
   * unknown data rate is an error.
   */
  lemma ReadSetupInstalled(hw: Hardware, s: State, c: Config)
    requires Healthy(hw, s.tick, 3)
    ensures var a := ReadSetupSpec(hw, s, Uniform(Driver), c);
            a.state.regs == s.regs && a.state.tick == s.tick + 3 && a.state.dev.mode == s.dev.mode &&
            a.err == RateReport(s.regs.odr).1 &&
            a.out == c.(samplerate := RateReport(s.regs.odr).0, resolution := ResolutionBits(OperatingModeOf(s.regs)),
                        scale := ScaleG(s.regs.fullScale))
  {
    var g1 := SamplerateGetSpec(hw, s, Some(c.samplerate));
    var g2 := ResolutionGetSpec(hw, g1.state, Some(c.resolution));
    var g3 := ScaleGetSpec(hw, g2.state, Some(c.scale));
    assert g1.err == RateReport(s.regs.odr).1 && g2.err == SUCCESS && g3.err == SUCCESS;
    OrKeepsBits(RateReport(s.regs.odr).1, SUCCESS);
  }

  /**
   * The last two getters with the LIS2DH12 installed on a healthy bus report
   * the output filter and the stored mode; only an unknown mode adds an error.
   */
  lemma ReadDspModeInstalled(hw: Hardware, s: State, c: Config, err: Status)
    requires Healthy(hw, s.tick, 2)
    ensures var a := ReadDspModeSpec(hw, s, Uniform(Driver), c, err);
            a.state.regs == s.regs && a.state.tick == s.tick + 2 &&
            a.err == Or(err, ModeReport(s.dev.mode).1) &&
            a.out == c.(dspFunction := if s.regs.hpOnOutputs then DSP_HIGH_PASS else DSP_LAST,
                        dspParameter := CutoffParameter(s.regs.hpcf), mode := ModeReport(s.dev.mode).0)
  {
    var g4 := DspGetSpec(hw, s);
    assert g4.err == SUCCESS;
    OrKeepsBits(err, SUCCESS);
  }

  /**
   * The first three setters of configuration_set with the LIS2DH12
   * installed, asleep, on a healthy bus: each request is applied and its
   * rounded value written back, and the registers then show those values.
   */
  lemma ApplySetupInstalled(hw: Hardware, s: State, c: Config, stamp: Timestamp)
    requires Asleep(s) && Healthy(hw, s.tick, 6)
    requires 1 <= c.samplerate <= 200 && 1 <= c.resolution <= 12 && 1 <= c.scale <= 16
    ensures var a := ApplySetupSpec(hw, s, Uniform(Driver), c, stamp);
            var regs := a.state.regs;
            a.err == SUCCESS && a.state.tick == s.tick + 6 && a.state.dev.mode == s.dev.mode &&
            a.state.dev.samplerate == regs.odr && ODR_1HZ <= regs.odr <= ODR_200HZ &&
            a.out == c.(samplerate := RateHz(regs.odr), resolution := ResolutionBits(OperatingModeOf(regs)),
                        scale := ScaleG(regs.fullScale)) &&
            a.out.samplerate >= c.samplerate && a.out.resolution >= c.resolution && a.out.scale >= c.scale
  {
    var rate := SamplerateSetSpec(hw, s, Some(c.samplerate));
    SamplerateRoundTrip(hw, s, c.samplerate);
    var res := ResolutionSetSpec(hw, rate.state, Some(c.resolution));
    ResolutionRoundTrip(hw, rate.state, c.resolution);
    var scale := ScaleSetSpec(hw, res.state, Some(c.scale));
    ScaleRoundTrip(hw, res.state, c.scale);
    OrKeepsBits(SUCCESS, SUCCESS);
  }

  /**
   * The last two setters of configuration_set with the LIS2DH12 installed,
   * asleep, on a healthy bus, for the high-pass filter and CONTINUOUS: the
   * filter is on with the requested cut-off, the chip runs at the stored
   * rate, and nothing the earlier setters wrote is disturbed.
   */
  lemma ApplyDspModeInstalled(hw: Hardware, s: State, c: Config, stamp: Timestamp)
    requires Asleep(s) && Healthy(hw, s.tick, 6) && s.dev.samplerate == s.regs.odr
    requires c.dspFunction == DSP_HIGH_PASS && c.dspParameter <= 3 && c.mode == CFG_CONTINUOUS
    ensures var a := ApplyDspModeSpec(hw, s, Uniform(Driver), c, SUCCESS, stamp);
            a.err == SUCCESS && a.out == c && a.state.tick == s.tick + 6 && a.state.dev.mode == CFG_CONTINUOUS &&
            a.state.regs == s.regs.(hpcf := a.state.regs.hpcf, hpm := HPM_NORMAL, hpOnOutputs := true) &&
            CutoffParameter(a.state.regs.hpcf) == c.dspParameter
  {
    var dsp := DspSetSpec(hw, s, Some(DspSetting(DSP_HIGH_PASS, c.dspParameter)));
    HighPassRoundTrip(hw, s, c.dspParameter);
    assert hw.reply(s.tick + 5) == SUCCESS;
    OrKeepsBits(SUCCESS, SUCCESS);
  }

  /**
   * With the LIS2DH12 installed and a healthy bus, configuration_set applies
   * supported requests whatever mode the sensor was in (it puts the sensor
   * to sleep first), writes back values at least the requests, and a
   * configuration_get afterwards reads back exactly what was written back.
   */
  lemma ConfigurationRoundTrip(hw: Hardware, s: State, c: Config, c': Config, stamp: Timestamp)
    requires 1 <= c.samplerate <= 200 && 1 <= c.resolution <= 12 && 1 <= c.scale <= 16
    requires c.dspFunction == DSP_HIGH_PASS && c.dspParameter <= 3 && c.mode == CFG_CONTINUOUS
    requires Healthy(hw, s.tick, 18)
    ensures var applied := ConfigurationSetSpec(hw, s, Some(Uniform(Driver)), Some(c), stamp);
            var read := ConfigurationGetSpec(hw, applied.state, Some(Uniform(Driver)), Some(c'));
            applied.err == SUCCESS && applied.out.Some? &&
            applied.out.value.samplerate >= c.samplerate && applied.out.value.resolution >= c.resolution &&
            applied.out.value.scale >= c.scale && applied.out.value.dspFunction == DSP_HIGH_PASS &&
            applied.out.value.dspParameter == c.dspParameter && applied.out.value.mode == CFG_CONTINUOUS &&
            read.err == SUCCESS && read.out == applied.out
  {
    ConfigurationSetInstalled(hw, s, c, stamp);
    var applied := ConfigurationSetSpec(hw, s, Some(Uniform(Driver)), Some(c), stamp);
    ConfigurationGetReportsRegisters(hw, applied.state, c');
  }

  /**
   * configuration_set with the LIS2DH12 installed on a healthy bus, for
   * supported requests, the high-pass filter and CONTINUOUS: it succeeds,
   * writes back values at least the requests, and they are what the
   * registers and the stored mode show.
   */
  lemma ConfigurationSetInstalled(hw: Hardware, s: State, c: Config, stamp: Timestamp)
    requires 1 <= c.samplerate <= 200 && 1 <= c.resolution <= 12 && 1 <= c.scale <= 16
    requires c.dspFunction == DSP_HIGH_PASS && c.dspParameter <= 3 && c.mode == CFG_CONTINUOUS
    requires Healthy(hw, s.tick, 13)
    ensures var a := ConfigurationSetSpec(hw, s, Some(Uniform(Driver)), Some(c), stamp);
            a.err == SUCCESS && a.out.Some? && a.state.tick == s.tick + 13 && a.state.dev.mode == CFG_CONTINUOUS &&
            ODR_1HZ <= a.state.regs.odr <= ODR_200HZ && a.out.value == Shown(a.state.regs, CFG_CONTINUOUS) &&
            a.out.value.samplerate >= c.samplerate && a.out.value.resolution >= c.resolution &&
            a.out.value.scale >= c.scale && a.out.value.dspFunction == DSP_HIGH_PASS &&
            a.out.value.dspParameter == c.dspParameter && a.out.value.mode == CFG_CONTINUOUS
  {
    var h := Uniform(Driver);
    var sleep := ModeSetSpec(hw, s, Some(CFG_SLEEP), stamp);
    var s1 := sleep.state;
    SleepKeepsStoredRate(hw, s, stamp);
    assert hw.reply(s.tick) == SUCCESS;
    var first := ApplySetupSpec(hw, s1, h, c, stamp);
    ApplySetupInstalled(hw, s1, c, stamp);
    var last := ApplyDspModeSpec(hw, first.state, h, first.out, first.err, stamp);
    ApplyDspModeInstalled(hw, first.state, first.out, stamp);
    OrKeepsBits(SUCCESS, SUCCESS);
    assert SetupSpec(hw, s, Driver, ModeSet, CFG_SLEEP, stamp) == (s1, SUCCESS, CFG_SLEEP);
    assert ApplySpec(hw, s1, h, c, stamp) == Step(last.state, SUCCESS, Some(last.out));
    assert ConfigurationSetSpec(hw, s, Some(h), Some(c), stamp) == Step(last.state, SUCCESS, Some(last.out));
    assert last.out == Shown(last.state.regs, CFG_CONTINUOUS);
  }

  /** A caller's ruuvi_driver_sensor_configuration_t, written through by the calls. */
  class Configuration {
    var samplerate: Byte
    var resolution: Byte
    var scale: Byte
    var dspFunction: Byte
    var dspParameter: Byte
    var mode: Byte

    ghost function View(): Config
      reads this
    {
      Config(samplerate, resolution, scale, dspFunction, dspParameter, mode)
    }

    constructor (c: Config)
      ensures View() == c
    {
      samplerate, resolution, scale := c.samplerate, c.resolution, c.scale;
      dspFunction, dspParameter, mode := c.dspFunction, c.dspParameter, c.mode;
    }
  }

  /** One setup call through a slot holding `h`, dispatched to the stub or to the driver. */
  method Setup(driver: Lis2dh12, h: Handler, which: Slot, value: Byte, now: Timestamp) returns (err: Status, value': Byte)
    requires which in SETUP_SLOTS
    modifies driver, driver.chip
    ensures (driver.View(), err, value') ==
            SetupSpec(driver.chip.hw, old(driver.View()), h, which, value, TimestampValue(driver.clock.millis, now))
  {
    if h != Driver {
      return STUB_RESULT, value;
    }
    var out: Option<Byte>;
    if which == SamplerateSet {
      err, out := driver.SamplerateSet(Some(value));
    } else if which == SamplerateGet {
      err, out := driver.SamplerateGet(Some(value));
    } else if which == ResolutionSet {
      err, out := driver.ResolutionSet(Some(value));
    } else if which == ResolutionGet {
      err, out := driver.ResolutionGet(Some(value));
    } else if which == ScaleSet {
      err, out := driver.ScaleSet(Some(value));
    } else if which == ScaleGet {
      err, out := driver.ScaleGet(Some(value));
    } else if which == ModeSet {
      err, out := driver.ModeSet(Some(value), now);
    } else {
      err, out := driver.ModeGet(Some(value));
    }
    value' := WrittenBack(out, value);
  }

  /** The DSP call through slot DspSet (`write`) or DspGet, holding `h`. */
  method DspSetup(driver: Lis2dh12, h: Handler, write: bool, value: DspSetting) returns (err: Status, value': DspSetting)
    modifies driver.chip
    ensures (driver.View(), err, value') == DspSetupSpec(driver.chip.hw, old(driver.View()), h, write, value)
  {
    if h != Driver {
      return STUB_RESULT, value;
    }
    if write {
      var out;
      err, out := driver.DspSet(Some(value));
      value' := if out.Some? then out.value else value;
    } else {
      err, value' := driver.DspGet();
    }
  }

  /** ruuvi_driver_sensor_configuration_set; `now` is what the registered clock would return. */
  method ConfigurationSet(sensor: Sensor?, driver: Lis2dh12, config: Configuration?, now: Timestamp) returns (err: Status)
    requires sensor != null && config != null && HandlerIn(sensor.handlers, SamplerateSet) != Unset ==> SettersCallable(sensor.handlers)
    modifies driver, driver.chip, config
    ensures var spec := ConfigurationSetSpec(driver.chip.hw, old(driver.View()),
                                             if sensor == null then None else Some(sensor.handlers),
                                             if config == null then None else Some(old(config.View())),
                                             TimestampValue(driver.clock.millis, now));
            driver.View() == spec.state && err == spec.err && (config != null ==> Some(config.View()) == spec.out)
  {
    if sensor == null || config == null {
      return ERROR_NULL;
    }
    var h := sensor.handlers;
    if HandlerIn(h, SamplerateSet) == Unset {
      return ERROR_INVALID_STATE;
    }
    var sleep := CFG_SLEEP;
    var e;
    err, sleep := Setup(driver, HandlerIn(h, ModeSet), ModeSet, sleep, now);
    e := Apply(driver, h, config, now);
    err := Or(err, e);
  }

  /** configuration_set after the sleep call: the five setters, each writing through `config`. */
  method Apply(driver: Lis2dh12, h: map<Slot, Handler>, config: Configuration, now: Timestamp) returns (err: Status)
    modifies driver, driver.chip, config
    ensures var spec := ApplySpec(driver.chip.hw, old(driver.View()), h, old(config.View()), TimestampValue(driver.clock.millis, now));
            driver.View() == spec.state && err == spec.err && Some(config.View()) == spec.out
  {
    err := ApplySetup(driver, h, config, now);
    err := ApplyDspMode(driver, h, config, err, now);
  }

  /** The first three setters of configuration_set. */
  method ApplySetup(driver: Lis2dh12, h: map<Slot, Handler>, config: Configuration, now: Timestamp) returns (err: Status)
    modifies driver, driver.chip, config
    ensures var spec := ApplySetupSpec(driver.chip.hw, old(driver.View()), h, old(config.View()), TimestampValue(driver.clock.millis, now));
            driver.View() == spec.state && err == spec.err && config.View() == spec.out
  {
    var e1, rate := Setup(driver, HandlerIn(h, SamplerateSet), SamplerateSet, config.samplerate, now);
    var e2, res := Setup(driver, HandlerIn(h, ResolutionSet), ResolutionSet, config.resolution, now);
    var e3, scale := Setup(driver, HandlerIn(h, ScaleSet), ScaleSet, config.scale, now);
    config.samplerate, config.resolution, config.scale := rate, res, scale;
    err := Or(Or(e1, e2), e3);
  }

  /** The last two setters of configuration_set, with `err` accumulated so far. */
  method ApplyDspMode(driver: Lis2dh12, h: map<Slot, Handler>, config: Configuration, err: Status, now: Timestamp) returns (err': Status)
    modifies driver, driver.chip, config
    ensures var spec := ApplyDspModeSpec(driver.chip.hw, old(driver.View()), h, old(config.View()), err, TimestampValue(driver.clock.millis, now));
            driver.View() == spec.state && err' == spec.err && config.View() == spec.out
  {
    var e4, dsp := DspSetup(driver, HandlerIn(h, DspSet), true, DspSetting(config.dspFunction, config.dspParameter));
    var e5, mode := Setup(driver, HandlerIn(h, ModeSet), ModeSet, config.mode, now);
    config.dspFunction, config.dspParameter, config.mode := dsp.dsp, dsp.parameter, mode;
    err' := Or(Or(err, e4), e5);
  }

  /** ruuvi_driver_sensor_configuration_get */
  method ConfigurationGet(sensor: Sensor?, driver: Lis2dh12, config: Configuration?) returns (err: Status)
    requires sensor != null && config != null && HandlerIn(sensor.handlers, SamplerateSet) != Unset ==> GettersCallable(sensor.handlers)
    modifies driver, driver.chip, config
    ensures var spec := ConfigurationGetSpec(driver.chip.hw, old(driver.View()),
                                             if sensor == null then None else Some(sensor.handlers),
                                             if config == null then None else Some(old(config.View())));
            driver.View() == spec.state && err == spec.err && (config != null ==> Some(config.View()) == spec.out)
  {
    if sensor == null || config == null {
      return ERROR_NULL;
    }
    var h := sensor.handlers;
    if HandlerIn(h, SamplerateSet) == Unset {
      return ERROR_INVALID_STATE;
    }
    err := Read(driver, h, config);
  }

  /** configuration_get past its guards: the five getters, each writing through `config`. */
  method Read(driver: Lis2dh12, h: map<Slot, Handler>, config: Configuration) returns (err: Status)
    modifies driver, driver.chip, config
    ensures var spec := ReadSpec(driver.chip.hw, old(driver.View()), h, old(config.View()));
            driver.View() == spec.state && err == spec.err && Some(config.View()) == spec.out
  {
    err := ReadSetup(driver, h, config);
    err := ReadDspMode(driver, h, config, err);
  }

  /** The first three getters of configuration_get. */
  method ReadSetup(driver: Lis2dh12, h: map<Slot, Handler>, config: Configuration) returns (err: Status)
    modifies driver, driver.chip, config
    ensures var spec := ReadSetupSpec(driver.chip.hw, old(driver.View()), h, old(config.View()));
            driver.View() == spec.state && err == spec.err && config.View() == spec.out
  {
    var e1, rate := Setup(driver, HandlerIn(h, SamplerateGet), SamplerateGet, config.samplerate, 0);
    var e2, res := Setup(driver, HandlerIn(h, ResolutionGet), ResolutionGet, config.resolution, 0);
    var e3, scale := Setup(driver, HandlerIn(h, ScaleGet), ScaleGet, config.scale, 0);
    config.samplerate, config.resolution, config.scale := rate, res, scale;
    err := Or(Or(e1, e2), e3);
  }

  /** The last two getters of configuration_get, with `err` accumulated so far. */
  method ReadDspMode(driver: Lis2dh12, h: map<Slot, Handler>, config: Configuration, err: Status) returns (err': Status)
    modifies driver, driver.chip, config
    ensures var spec := ReadDspModeSpec(driver.chip.hw, old(driver.View()), h, old(config.View()), err);
            driver.View() == spec.state && err' == spec.err && config.View() == spec.out
  {
    var e4, dsp := DspSetup(driver, HandlerIn(h, DspGet), false, DspSetting(config.dspFunction, config.dspParameter));
    var e5, mode := Setup(driver, HandlerIn(h, ModeGet), ModeGet, config.mode, 0);
    config.dspFunction, config.dspParameter, config.mode := dsp.dsp, dsp.parameter, mode;
    err' := Or(Or(err, e4), e5);
  }
}
