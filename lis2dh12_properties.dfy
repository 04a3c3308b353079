/**
 * Properties of the LIS2DH12 driver that hold over all inputs or relate
 * several of its operations, stated over the specification functions that
 * the driver's methods are proved against.
 */
module Lis2dh12Properties {
  import opened Types
  import opened DriverStatus
  import opened DriverError
  import opened DriverSensor
  import opened Lis2dh12Chip
  import opened Lis2dh12Spec

  // ------------------------------------------------------------ sleep guard

  /** The setters' guard holds exactly when the stored mode is SLEEP. */
  lemma AsleepIffSleepMode(s: State)
    ensures Asleep(s) <==> s.dev.mode == CFG_SLEEP
  {
  }

  /** Outside SLEEP every setter refuses with INVALID_STATE and changes nothing. */
  lemma SettersRequireSleep(hw: Hardware, s: State, request: Byte, setting: DspSetting)
    requires s.dev.mode != CFG_SLEEP
    ensures SamplerateSetSpec(hw, s, Some(request)) == Step(s, ERROR_INVALID_STATE, Some(request))
    ensures ResolutionSetSpec(hw, s, Some(request)) == Step(s, ERROR_INVALID_STATE, Some(request))
    ensures ScaleSetSpec(hw, s, Some(request)) == Step(s, ERROR_INVALID_STATE, Some(request))
    ensures DspSetSpec(hw, s, Some(setting)) == Step(s, ERROR_INVALID_STATE, Some(setting))
  {
    AsleepIffSleepMode(s);
  }

  /**
   * A request a setter does not support changes nothing, uses no bus
   * transaction, and is answered with the ERR_NOT_SUPPORTED sentinel.
   */
  lemma UnsupportedRequestChangesNothing(hw: Hardware, s: State, request: Byte)
    requires Asleep(s)
    ensures RateCode(request, s.dev.samplerate).None? ==>
              SamplerateSetSpec(hw, s, Some(request)) == Step(s, ERROR_NOT_SUPPORTED, Some(ERR_NOT_SUPPORTED))
    ensures ResolutionCode(request, s.dev.resolution).None? ==>
              ResolutionSetSpec(hw, s, Some(request)) == Step(s, ERROR_NOT_SUPPORTED, Some(ERR_NOT_SUPPORTED))
    ensures ScaleCode(request, s.dev.scale).None? ==>
              ScaleSetSpec(hw, s, Some(request)) == Step(s, ERROR_NOT_SUPPORTED, Some(ERR_NOT_SUPPORTED))
  {
  }

  // ------------------------------------------------------ set/get round trips

  /**
   * samplerate_set on a healthy bus with a request of 1 to 200 Hz writes the
   * slowest rate that is at least the request, records it, and reports it in
   * Hz; samplerate_get afterwards reports the same.
   */
  lemma SamplerateRoundTrip(hw: Hardware, s: State, request: Byte)
    requires Asleep(s) && 1 <= request <= 200 && Healthy(hw, s.tick, 2)
    ensures var r := SamplerateSetSpec(hw, s, Some(request));
            r.err == SUCCESS && r.out.Some? && r.out.value >= request &&
            r.state.regs.odr == r.state.dev.samplerate && RateHz(r.state.regs.odr) == r.out.value &&
            (forall o: Bits4 :: ODR_1HZ <= o <= ODR_200HZ && RateHz(o) >= request ==> RateHz(o) >= r.out.value) &&
            SamplerateGetSpec(hw, r.state, Some(0)).out == r.out &&
            r.state == s.(dev := r.state.dev, regs := s.regs.(odr := r.state.regs.odr), tick := s.tick + 2) &&
            r.state.dev == s.dev.(samplerate := r.state.regs.odr)
  {
    var odr := RateCode(request, s.dev.samplerate).value;
    var s1 := s.(dev := s.dev.(samplerate := odr));
    assert Reply(hw, s1) == SUCCESS && Reply(hw, Put(hw, s1, DataRate(odr))) == SUCCESS;
    OrKeepsBits(SUCCESS, SUCCESS);
  }

  /**
   * resolution_set on a healthy bus with a request of 1 to 12 bits writes the
   * lowest resolution that is at least the request and reports it in bits;
   * resolution_get afterwards reports the same.
   */
  lemma ResolutionRoundTrip(hw: Hardware, s: State, request: Byte)
    requires Asleep(s) && 1 <= request <= 12 && Healthy(hw, s.tick, 2)
    ensures var r := ResolutionSetSpec(hw, s, Some(request));
            r.err == SUCCESS && r.out.Some? && r.out.value >= request &&
            OperatingModeOf(r.state.regs) == r.state.dev.resolution &&
            ResolutionBits(r.state.dev.resolution) == r.out.value &&
            (forall m: Bits2 :: m in {HR_12BIT, NM_10BIT, LP_8BIT} && ResolutionBits(m) >= request ==>
               ResolutionBits(m) >= r.out.value) &&
            ResolutionGetSpec(hw, r.state, Some(0)).out == r.out &&
            r.state == s.(dev := s.dev.(resolution := r.state.dev.resolution),
                          regs := Apply(s.regs, OperatingMode(r.state.dev.resolution)), tick := s.tick + 2)
  {
    var mode := ResolutionCode(request, s.dev.resolution).value;
    var s1 := s.(dev := s.dev.(resolution := mode));
    assert Reply(hw, s1) == SUCCESS && Reply(hw, Put(hw, s1, OperatingMode(mode))) == SUCCESS;
    OperatingModeRoundTrip(s1.regs, mode);
    OrKeepsBits(SUCCESS, SUCCESS);
  }

  /**
   * scale_set on a healthy bus with a request of 1 to 16 g writes the
   * smallest full scale that is at least the request and reports it in g;
   * scale_get afterwards reports the same.
   */
  lemma ScaleRoundTrip(hw: Hardware, s: State, request: Byte)
    requires Asleep(s) && 1 <= request <= 16 && Healthy(hw, s.tick, 2)
    ensures var r := ScaleSetSpec(hw, s, Some(request));
            r.err == SUCCESS && r.out.Some? && r.out.value >= request &&
            r.state.regs.fullScale == r.state.dev.scale && ScaleG(r.state.dev.scale) == r.out.value &&
            (forall f: Bits2 :: ScaleG(f) >= request ==> ScaleG(f) >= r.out.value) &&
            ScaleGetSpec(hw, r.state, Some(0)).out == r.out &&
            r.state == s.(dev := s.dev.(scale := r.state.dev.scale),
                          regs := s.regs.(fullScale := r.state.dev.scale), tick := s.tick + 2)
  {
    var fs := ScaleCode(request, s.dev.scale).value;
    var s1 := s.(dev := s.dev.(scale := fs));
    assert Reply(hw, s1) == SUCCESS && Reply(hw, Put(hw, s1, FullScale(fs))) == SUCCESS;
    OrKeepsBits(SUCCESS, SUCCESS);
  }

  /**
   * dsp_set with the high-pass filter and a parameter of 0 to 3 writes the
   * matching cut-off and turns the output filter on; dsp_get afterwards
   * reports the same setting.
   */
  lemma HighPassRoundTrip(hw: Hardware, s: State, parameter: Byte)
    requires Asleep(s) && parameter <= 3 && Healthy(hw, s.tick, 5)
    ensures var r := DspSetSpec(hw, s, Some(DspSetting(DSP_HIGH_PASS, parameter)));
            r.err == SUCCESS && r.out == Some(DspSetting(DSP_HIGH_PASS, parameter)) &&
            DspGetSpec(hw, r.state).out == DspSetting(DSP_HIGH_PASS, parameter) &&
            r.state == s.(regs := s.regs.(hpcf := r.state.regs.hpcf, hpm := HPM_NORMAL, hpOnOutputs := true),
                          tick := s.tick + 5)
  {
    var orig := DspGetSpec(hw, s);
    var hpcf := HighPassCutoff(parameter).value.0;
    var s1 := orig.state;
    var s2 := Put(hw, s1, HighPassBandwidth(hpcf));
    var s3 := Put(hw, s2, HighPassMode(HPM_NORMAL));
    assert Reply(hw, s) == SUCCESS && Reply(hw, Tick(s)) == SUCCESS;
    assert Reply(hw, s1) == SUCCESS && Reply(hw, s2) == SUCCESS && Reply(hw, s3) == SUCCESS;
    OrKeepsBits(SUCCESS, SUCCESS);
  }

  /**
   * dsp_set with LAST (which is also DEFAULT) turns the output filter off,
   * keeps the cut-off and reports LAST, whatever the parameter: the parameter
   * is written back as given, or as dsp_get read it for NO_CHANGE. With
   * NO_CHANGE the report is what dsp_get afterwards reads.
   */
  lemma FilterOffRoundTrip(hw: Hardware, s: State, parameter: Byte)
    requires Asleep(s) && Healthy(hw, s.tick, 3)
    ensures var r := DspSetSpec(hw, s, Some(DspSetting(DSP_LAST, parameter)));
            r.err == SUCCESS &&
            r.out == Some(DspSetting(DSP_LAST, if parameter == CFG_NO_CHANGE then CutoffParameter(s.regs.hpcf) else parameter)) &&
            r.state == s.(regs := s.regs.(hpOnOutputs := false), tick := s.tick + 3)
    ensures parameter == CFG_NO_CHANGE ==>
              var r := DspSetSpec(hw, s, Some(DspSetting(DSP_LAST, parameter)));
              r.out == Some(DspGetSpec(hw, r.state).out)
  {
    assert Reply(hw, s) == SUCCESS && Reply(hw, Tick(s)) == SUCCESS;
    PutLands(hw, Tick(Tick(s)), HighPassOnOutputs(false));
    OrKeepsBits(SUCCESS, SUCCESS);
  }

  /**
   * samplerate_set's sentinels on a healthy bus: MIN and DEFAULT run at 1 Hz,
   * MAX and CUSTOM_3 at the fastest rate and report MAX, CUSTOM_1 and
   * CUSTOM_2 are reported back as themselves; samplerate_get agrees.
   */
  lemma SamplerateSentinels(hw: Hardware, s: State, request: Byte)
    requires Asleep(s) && Healthy(hw, s.tick, 2)
    requires request in {CFG_MIN, CFG_MAX, CFG_DEFAULT, CFG_CUSTOM_1, CFG_CUSTOM_2, CFG_CUSTOM_3}
    ensures var r := SamplerateSetSpec(hw, s, Some(request));
            r.err == SUCCESS && r.state.regs.odr == r.state.dev.samplerate &&
            SamplerateGetSpec(hw, r.state, Some(0)).out == r.out &&
            (request == CFG_MIN || request == CFG_DEFAULT ==> r.state.regs.odr == ODR_1HZ && r.out == Some(1)) &&
            (request == CFG_MAX || request == CFG_CUSTOM_3 ==> r.state.regs.odr == ODR_5KHZ376_LP && r.out == Some(CFG_MAX)) &&
            (request == CFG_CUSTOM_1 ==> r.state.regs.odr == ODR_400HZ && r.out == Some(CFG_CUSTOM_1)) &&
            (request == CFG_CUSTOM_2 ==> r.state.regs.odr == ODR_1KHZ620_LP && r.out == Some(CFG_CUSTOM_2)) &&
            r.state == s.(dev := s.dev.(samplerate := r.state.regs.odr), regs := s.regs.(odr := r.state.regs.odr),
                          tick := s.tick + 2)
  {
    var odr := RateCode(request, s.dev.samplerate).value;
    var s1 := s.(dev := s.dev.(samplerate := odr));
    PutLands(hw, s1, DataRate(odr));
    assert Reply(hw, Put(hw, s1, DataRate(odr))) == SUCCESS;
    OrKeepsBits(SUCCESS, SUCCESS);
  }

  /**
   * resolution_set's sentinels on a healthy bus: MIN gives 8 bits, DEFAULT
   * 10 and MAX 12, reported in bits; resolution_get agrees.
   */
  lemma ResolutionSentinels(hw: Hardware, s: State, request: Byte)
    requires Asleep(s) && Healthy(hw, s.tick, 2)
    requires request in {CFG_MIN, CFG_DEFAULT, CFG_MAX}
    ensures var r := ResolutionSetSpec(hw, s, Some(request));
            r.err == SUCCESS && OperatingModeOf(r.state.regs) == r.state.dev.resolution &&
            ResolutionGetSpec(hw, r.state, Some(0)).out == r.out &&
            r.out == Some(if request == CFG_MIN then 8 else if request == CFG_DEFAULT then 10 else 12) &&
            r.state == s.(dev := s.dev.(resolution := r.state.dev.resolution),
                          regs := Apply(s.regs, OperatingMode(r.state.dev.resolution)), tick := s.tick + 2)
  {
    var mode := ResolutionCode(request, s.dev.resolution).value;
    var s1 := s.(dev := s.dev.(resolution := mode));
    PutLands(hw, s1, OperatingMode(mode));
    assert Reply(hw, Put(hw, s1, OperatingMode(mode))) == SUCCESS;
    OperatingModeRoundTrip(s1.regs, mode);
    OrKeepsBits(SUCCESS, SUCCESS);
  }

  /**
   * scale_set's sentinels on a healthy bus: MIN and DEFAULT give 2 g, MAX
   * 16 g, reported in g; scale_get agrees.
   */
  lemma ScaleSentinels(hw: Hardware, s: State, request: Byte)
    requires Asleep(s) && Healthy(hw, s.tick, 2)
    requires request in {CFG_MIN, CFG_DEFAULT, CFG_MAX}
    ensures var r := ScaleSetSpec(hw, s, Some(request));
            r.err == SUCCESS && r.state.regs.fullScale == r.state.dev.scale &&
            ScaleGetSpec(hw, r.state, Some(0)).out == r.out &&
            r.out == Some(if request == CFG_MAX then 16 else 2) &&
            r.state == s.(dev := s.dev.(scale := r.state.dev.scale),
                          regs := s.regs.(fullScale := r.state.dev.scale), tick := s.tick + 2)
  {
    var fs := ScaleCode(request, s.dev.scale).value;
    var s1 := s.(dev := s.dev.(scale := fs));
    PutLands(hw, s1, FullScale(fs));
    assert Reply(hw, Put(hw, s1, FullScale(fs))) == SUCCESS;
    OrKeepsBits(SUCCESS, SUCCESS);
  }

  /**
   * dsp_set's high-pass sentinels on a healthy bus: MIN (and DEFAULT) give
   * the lightest cut-off and report 0, MAX the strongest and reports 3;
   * dsp_get agrees.
   */
  lemma HighPassSentinels(hw: Hardware, s: State, parameter: Byte)
    requires Asleep(s) && Healthy(hw, s.tick, 5)
    requires parameter in {CFG_MIN, CFG_DEFAULT, CFG_MAX}
    ensures var r := DspSetSpec(hw, s, Some(DspSetting(DSP_HIGH_PASS, parameter)));
            var reported: Byte := if parameter == CFG_MAX then 3 else 0;
            r.err == SUCCESS && r.out == Some(DspSetting(DSP_HIGH_PASS, reported)) &&
            r.state.regs.hpcf == (if parameter == CFG_MAX then HPCF_AGGRESSIVE else HPCF_LIGHT) &&
            DspGetSpec(hw, r.state).out == DspSetting(DSP_HIGH_PASS, reported) &&
            r.state == s.(regs := s.regs.(hpcf := r.state.regs.hpcf, hpm := HPM_NORMAL, hpOnOutputs := true),
                          tick := s.tick + 5)
  {
    var orig := DspGetSpec(hw, s);
    var hpcf := HighPassCutoff(parameter).value.0;
    var s1 := orig.state;
    var s2 := Put(hw, s1, HighPassBandwidth(hpcf));
    var s3 := Put(hw, s2, HighPassMode(HPM_NORMAL));
    assert Reply(hw, s) == SUCCESS && Reply(hw, Tick(s)) == SUCCESS;
    assert Reply(hw, s1) == SUCCESS && Reply(hw, s2) == SUCCESS && Reply(hw, s3) == SUCCESS;
    OrKeepsBits(SUCCESS, SUCCESS);
  }

  /** Every cut-off the chip can hold maps to a parameter that maps back to it. */
  lemma CutoffRoundTrip(hpcf: Bits2)
    ensures HighPassCutoff(CutoffParameter(hpcf)) == Some((hpcf, CutoffParameter(hpcf)))
  {
  }

  /**
   * dsp_set with NO_CHANGE in both halves re-applies what dsp_get reads:
   * on a healthy bus the same setting is reported and the cut-off and the
   * output switch are as they were.
   */
  lemma DspNoChangeReapplies(hw: Hardware, s: State)
    requires Asleep(s) && Healthy(hw, s.tick, 5)
    ensures var r := DspSetSpec(hw, s, Some(DspSetting(CFG_NO_CHANGE, CFG_NO_CHANGE)));
            r.err == SUCCESS && r.out == Some(DspGetSpec(hw, s).out) && r.state.dev == s.dev &&
            r.state.regs.hpcf == s.regs.hpcf && r.state.regs.hpOnOutputs == s.regs.hpOnOutputs
  {
    CutoffRoundTrip(s.regs.hpcf);
    assert hw.reply(s.tick) == SUCCESS && hw.reply(s.tick + 1) == SUCCESS && hw.reply(s.tick + 2) == SUCCESS;
    OrKeepsBits(SUCCESS, SUCCESS);
    if s.regs.hpOnOutputs {
      PutLands(hw, Tick(Tick(s)), HighPassBandwidth(s.regs.hpcf));
      var s3 := Put(hw, Tick(Tick(s)), HighPassBandwidth(s.regs.hpcf));
      PutLands(hw, s3, HighPassMode(HPM_NORMAL));
      PutLands(hw, Put(hw, s3, HighPassMode(HPM_NORMAL)), HighPassOnOutputs(true));
    } else {
      PutLands(hw, Tick(Tick(s)), HighPassOnOutputs(false));
    }
  }

  /** dsp_set refuses a filter it does not know after reading the current setting, and writes nothing. */
  lemma DspRejectsUnknownFunction(hw: Hardware, s: State, setting: DspSetting)
    requires Asleep(s)
    requires setting.dsp != CFG_NO_CHANGE && setting.dsp != DSP_HIGH_PASS && setting.dsp != DSP_LAST && setting.dsp != CFG_DEFAULT
    ensures var r := DspSetSpec(hw, s, Some(setting));
            var parameter := if setting.parameter == CFG_NO_CHANGE then DspGetSpec(hw, s).out.parameter else setting.parameter;
            r == Step(Tick(Tick(s)), ERROR_NOT_SUPPORTED, Some(DspSetting(setting.dsp, parameter)))
  {
  }

  /**
   * dsp_set refuses a high-pass parameter it does not know: the two reads of
   * the current setting are all that happens, and the parameter comes back
   * as REJECTED_PARAMETER.
   */
  lemma HighPassRejectsUnknownParameter(hw: Hardware, s: State, parameter: Byte)
    requires Asleep(s)
    requires 3 < parameter && parameter !in {CFG_MIN, CFG_MAX, CFG_NO_CHANGE}
    ensures var r := DspSetSpec(hw, s, Some(DspSetting(DSP_HIGH_PASS, parameter)));
            r == Step(Tick(Tick(s)), ERROR_NOT_SUPPORTED, Some(DspSetting(DSP_HIGH_PASS, REJECTED_PARAMETER)))
  {
  }

  // ------------------------------------------------------------------- mode

  /**
   * SLEEP changes only the stored mode and, when the bus takes the write,
   * the data-rate register: the stored rate is kept for CONTINUOUS.
   */
  lemma SleepKeepsStoredRate(hw: Hardware, s: State, stamp: Timestamp)
    ensures var r := ModeSetSpec(hw, s, Some(CFG_SLEEP), stamp);
            r.state == s.(dev := s.dev.(mode := CFG_SLEEP), regs := r.state.regs, tick := s.tick + 1) &&
            r.state.regs == Settle(s.regs, DataRate(ODR_POWER_DOWN), hw.reply(s.tick)) &&
            Asleep(r.state) && r.err == hw.reply(s.tick) && r.out == Some(CFG_SLEEP)
  {
  }

  /** SLEEP powers the chip down and CONTINUOUS afterwards resumes at the stored rate. */
  lemma SleepThenContinuousResumes(hw: Hardware, s: State, stamp: Timestamp)
    requires Healthy(hw, s.tick, 2)
    ensures var sleep := ModeSetSpec(hw, s, Some(CFG_SLEEP), stamp);
            var run := ModeSetSpec(hw, sleep.state, Some(CFG_CONTINUOUS), stamp);
            sleep.err == SUCCESS && sleep.state.regs.odr == ODR_POWER_DOWN && Asleep(sleep.state) &&
            run.err == SUCCESS && run.state.regs.odr == s.dev.samplerate && run.state.dev.mode == CFG_CONTINUOUS &&
            ModeGetSpec(run.state, Some(0)).out == Some(CFG_CONTINUOUS)
  {
    assert Reply(hw, s) == SUCCESS && hw.reply(s.tick + 1) == SUCCESS;
  }

  /**
   * samplerate_get while asleep copies the powered-down register into the
   * stored rate, so CONTINUOUS afterwards leaves the chip powered down.
   */
  lemma RateReadWhileAsleepIsLost(hw: Hardware, s: State, stamp: Timestamp)
    requires Healthy(hw, s.tick, 1)
    ensures var sleep := ModeSetSpec(hw, s, Some(CFG_SLEEP), stamp);
            var read := SamplerateGetSpec(hw, sleep.state, Some(0));
            var run := ModeSetSpec(hw, read.state, Some(CFG_CONTINUOUS), stamp);
            run.state.dev.samplerate == ODR_POWER_DOWN && run.state.regs.odr == ODR_POWER_DOWN &&
            run.state.dev.mode == CFG_CONTINUOUS
  {
    assert Reply(hw, s) == SUCCESS;
  }

  /**
   * SINGLE outside CONTINUOUS samples once, stamps the sample, keeps the
   * stored mode, reports SLEEP and leaves the stored rate at power-down, so
   * CONTINUOUS afterwards leaves the chip powered down.
   */
  lemma SingleShotForgetsRate(hw: Hardware, s: State, stamp: Timestamp)
    requires s.dev.mode != CFG_CONTINUOUS && Healthy(hw, s.tick, 3)
    ensures var single := ModeSetSpec(hw, s, Some(CFG_SINGLE), stamp);
            var run := ModeSetSpec(hw, single.state, Some(CFG_CONTINUOUS), stamp);
            single.out == Some(CFG_SLEEP) && single.state.dev.mode == s.dev.mode &&
            single.state.dev.tsample == stamp && single.state.dev.samplerate == ODR_POWER_DOWN &&
            single.state.tick == s.tick + 2 &&
            run.state.dev.samplerate == ODR_POWER_DOWN && run.state.regs.odr == ODR_POWER_DOWN
  {
    assert hw.reply(s.tick) == SUCCESS && hw.reply(s.tick + 1) == SUCCESS && hw.reply(s.tick + 2) == SUCCESS;
  }

  /** SINGLE is refused in CONTINUOUS, with nothing changed. */
  lemma SingleShotRefusedWhileRunning(hw: Hardware, s: State, stamp: Timestamp)
    requires s.dev.mode == CFG_CONTINUOUS
    ensures ModeSetSpec(hw, s, Some(CFG_SINGLE), stamp) == Step(s, ERROR_INVALID_STATE, Some(CFG_CONTINUOUS))
  {
  }

  // ------------------------------------------------------------ conversions

  /** rawToMg and rawToC fail exactly when the stored resolution is not one they know. */
  lemma ConversionSucceedsIff(dev: Settings)
    ensures ConversionErr(dev) == SUCCESS <==> Convertible(dev)
    ensures !Convertible(dev) ==> ConversionErr(dev) == ERROR_INTERNAL
  {
  }

  /**
   * rawToMg converts each axis with the stored scale and resolution when it
   * knows the resolution, and yields the invalid float on every axis otherwise.
   */
  lemma RawToMgPerAxis(dev: Settings, raw: Axes)
    ensures Convertible(dev) ==>
              RawToMgSpec(dev, raw) == [Mg(dev.scale, dev.resolution, raw[0]), Mg(dev.scale, dev.resolution, raw[1]),
                                        Mg(dev.scale, dev.resolution, raw[2])]
    ensures !Convertible(dev) ==> RawToMgSpec(dev, raw) == [FloatInvalid, FloatInvalid, FloatInvalid]
  {
  }

  // --------------------------------------------------------------- data_get

  /**
   * data_get in CONTINUOUS on a healthy bus with a known resolution stamps
   * the record with the clock and populates the three axes in g and the
   * temperature from the two samples, using two transactions and nothing else.
   */
  lemma DataGetContinuous(hw: Hardware, s: State, record: SensorData, stamp: Timestamp)
    requires s.dev.mode == CFG_CONTINUOUS && Convertible(s.dev) && Healthy(hw, s.tick, 2)
    requires stamp != UINT64_INVALID
    ensures var r := DataGetSpec(hw, s, Some(record), stamp);
            var mg := RawToMgSpec(s.dev, hw.acceleration(s.tick));
            r.err == SUCCESS && r.state == s.(tick := s.tick + 2) &&
            r.out == Some(SensorData(stamp, Reading(mg, Celsius(s.dev.resolution, TemperatureLsb(hw.temperature(s.tick + 1))))))
  {
    ConversionSucceedsIff(s.dev);
    assert hw.reply(s.tick) == SUCCESS && hw.reply(s.tick + 1) == SUCCESS;
    OrKeepsBits(SUCCESS, SUCCESS);
  }

  /**
   * data_get in SLEEP stamps the record with the time of the last single
   * sample; while that is the invalid timestamp the values are left alone.
   */
  lemma DataGetAsleep(hw: Hardware, s: State, record: SensorData, stamp: Timestamp)
    requires s.dev.mode == CFG_SLEEP
    ensures var r := DataGetSpec(hw, s, Some(record), stamp);
            r.state == s.(tick := s.tick + 2) && r.out.Some? && r.out.value.timestampMs == s.dev.tsample &&
            (s.dev.tsample == UINT64_INVALID ==> r.out.value.values == record.values)
  {
  }

  /**
   * data_get with a stored mode it does not know reports INTERNAL to the
   * error record as non-fatal, returns an error and leaves the record as it was.
   */
  lemma DataGetUnknownMode(hw: Hardware, s: State, record: SensorData, stamp: Timestamp)
    requires s.dev.mode != CFG_SLEEP && s.dev.mode != CFG_CONTINUOUS
    ensures var r := DataGetSpec(hw, s, Some(record), stamp);
            r.out == Some(record) && Has(r.err, ERROR_INTERNAL) && r.err != SUCCESS &&
            r.state == s.(tick := s.tick + 2,
                          log := Check(s.log, Report(ERROR_INTERNAL, !ERROR_FATAL, SOURCE_FILE, DATA_GET_MODE_LINE)))
  {
    var sample := SampleSpec(hw, s);
    OrKeepsBits(sample.0, ERROR_INTERNAL);
  }

  /** data_get never populates values it could not read or convert. */
  lemma DataGetPopulatesOnlyOnSuccess(hw: Hardware, s: State, record: SensorData, stamp: Timestamp)
    ensures var r := DataGetSpec(hw, s, Some(record), stamp);
            r.out.Some? && (r.err != SUCCESS ==> r.out.value.values == record.values)
  {
  }

  // ------------------------------------------------------------------- FIFO

  /**
   * fifo_use takes two transactions and reports only the second, so a failed
   * FIFO enable goes unreported. On a healthy bus the FIFO is on exactly when
   * asked, in dynamic-stream mode, or off in bypass, and no other register
   * changes.
   */
  lemma FifoUseConfigures(hw: Hardware, s: State, enable: bool)
    ensures var r := FifoUseSpec(hw, s, enable);
            r.err == hw.reply(s.tick + 1) && r.state.tick == s.tick + 2 && r.state.dev == s.dev && r.state.log == s.log
    ensures Healthy(hw, s.tick, 2) ==>
              FifoUseSpec(hw, s, enable).state.regs ==
              s.regs.(fifoEnabled := enable, fifoMode := if enable then FM_DYNAMIC_STREAM else FM_BYPASS)
  {
    if Healthy(hw, s.tick, 2) {
      var s1 := Put(hw, s, RegWrite.FifoEnable(enable));
      PutLands(hw, s, RegWrite.FifoEnable(enable));
      PutLands(hw, s1, FifoMode(if enable then FM_DYNAMIC_STREAM else FM_BYPASS));
    }
  }

  /**
   * fifo_interrupt_use: enabling sets the watermark to 31 and routes only the
   * watermark interrupt to INT1, in two transactions whose statuses are both
   * kept; disabling clears CTRL_REG3 in one. On a healthy bus nothing else
   * changes.
   */
  lemma FifoInterruptConfigures(hw: Hardware, s: State, enable: bool)
    ensures var r := FifoInterruptUseSpec(hw, s, enable);
            r.state.dev == s.dev && r.state.log == s.log &&
            (enable ==> r.err == Or(hw.reply(s.tick), hw.reply(s.tick + 1)) && r.state.tick == s.tick + 2) &&
            (!enable ==> r.err == hw.reply(s.tick) && r.state.tick == s.tick + 1)
    ensures Healthy(hw, s.tick, 2) ==>
              var r := FifoInterruptUseSpec(hw, s, enable);
              r.err == SUCCESS &&
              r.state.regs == if enable then s.regs.(fifoWatermark := 31, ctrlReg3 := CTRL3_I1_WTM)
                              else s.regs.(ctrlReg3 := 0)
  {
    if Healthy(hw, s.tick, 2) {
      PutLands(hw, s, if enable then FifoWatermark(31) else Int1Pin(0));
      if enable {
        PutLands(hw, Put(hw, s, FifoWatermark(31)), Int1Pin(CTRL3_I1_WTM));
        OrIdempotent(SUCCESS);
      }
    }
  }

  /** The accumulated FIFO status is SUCCESS exactly when every read and every conversion succeeded. */
  lemma {:induction false} FifoErrSucceeds(hw: Hardware, dev: Settings, first: Status, t0: nat, n: nat)
    ensures FifoErr(hw, dev, first, t0, n) == SUCCESS <==>
              first == SUCCESS && (n == 0 || Convertible(dev)) && Healthy(hw, t0, n)
    decreases n
  {
    if n > 0 {
      FifoErrSucceeds(hw, dev, first, t0, n - 1);
      var before := FifoErr(hw, dev, first, t0, n - 1);
      OrKeepsBits(before, hw.reply(t0 + n - 1));
      OrKeepsBits(Or(before, hw.reply(t0 + n - 1)), ConversionErr(dev));
      ConversionSucceedsIff(dev);
      assert Healthy(hw, t0, n) <==> Healthy(hw, t0, n - 1) && hw.reply(t0 + n - 1) == SUCCESS;
    }
  }

  /** fifo_read with an empty FIFO reports 0 elements and SUCCESS, leaving the records alone, after one read. */
  lemma FifoReadEmpty(hw: Hardware, s: State, capacity: nat, buffer: seq<SensorData>, stamp: Timestamp)
    requires capacity <= |buffer| && hw.fifoLevel(s.tick) == 0
    ensures FifoReadSpec(hw, s, Some(capacity), Some(buffer), stamp) ==
            Step(s.(tick := s.tick + 1), SUCCESS, (Some(0), Some(buffer)))
  {
  }

  /**
   * fifo_read with samples waiting: min(level + 1, capacity) records are
   * filled, one sample each in the order read, the first is stamped, and
   * the records beyond the count are the caller's. It succeeds exactly when
   * every transaction and every conversion does. The settings, the
   * registers and the error record are untouched.
   */
  lemma FifoReadOutcome(hw: Hardware, s: State, capacity: nat, buffer: seq<SensorData>, stamp: Timestamp)
    requires capacity <= |buffer| && hw.fifoLevel(s.tick) > 0
    ensures var r := FifoReadSpec(hw, s, Some(capacity), Some(buffer), stamp);
            var n := FifoCount(hw.fifoLevel(s.tick), capacity);
            r.out.0 == Some(n) && r.out.1.Some? && |r.out.1.value| == |buffer| &&
            r.state == s.(tick := s.tick + 1 + n) &&
            (r.err == SUCCESS <==> Healthy(hw, s.tick, n + 1) && (n == 0 || Convertible(s.dev))) &&
            (n > 0 ==> r.out.1.value[0].timestampMs == stamp) &&
            (forall i :: 0 < i < n ==> r.out.1.value[i].timestampMs == buffer[i].timestampMs) &&
            (forall i :: 0 <= i < n ==> r.out.1.value[i].values == FifoValues(s.dev, hw.acceleration(s.tick + 1 + i))) &&
            (forall i :: n <= i < |buffer| ==> r.out.1.value[i] == buffer[i])
  {
    var n := FifoCount(hw.fifoLevel(s.tick), capacity);
    FifoSamplesFilled(hw, s.dev, buffer, stamp, s.tick + 1, n);
    FifoErrSucceeds(hw, s.dev, hw.reply(s.tick), s.tick + 1, n);
    assert Healthy(hw, s.tick, n + 1) <==> hw.reply(s.tick) == SUCCESS && Healthy(hw, s.tick + 1, n);
  }

  /**
   * The records fifo_read fills: the first `n` hold samples `t0`, `t0 + 1`, …
   * in g, the first of them stamped, and the rest are the caller's.
   */
  lemma FifoSamplesFilled(hw: Hardware, dev: Settings, buffer: seq<SensorData>, stamp: Timestamp, t0: nat, n: nat)
    requires n <= |buffer|
    ensures var filled := FifoFilled(hw, dev, Stamped(buffer, n, stamp), t0, n);
            (n > 0 ==> filled[0].timestampMs == stamp) &&
            (forall i :: 0 < i < n ==> filled[i].timestampMs == buffer[i].timestampMs) &&
            (forall i :: 0 <= i < n ==> filled[i].values == FifoValues(dev, hw.acceleration(t0 + i))) &&
            (forall i :: n <= i < |buffer| ==> filled[i] == buffer[i])
  {
    var stamped := Stamped(buffer, n, stamp);
    var filled := FifoFilled(hw, dev, stamped, t0, n);
    forall i | 0 <= i < n
      ensures filled[i] == FifoRecord(stamped[i], dev, hw.acceleration(t0 + i))
    {
      FifoFilledRecords(hw, dev, stamped, t0, n, i);
    }
    forall i | n <= i < |buffer|
      ensures filled[i] == buffer[i]
    {
      FifoFilledRest(hw, dev, stamped, t0, n, i);
    }
  }

  // --------------------------------------------------------------- activity

  /**
   * activity_interrupt_use rounds a non-negative limit up to the next
   * threshold step of the current full scale: the limit written back exceeds
   * the request by at most one step. A threshold above 0x7F is refused after
   * the scale read, with no register written.
   */
  lemma ActivityLimitRoundsUp(hw: Hardware, s: State, enable: bool, limit: real)
    requires limit >= 0.0
    ensures var r := ActivityInterruptUseSpec(hw, s, enable, Some(limit));
            var d := Divisor(ScaleG(s.regs.fullScale));
            var t := Threshold(limit, d);
            (t > 0x7F ==> r == Step(Tick(s).(dev := s.dev.(scale := s.regs.fullScale)), ERROR_INVALID_PARAM, Some(limit))) &&
            (t <= 0x7F ==> r.out == Some(t as real * d) && limit < r.out.value && r.out.value - d <= limit &&
                           r.state.tick == s.tick + 5)
  {
    var d := Divisor(ScaleG(s.regs.fullScale));
    ThresholdRoundsUp(limit, d);
    var t := Threshold(limit, d);
    assert (t - 1) as real * d == t as real * d - d;
  }

  /**
   * activity_interrupt_use on a healthy bus, for a threshold it accepts:
   * interrupt generator 1 is high-passed, given the threshold and the axis
   * events, and routed to pin 2.
   */
  lemma ActivityConfigures(hw: Hardware, s: State, enable: bool, limit: real)
    requires limit >= 0.0 && Healthy(hw, s.tick, 5)
    requires Threshold(limit, Divisor(ScaleG(s.regs.fullScale))) <= 0x7F
    ensures var r := ActivityInterruptUseSpec(hw, s, enable, Some(limit));
            r.err == SUCCESS && r.state.regs.hpOnInterrupt == HP_ON_INT1_GEN &&
            r.state.regs.int1Threshold == Threshold(limit, Divisor(ScaleG(s.regs.fullScale))) &&
            r.state.regs.int1Config == ActivityConfig(enable) && r.state.regs.ctrlReg6 == CTRL6_I2_IA1
  {
    var t := Threshold(limit, Divisor(ScaleG(s.regs.fullScale)));
    ActivityScaleRead(hw, s);
    var scale := ScaleGetSpec(hw, s, Some(0));
    ActivityUnfolds(hw, s, enable, limit);
    ActivityWritesLand(hw, scale.state, t, enable);
  }

  /** The scale read that opens activity_interrupt_use succeeds on a healthy bus. */
  lemma ActivityScaleRead(hw: Hardware, s: State)
    requires hw.reply(s.tick) == SUCCESS
    ensures var scale := ScaleGetSpec(hw, s, Some(0));
            scale.err == SUCCESS && scale.state.tick == s.tick + 1 && scale.state.regs == s.regs &&
            scale.out == Some(ScaleG(s.regs.fullScale))
  {
    OrKeepsBits(SUCCESS, ScaleReport(s.regs.fullScale).1);
  }

  /** A limit that fits the threshold register leads to the four writes after the scale read. */
  lemma ActivityUnfolds(hw: Hardware, s: State, enable: bool, limit: real)
    requires limit >= 0.0 && Threshold(limit, Divisor(ScaleG(s.regs.fullScale))) <= 0x7F
    ensures var scale := ScaleGetSpec(hw, s, Some(0));
            var t := Threshold(limit, Divisor(ScaleG(s.regs.fullScale)));
            var w := ActivityWrites(hw, scale.state, scale.err, t, enable);
            ActivityInterruptUseSpec(hw, s, enable, Some(limit)).state == w.state &&
            ActivityInterruptUseSpec(hw, s, enable, Some(limit)).err == w.err
  {
    assert ScaleGetSpec(hw, s, Some(0)).out.value == ScaleG(s.regs.fullScale);
  }

  /** The four writes of activity_interrupt_use all land on a healthy bus. */
  lemma ActivityWritesLand(hw: Hardware, s: State, threshold: Bits7, enable: bool)
    requires Healthy(hw, s.tick, 4)
    ensures var w := ActivityWrites(hw, s, SUCCESS, threshold, enable);
            w.err == SUCCESS &&
            w.state == s.(regs := s.regs.(hpOnInterrupt := HP_ON_INT1_GEN, int1Threshold := threshold,
                                          int1Config := ActivityConfig(enable), ctrlReg6 := CTRL6_I2_IA1),
                          tick := s.tick + 4)
  {
    var s2 := Put(hw, s, HighPassOnInterrupt(HP_ON_INT1_GEN));
    var s3 := Put(hw, s2, Int1Threshold(threshold));
    var s4 := Put(hw, s3, Int1Config(ActivityConfig(enable)));
    PutLands(hw, s, HighPassOnInterrupt(HP_ON_INT1_GEN));
    PutLands(hw, s2, Int1Threshold(threshold));
    PutLands(hw, s3, Int1Config(ActivityConfig(enable)));
    PutLands(hw, s4, Int2Pin(CTRL6_I2_IA1));
    OrIdempotent(SUCCESS);
  }

  /** A write on a transaction the bus acknowledges lands in the register file. */
  lemma PutLands(hw: Hardware, s: State, w: RegWrite)
    requires hw.reply(s.tick) == SUCCESS
    ensures Reply(hw, s) == SUCCESS && Put(hw, s, w) == s.(regs := Apply(s.regs, w), tick := s.tick + 1)
  {
  }

  /** At 2 g a limit of 0.02 g becomes threshold 2, and 0.032 g is written back. */
  lemma ActivityExample(hw: Hardware, s: State, enable: bool)
    requires s.regs.fullScale == FS_2G
    ensures var r := ActivityInterruptUseSpec(hw, s, enable, Some(0.02));
            r.out == Some(0.032) && (Healthy(hw, s.tick, 5) ==> r.state.regs.int1Threshold == 2)
  {
    assert Threshold(0.02, 0.016) == 2;
    if Healthy(hw, s.tick, 5) {
      ActivityConfigures(hw, s, enable, 0.02);
    }
  }

  /** A negative limit is refused before anything happens. */
  lemma ActivityRefusesNegativeLimit(hw: Hardware, s: State, enable: bool, limit: real)
    requires limit < 0.0
    ensures ActivityInterruptUseSpec(hw, s, enable, Some(limit)) == Step(s, ERROR_INVALID_PARAM, Some(limit))
  {
  }

  // -------------------------------------------------------------- self-test

  /** The positive or negative half of the self-test starting at transaction `t` sees every axis move within the band. */
  predicate InBandFrom(hw: Hardware, t: nat)
  {
    AxesInBand(hw.acceleration(t + 3), hw.acceleration(t + 1))
  }

  /** Every axis moved within the self-test band between the two samples. */
  predicate AxesInBand(newer: Axes, older: Axes)
  {
    forall i :: 0 <= i < 3 ==> InBand(AxisChange(newer[i], older[i]))
  }

  /** init's defaults give the settings under which the self-test band applies. */
  lemma InitDefaultsCalibrate(hw: Hardware, s: State)
    ensures var r := InitDefaults(hw, s);
            r.dev == s.dev.(samplerate := ODR_400HZ, scale := FS_2G, resolution := NM_10BIT) &&
            r.log == s.log && r.tick == s.tick + 7 && SelftestCalibrated(r.dev)
  {
  }

  /**
   * One half of the self-test takes a sample with self-test off, then one
   * with self-test on in `direction`, and passes exactly when the status so
   * far, the self-test-off write and the band check on all three axes pass.
   */
  lemma SelfTestHalfVerdict(hw: Hardware, s: State, err: Status, direction: Bits2)
    requires SelftestCalibrated(s.dev)
    ensures var r := SelfTestHalf(hw, s, err, direction);
            r.0.dev == s.dev.(selftest := direction) && r.0.log == s.log && r.0.tick == s.tick + 4 &&
            (r.1 == SUCCESS <==> err == SUCCESS && hw.reply(s.tick) == SUCCESS && InBandFrom(hw, s.tick))
  {
    var s1 := s.(dev := s.dev.(selftest := ST_DISABLE));
    var err1 := Or(err, Reply(hw, s1));
    var s2 := Put(hw, s1, SelfTest(ST_DISABLE));
    var s5 := Put(hw, Tick(s2).(dev := Tick(s2).dev.(selftest := direction)), SelfTest(direction));
    var verdict := SelftestVerdict(s5.dev, hw.acceleration(s.tick + 3), hw.acceleration(s.tick + 1));
    assert SelfTestHalf(hw, s, err, direction).1 == Or(err1, verdict);
    OrKeepsBits(err, Reply(hw, s1));
    OrKeepsBits(err1, verdict);
  }

  /** The end of the self-test turns self-test off and powers down; it passes when both writes do. */
  lemma SelfTestEndPowersDown(hw: Hardware, s: State, err: Status)
    ensures var r := SelfTestEnd(hw, s, err);
            r.0.dev == s.dev.(selftest := ST_DISABLE, samplerate := ODR_POWER_DOWN) && r.0.tick == s.tick + 2 &&
            (r.1 == SUCCESS <==> err == SUCCESS && Healthy(hw, s.tick, 2)) &&
            (r.1 == SUCCESS ==> r.0.regs == s.regs.(selfTest := ST_DISABLE, odr := ODR_POWER_DOWN) && r.0.log == s.log)
  {
    var c := s.(dev := s.dev.(selftest := ST_DISABLE));
    OrKeepsBits(err, Reply(hw, c));
    OrKeepsBits(Or(err, Reply(hw, c)), hw.reply(s.tick + 1));
  }

  /**
   * init's self-test on calibrated settings passes exactly when every
   * status it accumulates is SUCCESS and both directions move every axis
   * within the band; it ends with self-test off and the chip powered down.
   */
  lemma InitSelfTestVerdict(hw: Hardware, s: State)
    requires SelftestCalibrated(s.dev)
    ensures var r := InitSelfTest(hw, s);
            r.0.dev == s.dev.(selftest := ST_DISABLE, samplerate := ODR_POWER_DOWN) && r.0.tick == s.tick + 10 &&
            (r.1 == SUCCESS <==>
               hw.reply(s.tick) == SUCCESS && InBandFrom(hw, s.tick) &&
               hw.reply(s.tick + 4) == SUCCESS && InBandFrom(hw, s.tick + 4) && Healthy(hw, s.tick + 8, 2)) &&
            (r.1 == SUCCESS ==> r.0.log == s.log && r.0.regs.odr == ODR_POWER_DOWN && r.0.regs.selfTest == ST_DISABLE)
  {
    var pos := SelfTestHalf(hw, s, SUCCESS, ST_POSITIVE);
    SelfTestHalfVerdict(hw, s, SUCCESS, ST_POSITIVE);
    var p := CheckedHalf(hw, s, SUCCESS, ST_POSITIVE, INIT_CHECK_LINES[0]);
    assert p.0 == Reported(pos.0, pos.1, 175) && p.1 == pos.1;
    var neg := SelfTestHalf(hw, p.0, p.1, ST_NEGATIVE);
    SelfTestHalfVerdict(hw, p.0, p.1, ST_NEGATIVE);
    var n := CheckedHalf(hw, p.0, p.1, ST_NEGATIVE, INIT_CHECK_LINES[1]);
    assert n.0 == Reported(neg.0, neg.1, 191) && n.1 == neg.1;
    SelfTestEndPowersDown(hw, n.0, n.1);
    assert InitSelfTest(hw, s) == SelfTestEnd(hw, n.0, n.1);
  }

  // ------------------------------------------------------- init and uninit

  /**
   * init refuses a driver whose bus is already bound without touching
   * anything, and on any other bus than SPI only stubs the record.
   */
  lemma InitRefusals(hw: Hardware, s: State, rec: Record, bus: Bus, handle: Byte)
    ensures s.dev.bound ==> InitSpec(hw, s, Some(rec), bus, handle) == Step(s, ERROR_INVALID_STATE, Some(rec))
    ensures !s.dev.bound && bus == I2c ==>
              InitSpec(hw, s, Some(rec), bus, handle) == Step(s, ERROR_NOT_IMPLEMENTED, Some(Stubbed(rec)))
    ensures !s.dev.bound && bus != I2c && bus != Spi ==>
              InitSpec(hw, s, Some(rec), bus, handle) == Step(s, ERROR_NOT_SUPPORTED, Some(Stubbed(rec)))
  {
  }

  /**
   * When WHO_AM_I does not match, init reports NOT_FOUND but leaves the bus
   * bound, so a second init is refused until uninit.
   */
  lemma InitNotFoundStaysBound(hw: Hardware, s: State, rec: Record, handle: Byte, again: Record, bus: Bus)
    requires !s.dev.bound && hw.whoAmI(s.tick) != DEVICE_ID
    ensures var r := InitSpec(hw, s, Some(rec), Spi, handle);
            r.err == ERROR_NOT_FOUND && r.out == Some(Stubbed(rec)) && r.state.dev.bound &&
            InitSpec(hw, r.state, Some(again), bus, handle).err == ERROR_INVALID_STATE
  {
  }

  /**
   * init on SPI with a matching WHO_AM_I: whatever the bus reports, the
   * settings end at 2 g, 10 bits, powered down, self-test off, SLEEP, bound to
   * `handle`; the driver is installed exactly when init returns SUCCESS, and
   * then the chip is powered down and the error record untouched.
   */
  lemma InitFoundOutcome(hw: Hardware, s: State, rec: Record, handle: Byte)
    requires !s.dev.bound && hw.whoAmI(s.tick) == DEVICE_ID
    ensures var r := InitSpec(hw, s, Some(rec), Spi, handle);
            r.state.dev == Settings(NM_10BIT, FS_2G, ODR_POWER_DOWN, ST_DISABLE, CFG_SLEEP, handle,
                                    if r.err == SUCCESS then UINT64_INVALID else s.dev.tsample, true) &&
            r.out == Some(if r.err == SUCCESS then Installed(rec) else Stubbed(rec)) &&
            (IsInit(r.out.value) <==> r.err == SUCCESS) &&
            (r.err == SUCCESS ==> r.state.log == s.log && r.state.regs.odr == ODR_POWER_DOWN &&
                                  r.state.regs.selfTest == ST_DISABLE)
  {
    var s2 := Tick(s.(dev := s.dev.(bound := true, handle := handle, mode := CFG_SLEEP)));
    assert InitSpec(hw, s, Some(rec), Spi, handle) == Found(hw, s2, Stubbed(rec));
    var a := InitDisable(hw, s2);
    InitDisableKeepsSettings(hw, s2);
    InitDefaultsCalibrate(hw, a);
    InitSelfTestVerdict(hw, InitDefaults(hw, a));
  }

  /** Turning the FIFO and the interrupts off touches only the stored scale, which scale_get refreshes. */
  lemma InitDisableKeepsSettings(hw: Hardware, s: State)
    ensures var r := InitDisable(hw, s); r.dev == s.dev.(scale := r.dev.scale) && r.log == s.log
  {
  }

  /**
   * uninit stubs the record, zeroes the settings, which unbinds the bus so
   * that init may run again, and returns the status of the power-down write.
   */
  lemma UninitUnbinds(hw: Hardware, s: State, rec: Record)
    ensures var r := UninitSpec(hw, s, Some(rec));
            r.state.dev == ZEROED && !r.state.dev.bound && r.out == Some(Stubbed(rec)) && !IsInit(r.out.value) &&
            r.err == hw.reply(s.tick) && r.state.tick == s.tick + 1 &&
            (r.err == SUCCESS ==> r.state.regs == s.regs.(odr := ODR_POWER_DOWN))
  {
  }

  // ---------------------------------------------------------------- examples

  /** 5 Hz and 10 Hz both give 10 Hz; a FIFO holding 10 read into 5 records fills 5. */
  lemma RoundingExamples(current: Bits4)
    ensures RateCode(5, current) == RateCode(10, current) == Some(ODR_10HZ) && RateHz(ODR_10HZ) == 10
    ensures FifoCount(10, 5) == 5
  {
  }
}
