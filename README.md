# LIS2DH12 driver, sensor record and error module of ruuvi.drivers.c, in Dafny

This project models three parts of ruuvi.drivers.c and proves properties of the model:

- the LIS2DH12 accelerometer driver, `interfaces/acceleration/ruuvi_interface_lis2dh12.c`;
- the generic sensor record, `ruuvi_driver_sensor.c`;
- the sticky error accumulator, `ruuvi_driver_error.c`.

## Modules

- `Types`, `DriverStatus` (`types.dfy`, `status.dfy`):
  - byte, int16 and uint64 ranges;
  - the 32-bit status bit set;
  - `Or`, the `|=` by which every function accumulates errors, with its algebra.
- `DriverError` (`driver_error.dfy`):
  - the module statics `m_errors` and `m_cb` as a class `ErrorState`;
  - the pure part (`IsFatal`, `Basename`, `Check`) as functions;
  - lemmas on a single check and on any series of checks.
- `DriverSensor` (`driver_sensor.dfy`):
  - the function-pointer table of `ruuvi_driver_sensor_t`, as a map from slot to handler (`Unset` is a NULL pointer, `NotInitialized` the `_ni` stub, `Driver` the function init installs: the LIS2DH12 operation, or for the configuration_set/get slots the generic `ruuvi_driver_sensor_configuration_set/get`, modelled in `SensorConfiguration`);
  - the record as a class `Sensor`;
  - the registered clock as a class `TimestampSource`.
- `Lis2dh12Chip` (`lis2dh12_chip.dfy`):
  - the chip as an abstract register file that returns what was last written;
  - a `Hardware` oracle supplying, per bus transaction, the status, WHO_AM_I, FIFO level and raw samples;
  - a write lands only when its transaction reports success.
- `Lis2dh12Spec` (`lis2dh12_spec.dfy`): one state-transformer function per driver operation. Each maps the settings record `dev`, the register file, the transaction counter and the error record to a new state, a status and the values written back through the out-parameters.
- `Lis2dh12` (`lis2dh12.dfy`):
  - the driver as a class whose fields are the static `dev` record, bound to a `Chip`, an `ErrorState` and a `TimestampSource`;
  - every C function is a method that updates them step by step, proved equal to its specification function;
  - `fifo_read` fills the caller's array in a loop.
- `Lis2dh12Properties` (`lis2dh12_properties.dfy`): what the driver promises, over all inputs, stated on the specification functions.
- `SensorConfiguration` (`sensor_configuration.dfy`): `configuration_set` and `configuration_get`, dispatched through the slot table to the stubs or to the LIS2DH12 driver.
- `Lis2dh12AsWritten` (`lis2dh12_findings.dfy`): the two places listed under Findings, as written.

## Where the comments and the code disagree

The model follows the code in each case.

- **samplerate_set writes unconditionally.** The comment on `samplerate_set` (lines 251-254) says the rate is written to the chip only in continuous mode. The code writes it whenever the request is accepted (line 281). Since the setter runs only while asleep, a set in SLEEP still starts the chip sampling at the new rate (`SamplerateRoundTrip`).
- **activity_interrupt_use returns INVALID_PARAM.** The comment (line 946) promises INVALID_STATE for a limit beyond the scale. The code returns INVALID_PARAM (line 1012).
- **configuration_get checks the wrong slot.** It guards on the `samplerate_set` slot rather than `samplerate_get` (`ruuvi_driver_sensor.c:34`).
- **CUSTOM_3 comes back as MAX.** The comment at line 275 says CUSTOM_3 is the same rate as MAX, and both select the 5.376 kHz code (lines 265 and 276). samplerate_get reports that code as MAX (line 329), so a request of CUSTOM_3 is written back as MAX (`SamplerateSentinels`).
- **samplerate_get overwrites the stored rate.** It stores what it reads into `dev.samplerate` (line 296). Read while asleep, the stored rate becomes power-down, and a later CONTINUOUS keeps the chip stopped (`RateReadWhileAsleepIsLost`).

## Model

| member | source | states |
|---|---|---|
| DriverStatus.OrKeepsBits | ruuvi_driver_error.c:36 | OR-accumulation keeps the bits of both operands; the result is SUCCESS exactly when both are; SUCCESS is its identity |
| DriverStatus.OrAssociates | ruuvi_driver_error.c:36 | accumulating statuses may be regrouped |
| DriverStatus.OrIdempotent | ruuvi_driver_error.c:36 | accumulating the same status twice adds nothing |
| DriverError.IsFatal | ruuvi_driver_error.c:39 | fatal exactly when the error has a bit outside the non-fatal mask; SUCCESS is never fatal; with an empty mask every error is fatal; a FATAL bit under `~FATAL` is fatal |
| DriverError.LastIndexOf | ruuvi_driver_error.c:41-44 | strrchr: the index found holds the character and none after it does; None exactly when the character is absent |
| DriverError.Basename | ruuvi_driver_error.c:41-49 | the name is a suffix of the path: after the last '/' when there is one, else after the last '\\' when there is one, else the whole path |
| DriverError.CheckSuccessIsNoOp | ruuvi_driver_error.c:35 | checking SUCCESS changes neither the mask nor the callback list |
| DriverError.CheckAccumulates | ruuvi_driver_error.c:36 | a failing check ORs the error into the mask and keeps the callback |
| DriverError.CheckCallsBack | ruuvi_driver_error.c:72-75 | a failing check calls a registered callback exactly once with error, fatality, basename and line, and calls nothing when none is registered |
| DriverError.CheckAllAccumulates | ruuvi_driver_error.c:26-36 | after any series of checks the mask is the old mask OR every reported error, and the callback was called once per non-success report |
| DriverError.ErrorState.constructor | ruuvi_driver_error.c:26-29 | no errors and no callback at start-up |
| DriverError.ErrorState.ErrorCheck | ruuvi_driver_error.c:31-76 | the statics after `ruuvi_driver_error_check` are those `Check` gives |
| DriverError.ErrorState.ErrorsClear | ruuvi_driver_error.c:83-88 | returns the accumulated mask and resets it to SUCCESS, nothing else changes |
| DriverError.ErrorState.ErrorCbSet | ruuvi_driver_error.c:90-93 | registers the callback, nothing else changes |
| DriverError.ClearTwice | ruuvi_driver_error.c:83-88 | a second clear right after the first returns SUCCESS |
| DriverSensor.AllSlotsListed | ruuvi_driver_sensor.c:122-144 | the slot list covers every function pointer of the record |
| DriverSensor.Uniform | ruuvi_driver_sensor.c:122-144 | a table holding the same handler in every slot |
| DriverSensor.Stubs | ruuvi_driver_sensor.c:122-144 | every slot holds the not-initialised stub |
| DriverSensor.Sensor.constructor | ruuvi_driver_sensor.c:122-144 | a zeroed record: NULL slots, nothing provided, and an empty name standing for the NULL name (see Left out) |
| DriverSensor.Sensor.Initialize | ruuvi_driver_sensor.c:122-144 | name "NOTINIT", every slot the stub, provided set kept; is_init then reports the record not initialised |
| DriverSensor.Sensor.Uninitialize | ruuvi_driver_sensor.c:146-149 | the same record as initialising; is_init then reports it not initialised |
| DriverSensor.Sensor.Install | interfaces/acceleration/ruuvi_interface_lis2dh12.c:202-226 | a driver's name and functions installed, its quantities added; is_init then reports it initialised unless the name is the sentinel |
| DriverSensor.TimestampSource.constructor | ruuvi_driver_sensor.c:44 | no clock registered at start-up |
| DriverSensor.TimestampSource.FunctionSet | ruuvi_driver_sensor.c:46-51 | registers the clock and always returns SUCCESS; timestamp_get afterwards gives the clock's reading, or 0 when the clock was cleared |
| DriverSensor.TimestampSource.Get | ruuvi_driver_sensor.c:54-62 | 0 without a clock, the clock's reading with one |
| DriverSensor.RegisterThenGet | ruuvi_driver_sensor.c:46-62 | registering a clock then calling timestamp_get gives the clock's reading; clearing it gives 0 |
| DriverSensor.StubRecordIsNotInit | ruuvi_driver_sensor.c:64-67 | an initialised or uninitialised record is never reported as initialised, and every slot is the stub |
| Lis2dh12Chip.OperatingModeOf | interfaces/acceleration/ruuvi_interface_lis2dh12.c:372-400 | the operating mode read back is one of 8-, 10- or 12-bit |
| Lis2dh12Chip.OperatingModeRoundTrip | interfaces/acceleration/ruuvi_interface_lis2dh12.c:347-400 | writing an operating mode and reading it back gives the mode written |
| Lis2dh12Chip.Chip.Write | interfaces/acceleration/ruuvi_interface_lis2dh12.c:281 | one register write: its status is the bus reply; the register file changes only when the reply is SUCCESS |
| Lis2dh12Spec.Put | interfaces/acceleration/ruuvi_interface_lis2dh12.c:281 | a write transaction advances the counter by one and leaves `dev` and the error record alone |
| Lis2dh12Spec.ModeReport | interfaces/acceleration/ruuvi_interface_lis2dh12.c:625-645 | SUCCESS exactly for SLEEP and CONTINUOUS, which are reported as stored; anything else reports ERR_NOT_SUPPORTED with INTERNAL |
| Lis2dh12Spec.RateCode | interfaces/acceleration/ruuvi_interface_lis2dh12.c:263-277 | NO_CHANGE keeps the stored rate; 1..200 Hz gives the smallest supported rate at least the request; MIN and DEFAULT give 1 Hz; MAX and CUSTOM_3 give the rate samplerate_get reports as MAX; CUSTOM_1 and CUSTOM_2 give the rates reported as themselves; rejected exactly for 201..248 other than CUSTOM_1..3, and for SLEEP, SINGLE, CONTINUOUS and 254 |
| Lis2dh12Spec.RateReport | interfaces/acceleration/ruuvi_interface_lis2dh12.c:291-341 | a data-rate code reads back as its frequency; SUCCESS exactly for 1 Hz..5376 Hz; otherwise ERR_NOT_SUPPORTED with INTERNAL |
| Lis2dh12Spec.ResolutionCode | interfaces/acceleration/ruuvi_interface_lis2dh12.c:354-366 | NO_CHANGE keeps the stored mode; 1..12 bits gives the smallest supported resolution at least the request; MIN gives 8 bits, DEFAULT 10 and MAX 12; rejected exactly for 13..248 and the mode sentinels |
| Lis2dh12Spec.ResolutionReport | interfaces/acceleration/ruuvi_interface_lis2dh12.c:372-400 | 8/10/12 for the three operating modes; any other code reports ERR_INVALID with INTERNAL |
| Lis2dh12Spec.ScaleCode | interfaces/acceleration/ruuvi_interface_lis2dh12.c:412-429 | NO_CHANGE keeps the stored scale; 1..16 g gives the smallest supported scale at least the request; MIN and DEFAULT give 2 g and MAX 16 g; rejected exactly for 17..248 and the mode sentinels |
| Lis2dh12Spec.ScaleReport | interfaces/acceleration/ruuvi_interface_lis2dh12.c:435-466 | every 2-bit full-scale code reads back as 2, 4, 8 or 16 g with SUCCESS |
| Lis2dh12Spec.CutoffParameter | interfaces/acceleration/ruuvi_interface_lis2dh12.c:541-575 | dsp_get reports a high-pass cut-off as a parameter 0..3 |
| Lis2dh12Spec.HighPassCutoff | interfaces/acceleration/ruuvi_interface_lis2dh12.c:490-522 | accepted exactly for 0..3, MIN and MAX; the parameter written back is the one dsp_get then reports, and 0..3 are written back unchanged; MIN is the lightest cut-off written back as 0, MAX the strongest written back as 3 |
| Lis2dh12Spec.RawToMgSpec | interfaces/acceleration/ruuvi_interface_lis2dh12.c:690-799 | three values, one per axis (their content: `RawToMgPerAxis`) |
| Lis2dh12Spec.TemperatureLsb | interfaces/acceleration/ruuvi_interface_lis2dh12.c:654-681 | the two's-complement int16 with the second byte high and the first byte low, as at line 658 |
| Lis2dh12Spec.RawToCSpec | interfaces/acceleration/ruuvi_interface_lis2dh12.c:654-681 | SUCCESS exactly for a known resolution, and then the conversion for that resolution |
| Lis2dh12Spec.Reading | interfaces/acceleration/ruuvi_interface_lis2dh12.c:836-840 | four values, the temperature last |
| Lis2dh12Spec.SampleSpec | interfaces/acceleration/ruuvi_interface_lis2dh12.c:806-816 | three acceleration values (their content: `DataGetContinuous`) |
| Lis2dh12Spec.FifoCount | interfaces/acceleration/ruuvi_interface_lis2dh12.c:879-883 | the count is level + 1 or the capacity, whichever is smaller, and positive when the capacity is |
| Lis2dh12Spec.InG | interfaces/acceleration/ruuvi_interface_lis2dh12.c:901-904 | three values in g from three in mg |
| Lis2dh12Spec.FifoValues | interfaces/acceleration/ruuvi_interface_lis2dh12.c:894-912 | three values per FIFO sample |
| Lis2dh12Spec.FifoFilled | interfaces/acceleration/ruuvi_interface_lis2dh12.c:892-912 | filling keeps the caller's buffer length |
| Lis2dh12Spec.FifoFilledRecords | interfaces/acceleration/ruuvi_interface_lis2dh12.c:892-912 | record i of the first n holds sample i in g |
| Lis2dh12Spec.FifoFilledRest | interfaces/acceleration/ruuvi_interface_lis2dh12.c:892-912 | records beyond the first n are the caller's |
| Lis2dh12Spec.Stamped | interfaces/acceleration/ruuvi_interface_lis2dh12.c:886-887 | stamping keeps the buffer length; the first record is stamped only when a sample is read (the corrected behaviour of the second Findings row) |
| Lis2dh12Spec.Divisor | interfaces/acceleration/ruuvi_interface_lis2dh12.c:987-1008 | the threshold step is positive for every reported scale |
| Lis2dh12Spec.Threshold | interfaces/acceleration/ruuvi_interface_lis2dh12.c:1010 | the threshold code is at least 1 |
| Lis2dh12Spec.ThresholdRoundsUp | interfaces/acceleration/ruuvi_interface_lis2dh12.c:1010-1014 | t steps reach strictly beyond the limit and t - 1 steps do not |
| Lis2dh12Spec.AxisChange | interfaces/acceleration/ruuvi_interface_lis2dh12.c:80-85 | the absolute shifted difference is at most 512 |
| Lis2dh12Spec.SelftestVerdict | interfaces/acceleration/ruuvi_interface_lis2dh12.c:74-94 | INVALID_STATE unless 2 g and 10 bits; then SUCCESS exactly when every axis changed within [17, 360]; otherwise SELFTEST |
| Lis2dh12.Lis2dh12.constructor | interfaces/acceleration/ruuvi_interface_lis2dh12.c:59-69 | the static `dev` record starts zeroed |
| Lis2dh12.Lis2dh12.WriteReg | interfaces/acceleration/ruuvi_interface_lis2dh12.c:281 | one register write, as `Put` |
| Lis2dh12.Lis2dh12.ReadSample | interfaces/acceleration/ruuvi_interface_lis2dh12.c:810 | one raw sample read: the bus status and the oracle's sample, one transaction |
| Lis2dh12.Lis2dh12.ModeGet | interfaces/acceleration/ruuvi_interface_lis2dh12.c:625-645 | as `ModeGetSpec`: SUCCESS exactly for SLEEP and CONTINUOUS, reported as stored |
| Lis2dh12.Lis2dh12.VerifySensorSleeps | interfaces/acceleration/ruuvi_interface_lis2dh12.c:36-40 | the guard holds exactly when asleep |
| Lis2dh12.Lis2dh12.SamplerateGet | interfaces/acceleration/ruuvi_interface_lis2dh12.c:291-341 | the new state, status and rate written back are those of `SamplerateGetSpec` |
| Lis2dh12.Lis2dh12.SamplerateSet | interfaces/acceleration/ruuvi_interface_lis2dh12.c:256-286 | as `SamplerateSetSpec` (properties: `SettersRequireSleep`, `SamplerateRoundTrip`, `SamplerateSentinels`) |
| Lis2dh12.Lis2dh12.ResolutionGet | interfaces/acceleration/ruuvi_interface_lis2dh12.c:372-400 | as `ResolutionGetSpec` |
| Lis2dh12.Lis2dh12.ResolutionSet | interfaces/acceleration/ruuvi_interface_lis2dh12.c:347-370 | as `ResolutionSetSpec` (properties: `ResolutionRoundTrip`, `ResolutionSentinels`) |
| Lis2dh12.Lis2dh12.ScaleGet | interfaces/acceleration/ruuvi_interface_lis2dh12.c:435-466 | as `ScaleGetSpec` |
| Lis2dh12.Lis2dh12.ScaleSet | interfaces/acceleration/ruuvi_interface_lis2dh12.c:405-433 | as `ScaleSetSpec` (properties: `ScaleRoundTrip`, `ScaleSentinels`) |
| Lis2dh12.Lis2dh12.DspGet | interfaces/acceleration/ruuvi_interface_lis2dh12.c:541-575 | as `DspGetSpec` |
| Lis2dh12.Lis2dh12.DspSet | interfaces/acceleration/ruuvi_interface_lis2dh12.c:476-539 | as `DspSetSpec` (properties: `HighPassRoundTrip`, `HighPassSentinels`, `FilterOffRoundTrip`, `DspNoChangeReapplies`); a rejected cut-off writes back the sensor marker, the corrected behaviour of the first Findings row |
| Lis2dh12.Lis2dh12.ModeSet | interfaces/acceleration/ruuvi_interface_lis2dh12.c:577-623 | as `ModeSetSpec`, with the registered clock's reading as the single-sample time |
| Lis2dh12.Lis2dh12.RawToC | interfaces/acceleration/ruuvi_interface_lis2dh12.c:654-681 | as `RawToCSpec`; SUCCESS exactly for a known resolution |
| Lis2dh12.Lis2dh12.RawToMg | interfaces/acceleration/ruuvi_interface_lis2dh12.c:690-799 | the three values of `RawToMgSpec`; SUCCESS exactly for a known resolution |
| Lis2dh12.Lis2dh12.DataGet | interfaces/acceleration/ruuvi_interface_lis2dh12.c:801-849 | as `DataGetSpec`, stamped with the registered clock |
| Lis2dh12.Lis2dh12.Sample | interfaces/acceleration/ruuvi_interface_lis2dh12.c:806-816 | two transactions, registers untouched, results of `SampleSpec` |
| Lis2dh12.Lis2dh12.FifoUse | interfaces/acceleration/ruuvi_interface_lis2dh12.c:852-861 | as `FifoUseSpec`: FIFO enable and stream or bypass mode written, the second status returned |
| Lis2dh12.Lis2dh12.FifoInterruptUse | interfaces/acceleration/ruuvi_interface_lis2dh12.c:918-933 | as `FifoInterruptUseSpec`: watermark 31 and the watermark interrupt on pin 1 when enabling, CTRL_REG3 cleared otherwise |
| Lis2dh12.Lis2dh12.FifoRead | interfaces/acceleration/ruuvi_interface_lis2dh12.c:864-915 | registers, counter, status, count and the caller's array after the call are those of `FifoReadSpec`, which stamps the first record only when a sample is read (the corrected behaviour of the second Findings row) |
| Lis2dh12.Lis2dh12.StampAndRead | interfaces/acceleration/ruuvi_interface_lis2dh12.c:885-912 | the array is stamped (only when n > 0, the corrected behaviour of the second Findings row) and filled as `FifoFilled`, n transactions, status `FifoErr` |
| Lis2dh12.Lis2dh12.ReadInto | interfaces/acceleration/ruuvi_interface_lis2dh12.c:892-911 | one loop iteration fills record i and accumulates its statuses |
| Lis2dh12.Lis2dh12.ReadSamples | interfaces/acceleration/ruuvi_interface_lis2dh12.c:892-912 | the loop fills the first n records as `FifoFilled` with status `FifoErr` |
| Lis2dh12.Lis2dh12.ActivityInterruptUse | interfaces/acceleration/ruuvi_interface_lis2dh12.c:950-1024 | as `ActivityInterruptUseSpec` (properties: `ActivityLimitRoundsUp`, `ActivityConfigures`) |
| Lis2dh12.Lis2dh12.WriteActivity | interfaces/acceleration/ruuvi_interface_lis2dh12.c:1015-1023 | the four interrupt-generator writes, as `ActivityWrites` |
| Lis2dh12.Lis2dh12.VerifySelftestDifference | interfaces/acceleration/ruuvi_interface_lis2dh12.c:74-94 | the loop over three axes computes `SelftestVerdict` |
| Lis2dh12.Lis2dh12.Disable | interfaces/acceleration/ruuvi_interface_lis2dh12.c:131-135 | FIFO, FIFO interrupt and activity interrupt turned off, as `InitDisable` |
| Lis2dh12.Lis2dh12.WriteDefaults | interfaces/acceleration/ruuvi_interface_lis2dh12.c:136-153 | the self-test configuration, as `InitDefaults` |
| Lis2dh12.Lis2dh12.SelfTestDirection | interfaces/acceleration/ruuvi_interface_lis2dh12.c:155-174 | one direction of the self-test, as `SelfTestHalf` |
| Lis2dh12.Lis2dh12.SelfTestChecked | interfaces/acceleration/ruuvi_interface_lis2dh12.c:155-191 | one direction then the report to the error record, as `CheckedHalf` |
| Lis2dh12.Lis2dh12.RunSelfTest | interfaces/acceleration/ruuvi_interface_lis2dh12.c:154-198 | both directions and the end, as `InitSelfTest` |
| Lis2dh12.Lis2dh12.EndSelfTest | interfaces/acceleration/ruuvi_interface_lis2dh12.c:192-198 | self-test off and power down, both statuses kept, reported, as `SelfTestEnd` |
| Lis2dh12.Lis2dh12.PowerOnTest | interfaces/acceleration/ruuvi_interface_lis2dh12.c:131-198 | disable, defaults, self-test, as `Bringup` |
| Lis2dh12.Lis2dh12.Init | interfaces/acceleration/ruuvi_interface_lis2dh12.c:96-231 | the driver and the sensor record after init are those of `InitSpec` |
| Lis2dh12.Lis2dh12.Start | interfaces/acceleration/ruuvi_interface_lis2dh12.c:131-228 | init after WHO_AM_I matched, as `Found` |
| Lis2dh12.Lis2dh12.Uninit | interfaces/acceleration/ruuvi_interface_lis2dh12.c:237-248 | the driver and the sensor record after uninit are those of `UninitSpec` |
| Lis2dh12Properties.AsleepIffSleepMode | interfaces/acceleration/ruuvi_interface_lis2dh12.c:36-40 | the setters' guard holds exactly in SLEEP |
| Lis2dh12Properties.SettersRequireSleep | interfaces/acceleration/ruuvi_interface_lis2dh12.c:36-40 | outside SLEEP the four setters return INVALID_STATE and change nothing: no register, no setting, no out-parameter |
| Lis2dh12Properties.UnsupportedRequestChangesNothing | interfaces/acceleration/ruuvi_interface_lis2dh12.c:277 | a request a setter does not support returns NOT_SUPPORTED, writes back ERR_NOT_SUPPORTED and touches no register |
| Lis2dh12Properties.SamplerateRoundTrip | interfaces/acceleration/ruuvi_interface_lis2dh12.c:256-341 | for 1..200 Hz on a healthy bus: SUCCESS, the smallest supported rate at least the request is stored, written and reported, samplerate_get then reports the same, and nothing else changes |
| Lis2dh12Properties.ResolutionRoundTrip | interfaces/acceleration/ruuvi_interface_lis2dh12.c:347-400 | for 1..12 bits: the smallest supported resolution at least the request is stored, written and reported, resolution_get then reports the same, nothing else changes |
| Lis2dh12Properties.ScaleRoundTrip | interfaces/acceleration/ruuvi_interface_lis2dh12.c:405-466 | for 1..16 g: the smallest supported scale at least the request is stored, written and reported, scale_get then reports the same, nothing else changes |
| Lis2dh12Properties.HighPassRoundTrip | interfaces/acceleration/ruuvi_interface_lis2dh12.c:483-575 | high pass with parameter 0..3: SUCCESS, the parameter written back, dsp_get then reports the same setting, only cut-off, filter mode and output switch change |
| Lis2dh12Properties.FilterOffRoundTrip | interfaces/acceleration/ruuvi_interface_lis2dh12.c:476-533 | for every parameter, LAST (which is also DEFAULT) on a healthy bus gives SUCCESS, turns the output filter off and changes nothing else, and reports LAST with the parameter as given, or as dsp_get read it for NO_CHANGE; with NO_CHANGE the report is what dsp_get then reads |
| Lis2dh12Properties.SamplerateSentinels | interfaces/acceleration/ruuvi_interface_lis2dh12.c:256-341 | on a healthy bus: MIN and DEFAULT run at 1 Hz and report 1; MAX and CUSTOM_3 run at the 5.376 kHz code and both report MAX; CUSTOM_1 (400 Hz) and CUSTOM_2 (1.62 kHz) report themselves; samplerate_get agrees, and only the rate changes |
| Lis2dh12Properties.ResolutionSentinels | interfaces/acceleration/ruuvi_interface_lis2dh12.c:347-400 | on a healthy bus: MIN reports 8 bits, DEFAULT 10 and MAX 12; resolution_get agrees, and only the operating mode changes |
| Lis2dh12Properties.ScaleSentinels | interfaces/acceleration/ruuvi_interface_lis2dh12.c:405-466 | on a healthy bus: MIN and DEFAULT report 2 g and MAX 16 g; scale_get agrees, and only the full scale changes |
| Lis2dh12Properties.HighPassSentinels | interfaces/acceleration/ruuvi_interface_lis2dh12.c:483-575 | high pass with MIN or DEFAULT writes the lightest cut-off and reports 0; with MAX it writes the strongest and reports 3; dsp_get agrees, and only cut-off, filter mode and output switch change |
| Lis2dh12Properties.CutoffRoundTrip | interfaces/acceleration/ruuvi_interface_lis2dh12.c:490-575 | every cut-off the chip holds maps to a parameter that maps back to it |
| Lis2dh12Properties.DspNoChangeReapplies | interfaces/acceleration/ruuvi_interface_lis2dh12.c:481-489 | NO_CHANGE in both halves re-applies the current setting: it reports what dsp_get reads and the filter is as it was |
| Lis2dh12Properties.DspRejectsUnknownFunction | interfaces/acceleration/ruuvi_interface_lis2dh12.c:481-538 | an unknown filter function returns NOT_SUPPORTED after the read-back and writes nothing |
| Lis2dh12Properties.HighPassRejectsUnknownParameter | interfaces/acceleration/ruuvi_interface_lis2dh12.c:519-521 | an unknown cut-off parameter returns NOT_SUPPORTED with the rejection marker written back and no write |
| Lis2dh12Properties.SleepKeepsStoredRate | interfaces/acceleration/ruuvi_interface_lis2dh12.c:608-614 | SLEEP powers the chip down and stores SLEEP, but keeps the stored rate |
| Lis2dh12Properties.SleepThenContinuousResumes | interfaces/acceleration/ruuvi_interface_lis2dh12.c:608-619 | SLEEP then CONTINUOUS resumes sampling at the stored rate, and mode_get reports CONTINUOUS |
| Lis2dh12Properties.RateReadWhileAsleepIsLost | interfaces/acceleration/ruuvi_interface_lis2dh12.c:291-341 | SLEEP, samplerate_get, CONTINUOUS leaves the stored rate and the chip at power-down |
| Lis2dh12Properties.SingleShotForgetsRate | interfaces/acceleration/ruuvi_interface_lis2dh12.c:583-606 | SINGLE samples at 400 Hz, stamps the sample, reports SLEEP, keeps the mode, leaves the stored rate at power-down, so CONTINUOUS afterwards does not sample |
| Lis2dh12Properties.SingleShotRefusedWhileRunning | interfaces/acceleration/ruuvi_interface_lis2dh12.c:589-593 | SINGLE in CONTINUOUS returns INVALID_STATE, writes CONTINUOUS back and changes nothing |
| Lis2dh12Properties.ConversionSucceedsIff | interfaces/acceleration/ruuvi_interface_lis2dh12.c:654-799 | the conversions fail, with INTERNAL, exactly when the stored resolution is unknown |
| Lis2dh12Properties.RawToMgPerAxis | interfaces/acceleration/ruuvi_interface_lis2dh12.c:690-799 | each axis is converted with the stored scale and resolution, or every axis is the invalid float |
| Lis2dh12Properties.DataGetContinuous | interfaces/acceleration/ruuvi_interface_lis2dh12.c:801-849 | in CONTINUOUS on a healthy bus: SUCCESS, the clock's stamp, three axes in g and the temperature, two transactions, nothing else changes |
| Lis2dh12Properties.DataGetAsleep | interfaces/acceleration/ruuvi_interface_lis2dh12.c:820 | in SLEEP the record carries the single-sample time; while that is invalid the values are not populated |
| Lis2dh12Properties.DataGetUnknownMode | interfaces/acceleration/ruuvi_interface_lis2dh12.c:818-822 | an unknown stored mode reports INTERNAL as non-fatal at line 822, returns an error and leaves the record alone |
| Lis2dh12Properties.DataGetPopulatesOnlyOnSuccess | interfaces/acceleration/ruuvi_interface_lis2dh12.c:824-846 | values are never populated when something failed |
| Lis2dh12Properties.FifoUseConfigures | interfaces/acceleration/ruuvi_interface_lis2dh12.c:852-861 | only the second write's status is returned; on a healthy bus the FIFO is enabled exactly when asked, in dynamic-stream mode, otherwise bypass, and no other register changes |
| Lis2dh12Properties.FifoInterruptConfigures | interfaces/acceleration/ruuvi_interface_lis2dh12.c:918-933 | enabling sets watermark 31 and only the watermark interrupt on INT1, keeping both statuses; disabling clears CTRL_REG3; on a healthy bus nothing else changes |
| Lis2dh12Properties.FifoErrSucceeds | interfaces/acceleration/ruuvi_interface_lis2dh12.c:892-897 | the accumulated FIFO status is SUCCESS exactly when every read and every conversion succeeded |
| Lis2dh12Properties.FifoReadEmpty | interfaces/acceleration/ruuvi_interface_lis2dh12.c:873-877 | an empty FIFO gives 0 elements, SUCCESS and an untouched buffer |
| Lis2dh12Properties.FifoReadOutcome | interfaces/acceleration/ruuvi_interface_lis2dh12.c:879-914 | exactly min(level + 1, capacity) records filled with the samples in order, the first stamped, the rest untouched, that count written back; SUCCESS exactly on a healthy bus with a known resolution |
| Lis2dh12Properties.FifoSamplesFilled | interfaces/acceleration/ruuvi_interface_lis2dh12.c:885-912 | the records filled hold the samples in order, the first stamped, the rest the caller's |
| Lis2dh12Properties.ActivityLimitRoundsUp | interfaces/acceleration/ruuvi_interface_lis2dh12.c:985-1014 | the limit written back exceeds the request by more than zero and at most one step (exactly one step when the request is a multiple of the step); a threshold over 0x7F returns INVALID_PARAM after the scale read with no write |
| Lis2dh12Properties.ActivityConfigures | interfaces/acceleration/ruuvi_interface_lis2dh12.c:1015-1023 | on a healthy bus: high pass on generator 1, the threshold, the axis events and the routing to pin 2 are written, SUCCESS |
| Lis2dh12Properties.ActivityWritesLand | interfaces/acceleration/ruuvi_interface_lis2dh12.c:1015-1023 | the four writes change exactly those four registers |
| Lis2dh12Properties.PutLands | interfaces/acceleration/ruuvi_interface_lis2dh12.c:281 | an acknowledged write lands in the register file |
| Lis2dh12Properties.ActivityExample | interfaces/acceleration/ruuvi_interface_lis2dh12.c:978-1014 | at 2 g a limit of 0.02 g becomes threshold 2 and 0.032 g |
| Lis2dh12Properties.ActivityRefusesNegativeLimit | interfaces/acceleration/ruuvi_interface_lis2dh12.c:955 | a negative limit returns INVALID_PARAM and changes nothing |
| Lis2dh12Properties.InitDefaultsCalibrate | interfaces/acceleration/ruuvi_interface_lis2dh12.c:136-153 | init's defaults are 400 Hz, 2 g, 10 bits, the settings under which the self-test band applies |
| Lis2dh12Properties.SelfTestHalfVerdict | interfaces/acceleration/ruuvi_interface_lis2dh12.c:155-174 | one direction passes exactly when the status so far, the self-test-off write and the band on all three axes pass |
| Lis2dh12Properties.SelfTestEndPowersDown | interfaces/acceleration/ruuvi_interface_lis2dh12.c:192-198 | the end stores self-test off and power-down, and passes exactly when both writes do |
| Lis2dh12Properties.InitSelfTestVerdict | interfaces/acceleration/ruuvi_interface_lis2dh12.c:154-198 | the self-test passes exactly when every accumulated status is SUCCESS and both directions are in band; it always ends with self-test off and power-down stored |
| Lis2dh12Properties.InitRefusals | interfaces/acceleration/ruuvi_interface_lis2dh12.c:99-120 | a bound driver returns INVALID_STATE untouched; I2C returns NOT_IMPLEMENTED and other buses NOT_SUPPORTED, with only the record stubbed |
| Lis2dh12Properties.InitNotFoundStaysBound | interfaces/acceleration/ruuvi_interface_lis2dh12.c:122-129 | a WHO_AM_I mismatch returns NOT_FOUND but leaves the bus bound, so a second init returns INVALID_STATE |
| Lis2dh12Properties.InitFoundOutcome | interfaces/acceleration/ruuvi_interface_lis2dh12.c:131-231 | whatever the bus reports, the settings end at 2 g, 10 bits, power-down, self-test off, SLEEP, bound; the driver is installed exactly on SUCCESS, and then the chip is powered down and the error record untouched |
| Lis2dh12Properties.InitDisableKeepsSettings | interfaces/acceleration/ruuvi_interface_lis2dh12.c:131-135 | disabling touches only the stored scale |
| Lis2dh12Properties.UninitUnbinds | interfaces/acceleration/ruuvi_interface_lis2dh12.c:237-248 | uninit stubs the record, zeroes and unbinds the settings, and returns the power-down status |
| Lis2dh12Properties.RoundingExamples | interfaces/acceleration/ruuvi_interface_lis2dh12.c:254 | 5 Hz and 10 Hz both give 10 Hz; a FIFO of 10 read into 5 records fills 5 |
| SensorConfiguration.HandlerIn | ruuvi_driver_sensor.c:15 | a slot missing from the table is a NULL pointer |
| SensorConfiguration.SetupSpec | ruuvi_driver_sensor.c:18-23 | a setup call through a stub returns NOT_INITIALIZED and leaves the driver and the value alone |
| SensorConfiguration.DspSetupSpec | ruuvi_driver_sensor.c:22 | a DSP call through a stub returns NOT_INITIALIZED and leaves the driver and the value alone |
| SensorConfiguration.ConfigurationGuards | ruuvi_driver_sensor.c:13-15 | a NULL record or configuration returns NULL and a NULL samplerate_set INVALID_STATE, in both entry points, touching nothing |
| SensorConfiguration.StubbedRecordConfiguresNothing | ruuvi_driver_sensor.c:8-42 | through the stubs both entry points return NOT_INITIALIZED and change nothing |
| SensorConfiguration.ConfigurationGetReportsRegisters | ruuvi_driver_sensor.c:27-42 | with the LIS2DH12 installed, configuration_get reports what the registers hold; SUCCESS exactly for a known rate and mode |
| SensorConfiguration.ReadInstalled | ruuvi_driver_sensor.c:36-41 | the five getters in order, as above |
| SensorConfiguration.ReadSetupInstalled | ruuvi_driver_sensor.c:36-38 | rate, resolution and scale as the registers hold them |
| SensorConfiguration.ReadDspModeInstalled | ruuvi_driver_sensor.c:39-40 | filter and stored mode; only an unknown mode adds an error |
| SensorConfiguration.ApplySetupInstalled | ruuvi_driver_sensor.c:19-21 | rate, resolution and scale applied and written back rounded up |
| SensorConfiguration.ApplyDspModeInstalled | ruuvi_driver_sensor.c:22-23 | high pass and CONTINUOUS applied, the parameter written back |
| SensorConfiguration.ConfigurationSetInstalled | ruuvi_driver_sensor.c:8-25 | puts the sensor to sleep first, so supported requests succeed from any mode; values written back are at least the requests and are what the registers show |
| SensorConfiguration.ConfigurationRoundTrip | ruuvi_driver_sensor.c:8-42 | configuration_get after configuration_set reads back exactly what configuration_set wrote back |
| SensorConfiguration.Configuration.constructor | ruuvi_driver_sensor.c:8-9 | a configuration record with the given fields |
| SensorConfiguration.Setup | ruuvi_driver_sensor.c:18-23 | one call through a slot, as `SetupSpec` |
| SensorConfiguration.DspSetup | ruuvi_driver_sensor.c:22 | the DSP call through a slot, as `DspSetupSpec` |
| SensorConfiguration.ConfigurationSet | ruuvi_driver_sensor.c:8-25 | the driver, status and configuration after the call are those of `ConfigurationSetSpec` |
| SensorConfiguration.Apply | ruuvi_driver_sensor.c:19-23 | the five setters in order, as `ApplySpec` |
| SensorConfiguration.ApplySetup | ruuvi_driver_sensor.c:19-21 | as `ApplySetupSpec` |
| SensorConfiguration.ApplyDspMode | ruuvi_driver_sensor.c:22-23 | as `ApplyDspModeSpec` |
| SensorConfiguration.ConfigurationGet | ruuvi_driver_sensor.c:27-42 | the driver, status and configuration after the call are those of `ConfigurationGetSpec` |
| SensorConfiguration.Read | ruuvi_driver_sensor.c:36-40 | the five getters in order, as `ReadSpec` |
| SensorConfiguration.ReadSetup | ruuvi_driver_sensor.c:36-38 | as `ReadSetupSpec` |
| SensorConfiguration.ReadDspMode | ruuvi_driver_sensor.c:39-40 | as `ReadDspModeSpec` |
| Lis2dh12AsWritten.RejectedParameterAsWritten | interfaces/acceleration/ruuvi_interface_lis2dh12.c:520 | the status NOT_SUPPORTED stored into a byte is 8 |
| Lis2dh12AsWritten.RejectedParameterIsAmbiguous | interfaces/acceleration/ruuvi_interface_lis2dh12.c:520 | that byte is not the marker, and scale_set and resolution_set accept it as 8 g and 8 bits |
| Lis2dh12AsWritten.RejectedParameterIsUnambiguous | interfaces/acceleration/ruuvi_interface_lis2dh12.c:277 | the corrected marker is refused by every setter and by the cut-off choice |
| Lis2dh12AsWritten.FifoReadAsWritten | interfaces/acceleration/ruuvi_interface_lis2dh12.c:864-915 | as written, a non-empty FIFO always stamps the first record |
| Lis2dh12AsWritten.FifoReadStampsBeyondCapacity | interfaces/acceleration/ruuvi_interface_lis2dh12.c:883-887 | with capacity 0 and samples waiting, as written reports 0 elements yet changes record 0; the corrected read leaves the buffer alone |
| Lis2dh12AsWritten.FifoReadAgreesWithCapacity | interfaces/acceleration/ruuvi_interface_lis2dh12.c:864-915 | for a positive capacity the two agree |

## Left out

- The STM register library (`lis2dh12_*_set/get`), the SPI transport and `ruuvi_interface_delay_ms` are not part of this model. The chip is an abstract register file in which each call is one bus transaction with an oracle status; delays are dropped.
- Which bit patterns the library writes to CTRL_REG4, INT1_CFG and so on: the register file stores the field values the driver asks for.
- The floating-point conversions `lis2dh12_from_*_to_mg/celsius`, the mg-to-g division and `ruuvi_driver_sensor_data_populate` are uninterpreted values (`Mg`, `Celsius`, `G`). Only the choice of conversion and the INTERNAL / invalid-float fallback are modelled. The activity threshold is computed over exact rationals; float rounding is not modelled.
- Lis2dh12Spec.Threshold: does not model the overflow of the `uint32_t` cast for limits beyond 2^32 steps, because the float-to-integer conversion is undefined there.
- The log messages of `ruuvi_driver_error_check` (the comment at line 51 mentions a reset on a fatal error, which the code does not perform): only the mask, the fatality and the callback invocation are modelled, not the logging or the callback's own effects.
- Hardware inputs (WHO_AM_I, FIFO level, raw samples, bus statuses) and the clock's reading are parameters (oracles), not computed.
- `configuration_set/get` are modelled for records whose slots hold the stubs or the LIS2DH12 functions. Another driver's functions are not modelled. A call through a NULL slot other than `samplerate_set` is undefined behaviour in C, and the `requires` of `ConfigurationSetSpec` and `ConfigurationGetSpec` excludes it.
- Calls on an unbound driver. `dev` starts zeroed (lines 59-69), so its register-access pointers stay NULL until init binds the SPI functions (lines 111-112). The I2C branch returns before binding them (line 116), and uninit's memset clears them again (line 246). A call that reaches the register library before a successful bind therefore calls through a NULL pointer, which is undefined behaviour in C. This affects uninit, mode_set, data_get, the getters and setters, fifo_*, and activity_interrupt_use. The model does not check `dev.bound` in these specifications (`Put`, `ModeSetSpec`, `UninitSpec` and the rest); it gives such calls oracle replies like any other transaction. Lemmas such as `UninitUnbinds` and `SleepKeepsStoredRate` therefore also state outcomes for an unbound driver, where C promises none. Only `InitSpec` tests the binding.
- `uninit`'s `bus` and `handle` arguments are unused by the code and are ignored.
- The header constants (sentinel bytes such as CFG_MIN..CFG_CONTINUOUS = 249..253, status bits, STM register codes) are not in the sources modelled. The values used are those of ojousima/ruuvi.drivers.c's `ruuvi_driver_sensor.h` and `ruuvi_driver_error.h` and of ST's `lis2dh12_reg.h` as shipped with it; the exact release is not recorded here. CFG_DEFAULT = 0 agrees with the comment at line 494 of the driver.
- The BME280 I2C wrapper, the atomic flag and the nRF5 power and bootloader code are outside this model.
- constructor (`DriverSensor.Sensor.constructor`): a zero-initialised C record has a NULL name, and is_init would then call strcmp on NULL, which is undefined behaviour. The model gives the zeroed record an empty name instead, which `IsInit` reports as initialised.
- DspSet (`Lis2dh12.Lis2dh12.DspSet`) and `Lis2dh12Spec.DspSetSpec`: model the corrected behaviour of the first Findings row. A rejected high-pass parameter is written back as the sensor marker (0xE2), not as the 8 that line 520 stores; `Lis2dh12AsWritten.RejectedParameterAsWritten` models line 520 as written.
- FifoRead (`Lis2dh12.Lis2dh12.FifoRead`) and `Lis2dh12Spec.FifoReadSpec`: model the corrected behaviour of the second Findings row. With a capacity of 0 and a non-empty FIFO they leave the first record alone, where line 886 stamps it; `Lis2dh12AsWritten.FifoReadAsWritten` models line 886 as written.
- StampAndRead (`Lis2dh12.Lis2dh12.StampAndRead`): stamps the first record only when n > 0, the corrected behaviour of the second Findings row (line 886 stamps unconditionally).
- Stamped (`Lis2dh12Spec.Stamped`): leaves the records alone when n == 0, the corrected behaviour of the second Findings row (line 886 stamps unconditionally).

## Findings

| source | as written | input that shows it | evidently intended | confidence | as-written member | corrected member |
|---|---|---|---|---|---|---|
| interfaces/acceleration/ruuvi_interface_lis2dh12.c:520 | dsp_set writes the driver status `RUUVI_DRIVER_ERROR_NOT_SUPPORTED`, cut to a byte (8), into a rejected high-pass parameter | dsp_set(HIGH_PASS, 7) while asleep writes back 8, a value scale_set and resolution_set accept | the sensor marker `RUUVI_DRIVER_SENSOR_ERR_NOT_SUPPORTED`, as every other setter writes (line 277) | not executed; medium (the status value comes from the library's header) | Lis2dh12AsWritten.RejectedParameterIsAmbiguous | Lis2dh12Properties.HighPassRejectsUnknownParameter |
| interfaces/acceleration/ruuvi_interface_lis2dh12.c:883-887 | fifo_read stamps `p_data[0]` whenever the FIFO is not empty, even when the caller's capacity is 0 and no element is read | `*num_elements == 0` with a FIFO level of 3: it returns 0 elements but writes the first record, which may not exist | stamp the first record only when at least one element is read | not executed; medium | Lis2dh12AsWritten.FifoReadStampsBeyondCapacity | Lis2dh12Properties.FifoReadOutcome |
