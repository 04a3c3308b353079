/**
 * Two places where the LIS2DH12 driver, as written, does something its own
 * conventions evidently did not intend. Each is modelled here as written,
 * with an input that exhibits the difference; the rest of the model uses
 * the corrected behaviour of Lis2dh12Spec, whose properties are proved there
 * and in Lis2dh12Properties.
 */
module Lis2dh12AsWritten {
  import opened Types
  import opened DriverStatus
  import opened DriverSensor
  import opened Lis2dh12Chip
  import opened Lis2dh12Spec
  import opened Lis2dh12Properties

  // ------------------------------------ dsp_set's rejected parameter

  /**
   * A status stored into a uint8_t out-parameter: C keeps the low byte.
   */
  function LowByte(st: Status): Byte
  {
    st as int % 0x100
  }

  /**
   * What dsp_set, as written, stores into the parameter it rejects: the
   * driver status NOT_SUPPORTED cut to a byte, instead of the sensor-level
   * NOT_SUPPORTED marker the other setters use.
   */
  function RejectedParameterAsWritten(): (b: Byte)
    ensures b == 8
  {
    LowByte(ERROR_NOT_SUPPORTED)
  }

  /**
   * The byte written back as written is 8: not the marker, and a request
   * the scale and resolution setters accept (8 g, 8 bits), so a caller
   * cannot tell the rejection from a setting.
   */
  lemma RejectedParameterIsAmbiguous(fs: Bits2, mode: Bits2)
    ensures RejectedParameterAsWritten() == 8 && RejectedParameterAsWritten() != ERR_NOT_SUPPORTED
    ensures ScaleCode(RejectedParameterAsWritten(), fs) == Some(FS_8G)
    ensures ResolutionCode(RejectedParameterAsWritten(), mode) == Some(LP_8BIT)
  {
  }

  /**
   * The corrected marker is refused by every setter and by the high-pass
   * cut-off choice, so it cannot be mistaken for a setting.
   */
  lemma RejectedParameterIsUnambiguous(odr: Bits4, fs: Bits2, mode: Bits2)
    ensures REJECTED_PARAMETER == ERR_NOT_SUPPORTED
    ensures RateCode(REJECTED_PARAMETER, odr).None? && ScaleCode(REJECTED_PARAMETER, fs).None?
    ensures ResolutionCode(REJECTED_PARAMETER, mode).None? && HighPassCutoff(REJECTED_PARAMETER).None?
  {
  }

  // ------------------------------------- fifo_read's first timestamp

  /**
   * fifo_read as written: once the FIFO is not empty, the first record is
   * stamped whatever the caller's capacity, so the caller must always pass
   * at least one record.
   */
  function FifoReadAsWritten(hw: Hardware, s: State, capacity: nat, buffer: seq<SensorData>, stamp: Timestamp)
    : (r: Step<(Option<nat>, Option<seq<SensorData>>)>)
    requires 0 < |buffer| && capacity <= |buffer|
    ensures r.out.1.Some? && |r.out.1.value| == |buffer|
    ensures hw.fifoLevel(s.tick) > 0 ==> r.out.1.value[0].timestampMs == stamp
  {
    var level := hw.fifoLevel(s.tick);
    var s1 := Tick(s);
    if level == 0 then Step(s1, SUCCESS, (Some(0), Some(buffer)))
    else
      var n := FifoCount(level, capacity);
      var stamped := buffer[0 := buffer[0].(timestampMs := stamp)];
      var filled := FifoFilled(hw, s.dev, stamped, s1.tick, n);
      assert filled[0].timestampMs == stamp by {
        if n > 0 {
          FifoFilledRecords(hw, s.dev, stamped, s1.tick, n, 0);
        } else {
          FifoFilledRest(hw, s.dev, stamped, s1.tick, n, 0);
        }
      }
      Step(s1.(tick := s1.tick + n), FifoErr(hw, s.dev, Reply(hw, s), s1.tick, n), (Some(n), Some(filled)))
  }

  /**
   * With a capacity of 0 and samples waiting, fifo_read as written reports
   * 0 elements read yet changes the first record, which the caller did not
   * hand over; the corrected fifo_read leaves it alone.
   */
  lemma FifoReadStampsBeyondCapacity(hw: Hardware, s: State, buffer: seq<SensorData>, stamp: Timestamp)
    requires 0 < |buffer| && hw.fifoLevel(s.tick) > 0 && buffer[0].timestampMs != stamp
    ensures var r := FifoReadAsWritten(hw, s, 0, buffer, stamp);
            r.out.0 == Some(0) && r.out.1.value[0] != buffer[0]
    ensures var r := FifoReadSpec(hw, s, Some(0), Some(buffer), stamp);
            r.out.0 == Some(0) && r.out.1 == Some(buffer)
  {
    FifoReadOutcome(hw, s, 0, buffer, stamp);
    assert FifoReadSpec(hw, s, Some(0), Some(buffer), stamp).out.1.value == buffer;
  }

  /** Whenever the caller hands over at least one record, the two agree. */
  lemma FifoReadAgreesWithCapacity(hw: Hardware, s: State, capacity: nat, buffer: seq<SensorData>, stamp: Timestamp)
    requires 0 < capacity <= |buffer|
    ensures FifoReadAsWritten(hw, s, capacity, buffer, stamp) == FifoReadSpec(hw, s, Some(capacity), Some(buffer), stamp)
  {
  }
}
