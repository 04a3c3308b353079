/**
 * The generic sensor record of ruuvi_driver_sensor.c: a name, a table of
 * operation slots and the set of quantities the sensor provides; the
 * "not initialised" stubs installed in every slot; and the process-wide
 * timestamp source. Also the configuration sentinels every driver
 * understands.
 */
module DriverSensor {
  import opened Types
  import opened DriverStatus

  /** Configuration sentinels: a value request may be one of these instead of a number. */
  const CFG_DEFAULT: Byte := 0
  const CFG_CUSTOM_1: Byte := 0xC9
  const CFG_CUSTOM_2: Byte := 0xCA
  const CFG_CUSTOM_3: Byte := 0xCB
  const CFG_MIN: Byte := 249
  const CFG_MAX: Byte := 250
  const CFG_SLEEP: Byte := 251
  const CFG_SINGLE: Byte := 252
  const CFG_CONTINUOUS: Byte := 253
  const CFG_NO_CHANGE: Byte := 255

  /** Values written back when a request or a register cannot be represented. */
  const ERR_INVALID: Byte := 0xE0
  const ERR_NOT_SUPPORTED: Byte := 0xE2

  /** Digital signal processing functions. */
  const DSP_LAST: Byte := 0
  const DSP_HIGH_PASS: Byte := 4

  /** The name that marks a record whose slots hold only the not-initialised stubs. */
  const NOTINIT_NAME: string := "NOTINIT"

  /** The bus a driver is asked to use. */
  datatype Bus = NoBus | Spi | I2c | Uart | Platform

  /** The operation slots of a sensor record. */
  datatype Slot =
    | Init | Uninit
    | SamplerateSet | SamplerateGet
    | ResolutionSet | ResolutionGet
    | ScaleSet | ScaleGet
    | DspSet | DspGet
    | ModeSet | ModeGet
    | DataGet
    | ConfigurationSet | ConfigurationGet
    | FifoEnable | FifoInterruptEnable | FifoRead
    | LevelInterruptSet

  /** Every slot of the record. */
  const ALL_SLOTS: set<Slot> :=
    {Init, Uninit, SamplerateSet, SamplerateGet, ResolutionSet, ResolutionGet, ScaleSet, ScaleGet,
     DspSet, DspGet, ModeSet, ModeGet, DataGet, ConfigurationSet, ConfigurationGet,
     FifoEnable, FifoInterruptEnable, FifoRead, LevelInterruptSet}

  /** ALL_SLOTS lists every slot. */
  lemma AllSlotsListed(s: Slot)
    ensures s in ALL_SLOTS
  {
    match s
    case Init => case Uninit =>
    case SamplerateSet => case SamplerateGet =>
    case ResolutionSet => case ResolutionGet =>
    case ScaleSet => case ScaleGet =>
    case DspSet => case DspGet =>
    case ModeSet => case ModeGet =>
    case DataGet =>
    case ConfigurationSet => case ConfigurationGet =>
    case FifoEnable => case FifoInterruptEnable => case FifoRead =>
    case LevelInterruptSet =>
  }

  /** A slot table holding `h` in every slot. */
  function Uniform(h: Handler): (handlers: map<Slot, Handler>)
    ensures forall s: Slot :: s in handlers && handlers[s] == h
  {
    forall s: Slot ensures s in ALL_SLOTS {
      AllSlotsListed(s);
    }
    map s | s in ALL_SLOTS :: h
  }

  /**
   * What a slot holds: nothing (a NULL pointer), the not-initialised stub, or
   * the function a concrete driver installs for that slot. For the
   * configuration_set and configuration_get slots that is the generic
   * ruuvi_driver_sensor_configuration_set/get, which calls back into the
   * other slots.
   */
  datatype Handler = Unset | NotInitialized | Driver

  /** The quantities a sensor can declare that it provides. */
  datatype Quantity = AccelerationX | AccelerationY | AccelerationZ | Temperature

  /** The value of a sensor record, for specifications. */
  datatype Record = Record(name: string, handlers: map<Slot, Handler>, provided: set<Quantity>)

  /** Every slot holds the not-initialised stub. */
  predicate AllStubs(handlers: map<Slot, Handler>)
  {
    forall s: Slot :: s in handlers && handlers[s] == NotInitialized
  }

  /** The slot table that ruuvi_driver_sensor_initialize installs. */
  function Stubs(): (handlers: map<Slot, Handler>)
    ensures AllStubs(handlers)
  {
    Uniform(NotInitialized)
  }

  /** The status every not-initialised stub returns, whatever its arguments. */
  const STUB_RESULT: Status := ERROR_NOT_INITIALIZED

  /** ruuvi_driver_sensor_is_init: the record's name differs from the sentinel name. */
  predicate IsInit(r: Record)
  {
    r.name != NOTINIT_NAME
  }

  /** A sensor record, updated in place by the driver that owns it. */
  class Sensor {
    var name: string
    var handlers: map<Slot, Handler>
    var provided: set<Quantity>

    ghost function View(): Record
      reads this
    {
      Record(name, handlers, provided)
    }

    /** A zero-initialised record: no name, every slot NULL, nothing provided. */
    constructor ()
      ensures View() == Record("", Uniform(Unset), {})
    {
      name, handlers, provided := "", Uniform(Unset), {};
    }

    /**
     * ruuvi_driver_sensor_initialize: the sentinel name and a stub in every
     * slot; what the record declares it provides is left as it was.
     */
    method Initialize()
      modifies this
      ensures View() == Record(NOTINIT_NAME, Stubs(), old(provided))
      ensures !IsInit(View()) && AllStubs(handlers)
    {
      name := NOTINIT_NAME;
      handlers := Stubs();
    }

    /** ruuvi_driver_sensor_uninitialize: the same as initialising. */
    method Uninitialize()
      modifies this
      ensures View() == Record(NOTINIT_NAME, Stubs(), old(provided))
      ensures !IsInit(View()) && AllStubs(handlers)
    {
      Initialize();
    }

    /** Install a concrete driver: its name, its functions and the quantities it provides. */
    method Install(driverName: string, installed: map<Slot, Handler>, quantities: set<Quantity>)
      modifies this
      ensures View() == Record(driverName, installed, old(provided) + quantities)
      ensures IsInit(View()) <==> driverName != NOTINIT_NAME
    {
      name, handlers, provided := driverName, installed, provided + quantities;
    }
  }

  /** Identity of an application function registered as the millisecond clock. */
  datatype Clock = Clock(id: nat)

  /**
   * ruuvi_driver_sensor_timestamp_get, with `now` standing for what the
   * registered clock returns when called.
   */
  function TimestampValue(millis: Option<Clock>, now: Timestamp): (t: Timestamp)
    ensures millis.None? ==> t == 0
    ensures millis.Some? ==> t == now
  {
    if millis.None? then 0 else now
  }

  /** The process-wide registered clock. */
  class TimestampSource {
    var millis: Option<Clock>

    /** No clock registered at start-up. */
    constructor ()
      ensures millis == None
    {
      millis := None;
    }

    /** ruuvi_driver_sensor_timestamp_function_set: register (or with None clear) the clock. */
    method FunctionSet(clock: Option<Clock>) returns (err: Status)
      modifies this
      ensures millis == clock && err == SUCCESS
      ensures forall now: Timestamp :: TimestampValue(millis, now) == if clock.Some? then now else 0
    {
      millis := clock;
      err := SUCCESS;
    }

    /** ruuvi_driver_sensor_timestamp_get */
    method Get(now: Timestamp) returns (t: Timestamp)
      ensures t == TimestampValue(millis, now)
      ensures millis.None? ==> t == 0
      ensures millis.Some? ==> t == now
    {
      if millis.None? {
        return 0;
      }
      t := now;
    }
  }

  /**
   * Once a clock is registered, timestamp_get returns what the clock reads;
   * once it is cleared, timestamp_get returns 0.
   */
  method RegisterThenGet(source: TimestampSource, clock: Option<Clock>, now: Timestamp) returns (err: Status, t: Timestamp)
    modifies source
    ensures err == SUCCESS && source.millis == clock
    ensures clock.Some? ==> t == now
    ensures clock.None? ==> t == 0
  {
    err := source.FunctionSet(clock);
    t := source.Get(now);
  }

  /** A record that has been initialised, or uninitialised, is never reported as initialised. */
  lemma StubRecordIsNotInit(provided: set<Quantity>)
    ensures !IsInit(Record(NOTINIT_NAME, Stubs(), provided))
    ensures forall s: Slot :: Stubs()[s] == NotInitialized
  {
  }
}
