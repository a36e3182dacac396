/**
 * Drone error report (ErrorData.java): two raw 32-bit masks, one for
 * sensor errors and one for state errors, and the flag sets decoded from
 * them. The flag tables are the `ErrorFlagsForSensor` and
 * `ErrorFlagsForState` enums of DroneSystem.java.
 */
module ErrorReports {
  import opened Common

  datatype SensorFlag =
    | SensorNone
    | MotionNoAnswer | MotionWrongValue | MotionNotCalibrated | MotionCalibrating
    | PressureNoAnswer | PressureWrongValue
    | RangeGroundNoAnswer | RangeGroundWrongValue
    | FlowNoAnswer | FlowWrongValue | FlowCannotRecognizeGroundImage

  datatype StateFlag =
    | StateNone
    | NotRegistered | FlashReadLockUnlocked | BootloaderWriteLockUnlocked | LowBattery
    | TakeoffFailureCheckPropellerAndMotor | CheckPropellerVibration | AttitudeNotStable
    | CannotFlipLowBattery | CannotFlipTooHeavy

  /** `ErrorFlagsForSensor.getValue()`. */
  function SensorValue(f: SensorFlag): bv32
  {
    match f
    case SensorNone => 0x0
    case MotionNoAnswer => 0x1
    case MotionWrongValue => 0x2
    case MotionNotCalibrated => 0x4
    case MotionCalibrating => 0x8
    case PressureNoAnswer => 0x10
    case PressureWrongValue => 0x20
    case RangeGroundNoAnswer => 0x100
    case RangeGroundWrongValue => 0x200
    case FlowNoAnswer => 0x1000
    case FlowWrongValue => 0x2000
    case FlowCannotRecognizeGroundImage => 0x4000
  }

  /** `ErrorFlagsForState.getValue()`. */
  function StateValue(f: StateFlag): bv32
  {
    match f
    case StateNone => 0x0
    case NotRegistered => 0x1
    case FlashReadLockUnlocked => 0x2
    case BootloaderWriteLockUnlocked => 0x4
    case LowBattery => 0x8
    case TakeoffFailureCheckPropellerAndMotor => 0x10
    case CheckPropellerVibration => 0x20
    case AttitudeNotStable => 0x40
    case CannotFlipLowBattery => 0x100
    case CannotFlipTooHeavy => 0x200
  }

  /** `ErrorFlagsForSensor.values()`, in declaration order. */
  const SENSOR_FLAGS: seq<SensorFlag> := [
    SensorNone, MotionNoAnswer, MotionWrongValue, MotionNotCalibrated, MotionCalibrating,
    PressureNoAnswer, PressureWrongValue, RangeGroundNoAnswer, RangeGroundWrongValue,
    FlowNoAnswer, FlowWrongValue, FlowCannotRecognizeGroundImage]

  /** `ErrorFlagsForState.values()`, in declaration order. */
  const STATE_FLAGS: seq<StateFlag> := [
    StateNone, NotRegistered, FlashReadLockUnlocked, BootloaderWriteLockUnlocked, LowBattery,
    TakeoffFailureCheckPropellerAndMotor, CheckPropellerVibration, AttitudeNotStable,
    CannotFlipLowBattery, CannotFlipTooHeavy]

  lemma SensorFlagsComplete(f: SensorFlag)
    ensures f in SENSOR_FLAGS
  {
  }

  lemma StateFlagsComplete(f: StateFlag)
    ensures f in STATE_FLAGS
  {
  }

  /** `(flags & f.getValue()) != 0`. */
  predicate SensorSet(flags: int, f: SensorFlag)
    requires IsInt(flags)
  {
    IntBits(flags) & SensorValue(f) != 0
  }

  predicate StateSet(flags: int, f: StateFlag)
    requires IsInt(flags)
  {
    IntBits(flags) & StateValue(f) != 0
  }

  /** The bits some sensor flag stands for. */
  const KNOWN_SENSOR_BITS: bv32 := 0x733F
  /** The bits some state flag stands for. */
  const KNOWN_STATE_BITS: bv32 := 0x37F

  /** `parseSensorErrors(flags)`: every flag whose value shares a bit with the mask. */
  method ParseSensorErrors(flags: int) returns (errors: set<SensorFlag>)
    requires IsInt(flags)
    ensures forall f :: f in errors <==> SensorSet(flags, f)
  {
    errors := {};
    for i := 0 to |SENSOR_FLAGS|
      invariant forall f :: f in errors <==> f in SENSOR_FLAGS[..i] && SensorSet(flags, f)
    {
      var error := SENSOR_FLAGS[i];
      if SensorSet(flags, error) {
        errors := errors + {error};
      }
      assert SENSOR_FLAGS[..i + 1] == SENSOR_FLAGS[..i] + [error];
    }
    assert SENSOR_FLAGS[..|SENSOR_FLAGS|] == SENSOR_FLAGS;
    forall f ensures f in SENSOR_FLAGS { SensorFlagsComplete(f); }
  }

  /** `parseStateErrors(flags)`. */
  method ParseStateErrors(flags: int) returns (errors: set<StateFlag>)
    requires IsInt(flags)
    ensures forall f :: f in errors <==> StateSet(flags, f)
  {
    errors := {};
    for i := 0 to |STATE_FLAGS|
      invariant forall f :: f in errors <==> f in STATE_FLAGS[..i] && StateSet(flags, f)
    {
      var error := STATE_FLAGS[i];
      if StateSet(flags, error) {
        errors := errors + {error};
      }
      assert STATE_FLAGS[..i + 1] == STATE_FLAGS[..i] + [error];
    }
    assert STATE_FLAGS[..|STATE_FLAGS|] == STATE_FLAGS;
    forall f ensures f in STATE_FLAGS { StateFlagsComplete(f); }
  }

  /**
   * An error report. The raw masks are kept as given, unknown bits
   * included; the sets hold the decoded flags.
   */
  datatype ErrorData = ErrorData(
    timestampMillis: int,
    sensorErrorFlags: int,
    stateErrorFlags: int,
    sensorErrors: set<SensorFlag>,
    stateErrors: set<StateFlag>)

  /** The decoded sets agree with the raw masks. */
  predicate Decoded(e: ErrorData)
  {
    && IsInt(e.sensorErrorFlags) && IsInt(e.stateErrorFlags)
    && (forall f :: f in e.sensorErrors <==> SensorSet(e.sensorErrorFlags, f))
    && (forall f :: f in e.stateErrors <==> StateSet(e.stateErrorFlags, f))
  }

  /** Java's `(int) x` on a finite double: truncation, saturating at the `int` bounds. */
  function DoubleToInt(x: real): (r: int)
    ensures IsInt(r)
    ensures x <= INT_MIN as real ==> r == INT_MIN
    ensures x >= INT_MAX as real ==> r == INT_MAX
    ensures INT_MIN as real <= x <= INT_MAX as real ==> r == Truncate(x)
  {
    var t := Truncate(x);
    if t < INT_MIN then INT_MIN else if t > INT_MAX then INT_MAX else t
  }

  /** `new ErrorData(timestampSeconds, sensorErrorFlags, stateErrorFlags)`. */
  method Create(timestampSeconds: real, sensorErrorFlags: int, stateErrorFlags: int) returns (e: ErrorData)
    requires IsInt(sensorErrorFlags) && IsInt(stateErrorFlags)
    ensures Decoded(e)
    ensures e.sensorErrorFlags == sensorErrorFlags && e.stateErrorFlags == stateErrorFlags
    ensures e.timestampMillis == Truncate(timestampSeconds * 1000.0)
  {
    var sensorErrors := ParseSensorErrors(sensorErrorFlags);
    var stateErrors := ParseStateErrors(stateErrorFlags);
    e := ErrorData(Truncate(timestampSeconds * 1000.0), sensorErrorFlags, stateErrorFlags, sensorErrors, stateErrors);
  }

  /** `fromArray(errorArray)`: null unless there are exactly three entries; the masks are cast to `int`. */
  method FromArray(errorArray: Option<seq<real>>) returns (r: Option<ErrorData>)
    ensures r.Some? <==> errorArray.Some? && |errorArray.value| == 3
    ensures r.Some? ==> Decoded(r.value)
    ensures r.Some? ==> r.value.sensorErrorFlags == DoubleToInt(errorArray.value[1])
    ensures r.Some? ==> r.value.stateErrorFlags == DoubleToInt(errorArray.value[2])
  {
    if errorArray.None? || |errorArray.value| != 3 {
      return None;
    }
    var a := errorArray.value;
    var e := Create(a[0], DoubleToInt(a[1]), DoubleToInt(a[2]));
    r := Some(e);
  }

  predicate HasSensorError(e: ErrorData, f: SensorFlag) { f in e.sensorErrors }
  predicate HasStateError(e: ErrorData, f: StateFlag) { f in e.stateErrors }
  predicate HasAnySensorErrors(e: ErrorData) { e.sensorErrors != {} }
  predicate HasAnyStateErrors(e: ErrorData) { e.stateErrors != {} }

  /** `hasAnyErrors()`. */
  predicate HasAnyErrors(e: ErrorData)
  {
    HasAnySensorErrors(e) || HasAnyStateErrors(e)
  }

  /** `isCalibrating()`. */
  predicate IsCalibrating(e: ErrorData) { HasSensorError(e, MotionCalibrating) }

  /** `isLowBattery()`. */
  predicate IsLowBattery(e: ErrorData) { HasStateError(e, LowBattery) }

  /** `hasCriticalErrors()`. */
  predicate HasCriticalErrors(e: ErrorData)
  {
    || HasStateError(e, LowBattery)
    || HasStateError(e, AttitudeNotStable)
    || HasStateError(e, TakeoffFailureCheckPropellerAndMotor)
    || HasStateError(e, CheckPropellerVibration)
  }

  /** NONE has value 0, so it is never decoded, whatever the mask. */
  lemma NoneNeverDecoded(e: ErrorData)
    requires Decoded(e)
    ensures SensorNone !in e.sensorErrors && StateNone !in e.stateErrors
  {
  }

  /** Bits no flag stands for are kept in the raw mask but decode to nothing. */
  lemma UnknownBitsIgnored(e: ErrorData)
    requires Decoded(e)
    ensures IntBits(e.sensorErrorFlags) & KNOWN_SENSOR_BITS == 0 ==> e.sensorErrors == {}
    ensures IntBits(e.stateErrorFlags) & KNOWN_STATE_BITS == 0 ==> e.stateErrors == {}
  {
    var s := IntBits(e.sensorErrorFlags);
    if s & KNOWN_SENSOR_BITS == 0 {
      forall f: SensorFlag ensures f !in e.sensorErrors {
        SensorValueKnown(s, f);
      }
    }
    var t := IntBits(e.stateErrorFlags);
    if t & KNOWN_STATE_BITS == 0 {
      forall f: StateFlag ensures f !in e.stateErrors {
        StateValueKnown(t, f);
      }
    }
  }

  /** Every sensor flag's value lies within the known sensor bits. */
  lemma SensorValueKnown(s: bv32, f: SensorFlag)
    requires s & KNOWN_SENSOR_BITS == 0
    ensures s & SensorValue(f) == 0
  {
    var v := SensorValue(f);
    assert v & KNOWN_SENSOR_BITS == v;
    assert s & v == s & (v & KNOWN_SENSOR_BITS) == (s & KNOWN_SENSOR_BITS) & v;
  }

  /** Every state flag's value lies within the known state bits. */
  lemma StateValueKnown(s: bv32, f: StateFlag)
    requires s & KNOWN_STATE_BITS == 0
    ensures s & StateValue(f) == 0
  {
    var v := StateValue(f);
    assert v & KNOWN_STATE_BITS == v;
    assert s & v == s & (v & KNOWN_STATE_BITS) == (s & KNOWN_STATE_BITS) & v;
  }

  /** `hasAnyErrors()` holds exactly when either mask has a bit some flag stands for. */
  lemma HasAnyErrorsIffKnownBits(e: ErrorData)
    requires Decoded(e)
    ensures HasAnyErrors(e) <==>
      IntBits(e.sensorErrorFlags) & KNOWN_SENSOR_BITS != 0 || IntBits(e.stateErrorFlags) & KNOWN_STATE_BITS != 0
  {
    UnknownBitsIgnored(e);
    var s := IntBits(e.sensorErrorFlags);
    if s & KNOWN_SENSOR_BITS != 0 {
      var f := LowestSensorFlag(s);
      assert f in e.sensorErrors;
    }
    var t := IntBits(e.stateErrorFlags);
    if t & KNOWN_STATE_BITS != 0 {
      var f := LowestStateFlag(t);
      assert f in e.stateErrors;
    }
  }

  /** A mask with a known sensor bit has a flag whose value it shares a bit with. */
  lemma LowestSensorFlag(s: bv32) returns (f: SensorFlag)
    requires s & KNOWN_SENSOR_BITS != 0
    ensures s & SensorValue(f) != 0
  {
    if s & 0x1 != 0 { f := MotionNoAnswer; }
    else if s & 0x2 != 0 { f := MotionWrongValue; }
    else if s & 0x4 != 0 { f := MotionNotCalibrated; }
    else if s & 0x8 != 0 { f := MotionCalibrating; }
    else if s & 0x10 != 0 { f := PressureNoAnswer; }
    else if s & 0x20 != 0 { f := PressureWrongValue; }
    else if s & 0x100 != 0 { f := RangeGroundNoAnswer; }
    else if s & 0x200 != 0 { f := RangeGroundWrongValue; }
    else if s & 0x1000 != 0 { f := FlowNoAnswer; }
    else if s & 0x2000 != 0 { f := FlowWrongValue; }
    else { f := FlowCannotRecognizeGroundImage; }
  }

  /** A mask with a known state bit has a flag whose value it shares a bit with. */
  lemma LowestStateFlag(s: bv32) returns (f: StateFlag)
    requires s & KNOWN_STATE_BITS != 0
    ensures s & StateValue(f) != 0
  {
    if s & 0x1 != 0 { f := NotRegistered; }
    else if s & 0x2 != 0 { f := FlashReadLockUnlocked; }
    else if s & 0x4 != 0 { f := BootloaderWriteLockUnlocked; }
    else if s & 0x8 != 0 { f := LowBattery; }
    else if s & 0x10 != 0 { f := TakeoffFailureCheckPropellerAndMotor; }
    else if s & 0x20 != 0 { f := CheckPropellerVibration; }
    else if s & 0x40 != 0 { f := AttitudeNotStable; }
    else if s & 0x100 != 0 { f := CannotFlipLowBattery; }
    else { f := CannotFlipTooHeavy; }
  }

  /** `isCalibrating()` reads bit 0x8 of the sensor mask; `isLowBattery()` bit 0x8 of the state mask. */
  lemma CalibratingAndLowBatteryBits(e: ErrorData)
    requires Decoded(e)
    ensures IsCalibrating(e) <==> IntBits(e.sensorErrorFlags) & 0x8 != 0
    ensures IsLowBattery(e) <==> IntBits(e.stateErrorFlags) & 0x8 != 0
  {
  }

  /** `hasCriticalErrors()` reads bits 0x08, 0x10, 0x20 and 0x40 of the state mask, and nothing of the sensor mask. */
  lemma CriticalBits(e: ErrorData)
    requires Decoded(e)
    ensures HasCriticalErrors(e) <==> IntBits(e.stateErrorFlags) & 0x78 != 0
  {
    var t := IntBits(e.stateErrorFlags);
    var a := LowBattery in e.stateErrors;
    var b := TakeoffFailureCheckPropellerAndMotor in e.stateErrors;
    var c := CheckPropellerVibration in e.stateErrors;
    var d := AttitudeNotStable in e.stateErrors;
    assert HasCriticalErrors(e) == (a || d || b || c);
    assert a == (t & 0x8 != 0);
    assert b == (t & 0x10 != 0);
    assert c == (t & 0x20 != 0);
    assert d == (t & 0x40 != 0);
    CriticalMask(t);
  }

  lemma CriticalMask(t: bv32)
    ensures t & 0x78 != 0 <==> t & 0x8 != 0 || t & 0x10 != 0 || t & 0x20 != 0 || t & 0x40 != 0
  {
  }
}
