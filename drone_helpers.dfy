/**
 * The validation, lookup and conversion helpers of the `Drone` facade
 * (Drone.java): trim validation, the body LED mode table, colour scaling,
 * colour-label indices, pressure and temperature units, wall detection and
 * the button test. Sensor readings these helpers start from are parameters.
 */
module DroneHelpers {
  import opened Common

  // ---------------------------------------------------------------- trim

  /** The trim message `settingsController.sendTrim` sends: roll, pitch, yaw, throttle shorts. */
  datatype Trim = Trim(roll: int, pitch: int, yaw: int, throttle: int)

  /** Each trim value must lie in -100..100. */
  predicate TrimInRange(v: int) { -100 <= v <= 100 }

  /**
   * `setTrim(roll, pitch)`: roll is checked before pitch; a valid pair is
   * sent three times with yaw and throttle 0.
   */
  function SetTrim(roll: int, pitch: int): (r: Result<seq<Trim>>)
    ensures r.Ok? <==> TrimInRange(roll) && TrimInRange(pitch)
    ensures r.Ok? ==> |r.value| == 3 && forall i :: 0 <= i < 3 ==> r.value[i] == Trim(roll, pitch, 0, 0)
    ensures r.Throws? ==> r.error.IllegalArgument?
    ensures !TrimInRange(roll) ==> r == Throws(IllegalArgument("Roll trim must be between -100 and 100, got: " + IntString(roll)))
  {
    if roll < -100 || roll > 100 then
      Throws(IllegalArgument("Roll trim must be between -100 and 100, got: " + IntString(roll)))
    else if pitch < -100 || pitch > 100 then
      Throws(IllegalArgument("Pitch trim must be between -100 and 100, got: " + IntString(pitch)))
    else
      var t := Trim(ToShort(roll), ToShort(pitch), 0, 0);
      Ok([t, t, t])
  }

  // ------------------------------------------------------------ LED mode

  /** The body light modes `setDroneLEDMode` can choose. */
  datatype LightMode = BodyHold | BodyDimming | BodySunrise | BodySunset | BodyFlicker | BodyFlickerDouble | BodyRainbow

  /** The colour actually sent: each channel scaled into 0..127. */
  datatype Color = Color(r: int, g: int, b: int)

  /** A `LightDefault` message: mode, colour and interval. */
  datatype LightDefault = LightDefault(mode: LightMode, color: Color, interval: int)

  /** The mode names, lower case, in the order the switch lists them. */
  const LED_MODE_NAMES: seq<string> := ["solid", "dimming", "fade_in", "fade_out", "blink", "double_blink", "rainbow"]

  /** The end of the message that refuses an unknown mode name. */
  const VALID_MODES_HINT: string := ". Valid modes are: solid, dimming, fade_in, fade_out, blink, double_blink, rainbow"

  /** The mode a lower-cased name selects, if any. */
  function ModeOf(name: string): (m: Option<LightMode>)
    ensures m.Some? <==> name in LED_MODE_NAMES
  {
    if name == "solid" then Some(BodyHold)
    else if name == "dimming" then Some(BodyDimming)
    else if name == "fade_in" then Some(BodySunrise)
    else if name == "fade_out" then Some(BodySunset)
    else if name == "blink" then Some(BodyFlicker)
    else if name == "double_blink" then Some(BodyFlickerDouble)
    else if name == "rainbow" then Some(BodyRainbow)
    else None
  }

  /** The interval step per mode: the interval is (11 - speed) times this; solid has none. */
  function IntervalStep(m: LightMode): int
  {
    match m
    case BodyHold => 0
    case BodyDimming => 5
    case BodySunrise => 12
    case BodySunset => 12
    case BodyFlicker => 100
    case BodyFlickerDouble => 60
    case BodyRainbow => 7
  }

  /** The interval sent: 255 for a solid light, otherwise `(short) ((11 - speed) * step)`. */
  function Interval(m: LightMode, speed: int): int
  {
    if m == BodyHold then 255 else ToShort((11 - speed) * IntervalStep(m))
  }

  /** `createColor`'s channel: `(byte) Math.min(127, c * 127 / 255)` for a validated channel. */
  function ColorChannel(c: int): (v: int)
    requires 0 <= c <= 255
    ensures 0 <= v <= 127
    ensures v * 255 <= c * 127 < (v + 1) * 255
  {
    var scaled := c * 127 / 255;
    var capped := if scaled < 127 then scaled else 127;
    Signed8(ToByte(capped))
  }

  /** Scaling keeps the order of channel values and maps the ends to the ends. */
  lemma ColorChannelMonotone(a: int, b: int)
    requires 0 <= a <= b <= 255
    ensures ColorChannel(a) <= ColorChannel(b)
    ensures ColorChannel(0) == 0 && ColorChannel(255) == 127
  {
  }

  function CreateColor(red: int, green: int, blue: int): Color
    requires 0 <= red <= 255 && 0 <= green <= 255 && 0 <= blue <= 255
  {
    Color(ColorChannel(red), ColorChannel(green), ColorChannel(blue))
  }

  predicate ChannelOk(c: int) { 0 <= c <= 255 }

  /**
   * `setDroneLEDMode(r, g, b, mode, speed)`: the channels, then speed
   * 1..10, then a null mode, then an unknown mode name are rejected, in that
   * order; otherwise the mode's message with the scaled colour.
   */
  function SetDroneLedMode(red: int, green: int, blue: int, mode: Option<string>, speed: int): (r: Result<LightDefault>)
    ensures r.Ok? <==>
      ChannelOk(red) && ChannelOk(green) && ChannelOk(blue) && 1 <= speed <= 10
      && mode.Some? && Lower(mode.value) in LED_MODE_NAMES
    ensures r.Ok? ==>
      && r.value.mode == ModeOf(Lower(mode.value)).value
      && r.value.color == CreateColor(red, green, blue)
      && r.value.interval == Interval(r.value.mode, speed)
    ensures r.Throws? ==> r.error.IllegalArgument?
    ensures ChannelOk(red) && ChannelOk(green) && ChannelOk(blue) && 1 <= speed <= 10 && mode.None? ==>
      r == Throws(IllegalArgument("Mode cannot be null"))
  {
    if red < 0 || red > 255 then
      Throws(IllegalArgument("Red must be between 0 and 255, got: " + IntString(red)))
    else if green < 0 || green > 255 then
      Throws(IllegalArgument("Green must be between 0 and 255, got: " + IntString(green)))
    else if blue < 0 || blue > 255 then
      Throws(IllegalArgument("Blue must be between 0 and 255, got: " + IntString(blue)))
    else if speed < 1 || speed > 10 then
      Throws(IllegalArgument("Speed must be between 1 and 10, got: " + IntString(speed)))
    else if mode.None? then
      Throws(IllegalArgument("Mode cannot be null"))
    else
      match ModeOf(Lower(mode.value))
      case None =>
        Throws(IllegalArgument("Invalid LED mode: " + mode.value + VALID_MODES_HINT))
      case Some(m) => Ok(LightDefault(m, CreateColor(red, green, blue), Interval(m, speed)))
  }

  /**
   * For every accepted speed the interval lies in the documented range,
   * 1·step .. 10·step, never wraps as a short, and a faster speed never
   * gives a longer interval; a solid light is always 255.
   */
  lemma IntervalRanges(m: LightMode, speed: int, faster: int)
    requires 1 <= speed <= faster <= 10
    ensures m == BodyHold ==> Interval(m, speed) == 255
    ensures m != BodyHold ==> Interval(m, speed) == (11 - speed) * IntervalStep(m)
    ensures m != BodyHold ==> IntervalStep(m) <= Interval(m, speed) <= 10 * IntervalStep(m)
    ensures Interval(m, faster) <= Interval(m, speed)
  {
    if m != BodyHold {
      assert 0 < (11 - speed) * IntervalStep(m) <= 10 * IntervalStep(m) <= 1000;
      assert 0 < (11 - faster) * IntervalStep(m) <= (11 - speed) * IntervalStep(m);
    }
  }

  /** The mode name is matched without regard to ASCII case. */
  lemma LedModeCaseInsensitive(red: int, green: int, blue: int, mode: string, speed: int)
    ensures SetDroneLedMode(red, green, blue, Some(Upper(mode)), speed).Ok?
      == SetDroneLedMode(red, green, blue, Some(mode), speed).Ok?
  {
    assert Lower(Upper(mode)) == Lower(mode);
  }

  // ------------------------------------------------------- colour labels

  /** `mapLabelToIndex(label)`: a colour classifier label to its index, 0 when unknown. */
  function LabelIndex(colorLabel: string): (i: int)
    ensures 0 <= i <= 8
  {
    var l := Lower(colorLabel);
    if l == "white" then 1
    else if l == "red" then 2
    else if l == "yellow" then 3
    else if l == "green" then 4
    else if l in {"cyan", "light_blue", "lightblue"} then 5
    else if l == "blue" then 6
    else if l in {"magenta", "purple"} then 7
    else if l == "black" then 8
    else 0
  }

  /** The labels the table knows, each with the index it maps to. */
  const LABELS: seq<(string, int)> := [("white", 1), ("red", 2), ("yellow", 3), ("green", 4), ("cyan", 5),
    ("light_blue", 5), ("lightblue", 5), ("blue", 6), ("magenta", 7), ("purple", 7), ("black", 8)]

  /** The first label the table lists for each index 1..8. */
  function CanonicalLabel(i: int): string
    requires 1 <= i <= 8
  {
    ["white", "red", "yellow", "green", "cyan", "blue", "magenta", "black"][i - 1]
  }

  /** Every label the table lists maps to its index. */
  lemma ListedLabelsMapToIndex()
    ensures forall k :: 0 <= k < |LABELS| ==> LabelIndex(LABELS[k].0) == LABELS[k].1
  {
    forall k | 0 <= k < |LABELS|
      ensures LabelIndex(LABELS[k].0) == LABELS[k].1
    {
      assert Lower(LABELS[k].0) == LABELS[k].0;
    }
  }

  /** Every index 1..8 is reached, by its first label. */
  lemma EveryLabelIndexReached()
    ensures forall i :: 1 <= i <= 8 ==> LabelIndex(CanonicalLabel(i)) == i
  {
    forall i | 1 <= i <= 8
      ensures LabelIndex(CanonicalLabel(i)) == i
    {
      assert Lower(CanonicalLabel(i)) == CanonicalLabel(i);
    }
  }

  /** A label that is none of the listed ones, in any case, maps to 0. */
  lemma UnlistedLabelIsZero(colorLabel: string)
    requires forall k :: 0 <= k < |LABELS| ==> Lower(colorLabel) != LABELS[k].0
    ensures LabelIndex(colorLabel) == 0
  {
    assert Lower(colorLabel) != LABELS[0].0 && Lower(colorLabel) != LABELS[1].0 && Lower(colorLabel) != LABELS[2].0;
    assert Lower(colorLabel) != LABELS[3].0 && Lower(colorLabel) != LABELS[4].0 && Lower(colorLabel) != LABELS[5].0;
    assert Lower(colorLabel) != LABELS[6].0 && Lower(colorLabel) != LABELS[7].0 && Lower(colorLabel) != LABELS[8].0;
    assert Lower(colorLabel) != LABELS[9].0 && Lower(colorLabel) != LABELS[10].0;
  }

  // ------------------------------------------------------------ pressure

  const PRESSURE_UNITS: seq<string> := ["pa", "kpa", "mbar", "inhg", "atm"]

  /** Pascals per unit, in the order of `PRESSURE_UNITS`. */
  function PascalsPer(u: string): real
  {
    if u == "pa" then 1.0
    else if u == "kpa" then 1000.0
    else if u == "mbar" then 100.0
    else if u == "inhg" then 3386.389
    else 101325.0
  }

  /**
   * `getPressure(unit)` on a reading of `pascals`: 0 for a zero reading
   * before the unit is looked at, otherwise the reading divided by the
   * unit's size; an unknown unit throws and a null one dereferences null.
   */
  function GetPressure(pascals: real, unit: Option<string>): (r: Result<real>)
    ensures pascals == 0.0 ==> r == Ok(0.0)
    ensures pascals != 0.0 && unit.None? ==> r == Throws(NullPointer)
    ensures pascals != 0.0 && unit.Some? ==>
      (r.Ok? <==> Lower(unit.value) in PRESSURE_UNITS)
    ensures pascals != 0.0 && r.Ok? ==> r.value * PascalsPer(Lower(unit.value)) == pascals
  {
    if pascals == 0.0 then Ok(0.0)
    else if unit.None? then Throws(NullPointer)
    else
      var u := Lower(unit.value);
      if u == "pa" then Ok(pascals)
      else if u == "kpa" then Ok(pascals / 1000.0)
      else if u == "mbar" then Ok(pascals / 100.0)
      else if u == "inhg" then Ok(pascals / 3386.389)
      else if u == "atm" then Ok(pascals / 101325.0)
      else Throws(IllegalArgument("Unsupported pressure unit: " + unit.value
        + ". Supported units: Pa, kPa, mbar, inHg, atm"))
  }

  // --------------------------------------------------------- temperature

  /** `convertTemperature(celsius, unit)`: C, F or K, matched upper-cased. */
  function ConvertTemperature(celsius: real, unit: string): (r: Result<real>)
    ensures r.Ok? <==> Upper(unit) in {"C", "F", "K"}
    ensures r.Throws? ==> r.error.IllegalArgument?
  {
    var u := Upper(unit);
    if u == "C" then Ok(celsius)
    else if u == "F" then Ok(celsius * 9.0 / 5.0 + 32.0)
    else if u == "K" then Ok(celsius + 273.15)
    else Throws(IllegalArgument("Unsupported temperature unit: " + unit + ". Supported units: C, F, K"))
  }

  /**
   * The three scales agree: Fahrenheit and Kelvin convert back to the same
   * Celsius value, water freezes at 32 °F and 273.15 K, and a lower-case
   * unit name means the same as the upper-case one.
   */
  lemma TemperatureScales(celsius: real)
    ensures (ConvertTemperature(celsius, "F").value - 32.0) * 5.0 / 9.0 == celsius
    ensures ConvertTemperature(celsius, "K").value - 273.15 == celsius
    ensures ConvertTemperature(0.0, "F") == Ok(32.0) && ConvertTemperature(0.0, "K") == Ok(273.15)
    ensures ConvertTemperature(celsius, "c") == ConvertTemperature(celsius, "C") == Ok(celsius)
    ensures ConvertTemperature(celsius, "f") == ConvertTemperature(celsius, "F")
    ensures ConvertTemperature(celsius, "k") == ConvertTemperature(celsius, "K")
  {
    assert Upper("F") == "F" && Upper("f") == "F";
    assert Upper("K") == "K" && Upper("k") == "K";
    assert Upper("C") == "C" && Upper("c") == "C";
  }

  // -------------------------------------------------------- wall, button

  /**
   * `detectWall(distance)` given the front range reading, a double in
   * centimetres: strictly closer than the whole-centimetre `distance`.
   */
  predicate DetectWall(frontRange: real, distance: int)
  {
    frontRange < distance as real
  }

  /**
   * A wall seen at one threshold is seen at every larger one; only the
   * reading's whole centimetres matter, so the smallest threshold that sees
   * it is one above its floor, and a reading equal to the threshold is clear.
   */
  lemma DetectWallThreshold(frontRange: real, distance: int, larger: int)
    requires distance <= larger
    ensures DetectWall(frontRange, distance) ==> DetectWall(frontRange, larger)
    ensures DetectWall(frontRange, distance) <==> frontRange.Floor < distance
    ensures DetectWall(frontRange, frontRange.Floor + 1) && !DetectWall(frontRange, frontRange.Floor)
    ensures !DetectWall(distance as real, distance)
  {
    assert frontRange.Floor as real <= frontRange < frontRange.Floor as real + 1.0;
  }

  /** The event names that count as held down. */
  predicate ActiveEvent(eventName: Option<string>)
  {
    eventName == Some("Press") || eventName == Some("Down")
  }

  /**
   * `isButtonPressed(flag)` on the controller's current flags and event
   * name: some bit of `flag` is set and the event is Press or Down.
   */
  predicate IsButtonPressed(buttonFlags: int, eventName: Option<string>, buttonFlag: int)
    requires IsInt(buttonFlags) && IsInt(buttonFlag)
  {
    (IntBits(buttonFlags) & IntBits(buttonFlag)) != 0 && ActiveEvent(eventName)
  }

  /** No flag shares a bit with the zero flag. */
  lemma NoBitsInZero(x: int)
    requires IsInt(x)
    ensures IntBits(x) & IntBits(0) == 0
  {
    IntBitsZero(0);
  }

  /** A non-zero flag shares its bits with itself. */
  lemma NonZeroSharesSelf(x: int)
    requires IsInt(x)
    ensures x != 0 ==> IntBits(x) & IntBits(x) != 0
  {
    IntBitsZero(x);
  }

  /**
   * An Up event, a missing event or a zero flag is never a press; with an
   * active event any shared bit is, in particular a non-zero flag that the
   * current flags equal.
   */
  lemma ButtonPressedCases(buttonFlags: int, eventName: Option<string>, buttonFlag: int)
    requires IsInt(buttonFlags) && IsInt(buttonFlag)
    ensures !ActiveEvent(eventName) ==> !IsButtonPressed(buttonFlags, eventName, buttonFlag)
    ensures !IsButtonPressed(buttonFlags, eventName, 0)
    ensures ActiveEvent(eventName) && IntBits(buttonFlags) & IntBits(buttonFlag) != 0 ==>
      IsButtonPressed(buttonFlags, eventName, buttonFlag)
    ensures ActiveEvent(eventName) && buttonFlags == buttonFlag && buttonFlag != 0 ==>
      IsButtonPressed(buttonFlags, eventName, buttonFlag)
  {
    NoBitsInZero(buttonFlags);
    NonZeroSharesSelf(buttonFlag);
  }
}
