/**
 * Flight commands (FlightController.java): the four control axes the
 * setters and `go` write, the messages `sendControl`/`sendControlPosition`
 * send, the turn helpers and the unit conversions. Messages sent and the
 * timed `move`/`hover` calls are recorded, in order, in `sent`; the clock,
 * sleeps and the rate limiter are not modelled. Java floats and doubles are
 * taken as reals.
 */
module FlightControllers {
  import opened Common

  const CONTROL_VALUE_MIN: int := -100
  const CONTROL_VALUE_MAX: int := 100

  const FORWARD: string := "forward"
  const BACKWARD: string := "backward"
  const LEFT: string := "left"
  const RIGHT: string := "right"
  const UP: string := "up"
  const DOWN: string := "down"

  const UNIT_CENTIMETERS: string := "cm"
  const UNIT_FEET: string := "ft"
  const UNIT_INCHES: string := "in"
  const UNIT_METERS: string := "m"
  const CENTIMETERS_TO_METERS: real := 0.01
  const FEET_TO_METERS: real := 0.3048
  const INCHES_TO_METERS: real := 0.0254

  /** What the controller sends or starts, in order. */
  datatype Command =
    | Control(roll: int, pitch: int, yaw: int, throttle: int)
    | Position(x: real, y: real, z: real, velocity: real, heading: int, rotationalVelocity: int)
    | ControlWhile(roll: int, pitch: int, yaw: int, throttle: int, timeMs: int)
    | MoveFor(seconds: real)
    | HoverFor(seconds: real)
    | SleepFor(ms: int)

  /** A control axis: `(byte) Math.max(-100, Math.min(v, 100))`. */
  function Axis(v: int): (r: int)
    ensures CONTROL_VALUE_MIN <= r <= CONTROL_VALUE_MAX
    ensures r == Clamp(v, CONTROL_VALUE_MIN, CONTROL_VALUE_MAX)
  {
    Signed8(ToByte(Clamp(v, CONTROL_VALUE_MIN, CONTROL_VALUE_MAX)))
  }

  /** The four axes `go(direction, power, …)` leaves set: (roll, pitch, yaw, throttle). */
  function GoAxes(direction: Option<string>, power: int): (int, int, int, int)
  {
    var p := Clamp(power, 0, 100);
    if direction.None? then (0, 0, 0, 0)
    else
      var dir := Lower(direction.value);
      if dir == FORWARD then (0, Axis(p), 0, 0)
      else if dir == BACKWARD then (0, Axis(-p), 0, 0)
      else if dir == RIGHT then (Axis(p), 0, 0, 0)
      else if dir == LEFT then (Axis(-p), 0, 0, 0)
      else if dir == UP then (0, 0, 0, Axis(p))
      else if dir == DOWN then (0, 0, 0, Axis(-p))
      else (0, 0, 0, 0)
  }

  predicate KnownDirection(direction: Option<string>)
  {
    direction.Some? && Lower(direction.value) in {FORWARD, BACKWARD, RIGHT, LEFT, UP, DOWN}
  }

  /**
   * `go` never sets yaw; for a known direction exactly the matching axis
   * carries the power, clamped to 0..100, with the sign of the direction;
   * otherwise every axis is 0.
   */
  lemma GoAxesMeaning(direction: Option<string>, power: int)
    ensures GoAxes(direction, power).2 == 0
    ensures !KnownDirection(direction) ==> GoAxes(direction, power) == (0, 0, 0, 0)
    ensures KnownDirection(direction) ==>
      var (r, p, _, t) := GoAxes(direction, power);
      var dir := Lower(direction.value);
      var q := Clamp(power, 0, 100);
      && r == (if dir == RIGHT then q else if dir == LEFT then -q else 0)
      && p == (if dir == FORWARD then q else if dir == BACKWARD then -q else 0)
      && t == (if dir == UP then q else if dir == DOWN then -q else 0)
  {
  }

  lemma LowerIdempotent(s: string)
    ensures Lower(Lower(s)) == Lower(s)
  {
  }

  lemma LowerOfUpper(s: string)
    ensures Lower(Upper(s)) == Lower(s)
  {
  }

  /** The direction is matched without regard to ASCII case. */
  lemma GoCaseInsensitive(direction: string, power: int)
    ensures GoAxes(Some(Upper(direction)), power) == GoAxes(Some(direction), power)
    ensures GoAxes(Some(Lower(direction)), power) == GoAxes(Some(direction), power)
  {
    LowerOfUpper(direction);
    LowerIdempotent(direction);
  }

  /** `convertToMeters(distance, units)`: -1 for a unit it does not know. */
  function ConvertToMeters(distance: real, units: string): real
  {
    var u := Lower(units);
    if u == UNIT_CENTIMETERS then distance * CENTIMETERS_TO_METERS
    else if u == UNIT_FEET then distance * FEET_TO_METERS
    else if u == UNIT_INCHES then distance * INCHES_TO_METERS
    else if u == UNIT_METERS then distance
    else -1.0
  }

  predicate KnownDistanceUnit(units: string)
  {
    Lower(units) in {UNIT_CENTIMETERS, UNIT_FEET, UNIT_INCHES, UNIT_METERS}
  }

  /**
   * A known unit scales the distance by a positive factor, so the sign is
   * kept; an unknown unit gives -1. A negative result is what makes
   * `move*` return without moving, so a negative distance is refused just
   * like an unknown unit.
   */
  lemma ConvertToMetersSign(distance: real, units: string)
    ensures !KnownDistanceUnit(units) ==> ConvertToMeters(distance, units) == -1.0
    ensures KnownDistanceUnit(units) ==> (ConvertToMeters(distance, units) < 0.0 <==> distance < 0.0)
    ensures KnownDistanceUnit(units) && Lower(units) == UNIT_METERS ==> ConvertToMeters(distance, units) == distance
  {
  }

  /** `convertMillimeter(mm, unit)`: unknown units fall back to centimetres. */
  function ConvertMillimeter(millimeter: real, unit: string): real
  {
    var u := Lower(unit);
    if u == "mm" then millimeter
    else if u == "cm" then millimeter / 10.0
    else if u == "m" then millimeter / 1000.0
    else if u == "in" then millimeter / 25.4
    else millimeter / 10.0
  }

  /** `convertMeter(m, unit)`: unknown units fall back to centimetres. */
  function ConvertMeter(meter: real, unit: string): real
  {
    var u := Lower(unit);
    if u == "m" then meter
    else if u == "cm" then meter * 100.0
    else if u == "mm" then meter * 1000.0
    else if u == "in" then meter * 39.3701
    else meter * 100.0
  }

  /** The two conversions agree on metric units, and an unknown unit means centimetres in both. */
  lemma ConversionsAgree(mm: real, unit: string)
    ensures Lower(unit) in {"mm", "cm", "m"} ==> ConvertMeter(mm / 1000.0, unit) == ConvertMillimeter(mm, unit)
    ensures Lower(unit) !in {"mm", "cm", "m", "in"} ==>
      ConvertMillimeter(mm, unit) == ConvertMillimeter(mm, "cm") && ConvertMeter(mm, unit) == ConvertMeter(mm, "cm")
  {
    assert Lower("cm") == "cm";
  }

  /** Java's `Math.abs` on an `int`: `Integer.MIN_VALUE` stays negative. */
  function JavaAbs(x: int): (r: int)
    requires IsInt(x)
    ensures IsInt(r)
    ensures x != INT_MIN ==> r == (if x < 0 then -x else x)
    ensures x == INT_MIN ==> r == INT_MIN
  {
    if x == INT_MIN then INT_MIN else if x < 0 then -x else x
  }

  /** `turnDegree`'s power: |degree|·p/10 limited to 20..100 and truncated. */
  function TurnPower(degree: int, pValue: real): (power: int)
    requires -180 <= degree <= 180
    ensures 20 <= power <= 100
  {
    var a := if degree < 0 then -degree else degree;
    Truncate(ClampReal(a as real * pValue / 10.0, 20.0, 100.0))
  }

  /** How long `turnDegree` turns: |degree|/90 seconds, in whole milliseconds. */
  function TurnTimeMs(degree: int): (ms: int)
    requires -180 <= degree <= 180
    ensures 0 <= ms <= 2000
    ensures ms == 0 <==> degree == 0
  {
    var a := if degree < 0 then -degree else degree;
    Truncate(a as real / 90.0 * 1000.0)
  }

  /**
   * The heading change `turnLeft(d)` asks `turnDegree` for, as written:
   * `Math.min(179, Math.abs(d))`.
   */
  function TurnLeftDegreeAsWritten(degrees: int): int
    requires IsInt(degrees)
  {
    var d := JavaAbs(degrees);
    if d < 179 then d else 179
  }

  /** `turnLeft(Integer.MIN_VALUE)` asks for a negative angle, which `turnDegree` turns to the right. */
  lemma TurnLeftMinValueTurnsRight()
    ensures TurnLeftDegreeAsWritten(INT_MIN) == INT_MIN
    ensures Clamp(TurnLeftDegreeAsWritten(INT_MIN), -180, 180) == -180
  {
  }

  /**
   * The sleep after a `move*` position command: at least one second, longer
   * than the travel time at the clamped speed, and at most the time at the
   * slowest speed, 0.5 m/s, plus one second.
   */
  lemma MoveSleepCoversTravel(meters: real, speed: real)
    requires meters >= 0.0
    ensures var s := ClampReal(speed, 0.5, 2.0);
      var ms := Truncate((meters / s + 1.0) * 1000.0);
      && ms >= 1000
      && ms as real > meters / s * 1000.0
      && ms as real <= meters * 2000.0 + 1000.0
  {
    var s := ClampReal(speed, 0.5, 2.0);
    var q := meters / s;
    assert q * s == meters;
    assert q >= 0.0;
    assert q <= meters * 2.0 by {
      assert q * s >= q * 0.5 by { assert q * (s - 0.5) >= 0.0; }
    }
  }

  /** `min(179, |d|)` with the magnitude taken exactly: always a left turn of 0..179 degrees. */
  function TurnMagnitude(degrees: int): (d: int)
    ensures 0 <= d <= 179
    ensures d == (if degrees < 0 then -degrees else degrees) || d == 179
  {
    var a := if degrees < 0 then -degrees else degrees;
    if a < 179 then a else 179
  }

  /** The two agree on every `int` except `Integer.MIN_VALUE`. */
  lemma TurnLeftAgreesExceptMinValue(degrees: int)
    requires IsInt(degrees) && degrees != INT_MIN
    ensures TurnLeftDegreeAsWritten(degrees) == TurnMagnitude(degrees)
  {
  }

  /**
   * The heading `turnRight(d)` asks `turnDegree` for, as written: the
   * negation, in 32-bit arithmetic, of `Math.min(179, Math.abs(d))`.
   */
  function TurnRightDegreeAsWritten(degrees: int): int
    requires IsInt(degrees)
  {
    var d := TurnLeftDegreeAsWritten(degrees);
    if d == INT_MIN then INT_MIN else -d
  }

  /**
   * `turnRight(Integer.MIN_VALUE)` asks for `Integer.MIN_VALUE`, which
   * `turnDegree` clamps to -180: a two-second turn, where every other
   * argument turns for at most 179 degrees (1988 ms).
   */
  lemma TurnRightMinValueTurnsHalfCircle()
    ensures TurnRightDegreeAsWritten(INT_MIN) == INT_MIN
    ensures Clamp(TurnRightDegreeAsWritten(INT_MIN), -180, 180) == -180
    ensures TurnTimeMs(-180) == 2000
    ensures -TurnMagnitude(INT_MIN) == -179 && TurnTimeMs(-179) == 1988
  {
    assert 180 as real / 90.0 * 1000.0 == 2000.0;
    assert 179 as real / 90.0 * 1000.0 == 179000.0 / 90.0;
    assert 1988.0 <= 179000.0 / 90.0 < 1989.0;
  }

  /** Away from `Integer.MIN_VALUE`, `turnRight` asks for the negated corrected magnitude. */
  lemma TurnRightAgreesExceptMinValue(degrees: int)
    requires IsInt(degrees) && degrees != INT_MIN
    ensures TurnRightDegreeAsWritten(degrees) == -TurnMagnitude(degrees)
    ensures -179 <= TurnRightDegreeAsWritten(degrees) <= 0
  {
    TurnLeftAgreesExceptMinValue(degrees);
  }

  class FlightController {
    /** The `control` Quad8's axes. */
    var roll: int
    var pitch: int
    var yaw: int
    var throttle: int
    var sent: seq<Command>

    constructor ()
      ensures roll == 0 && pitch == 0 && yaw == 0 && throttle == 0 && sent == []
    {
      roll, pitch, yaw, throttle := 0, 0, 0, 0;
      sent := [];
    }

    method SetRoll(v: int)
      modifies this
      ensures roll == Clamp(v, CONTROL_VALUE_MIN, CONTROL_VALUE_MAX)
      ensures pitch == old(pitch) && yaw == old(yaw) && throttle == old(throttle) && sent == old(sent)
    {
      roll := Axis(v);
    }

    method SetPitch(v: int)
      modifies this
      ensures pitch == Clamp(v, CONTROL_VALUE_MIN, CONTROL_VALUE_MAX)
      ensures roll == old(roll) && yaw == old(yaw) && throttle == old(throttle) && sent == old(sent)
    {
      pitch := Axis(v);
    }

    method SetYaw(v: int)
      modifies this
      ensures yaw == Clamp(v, CONTROL_VALUE_MIN, CONTROL_VALUE_MAX)
      ensures roll == old(roll) && pitch == old(pitch) && throttle == old(throttle) && sent == old(sent)
    {
      yaw := Axis(v);
    }

    method SetThrottle(v: int)
      modifies this
      ensures throttle == Clamp(v, CONTROL_VALUE_MIN, CONTROL_VALUE_MAX)
      ensures roll == old(roll) && pitch == old(pitch) && yaw == old(yaw) && sent == old(sent)
    {
      throttle := Axis(v);
    }

    /** `sendControl(roll, pitch, yaw, throttle)`: one Quad8 with each axis clamped to -100..100. */
    method SendControl(r: int, p: int, y: int, t: int)
      modifies this
      ensures sent == old(sent) + [Control(Axis(r), Axis(p), Axis(y), Axis(t))]
      ensures roll == old(roll) && pitch == old(pitch) && yaw == old(yaw) && throttle == old(throttle)
    {
      sent := sent + [Control(Axis(r), Axis(p), Axis(y), Axis(t))];
    }

    /**
     * `sendControlWhile(…, timeMs)`: nothing for a non-positive time;
     * otherwise the repeated command for that long, then a zero command.
     */
    method SendControlWhile(r: int, p: int, y: int, t: int, timeMs: int)
      modifies this
      ensures timeMs <= 0 ==> sent == old(sent)
      ensures timeMs > 0 ==>
        sent == old(sent) + [ControlWhile(Axis(r), Axis(p), Axis(y), Axis(t), timeMs), Control(0, 0, 0, 0)]
      ensures roll == old(roll) && pitch == old(pitch) && yaw == old(yaw) && throttle == old(throttle)
    {
      if timeMs <= 0 {
        return;
      }
      sent := sent + [ControlWhile(Axis(r), Axis(p), Axis(y), Axis(t), timeMs)];
      SendControl(0, 0, 0, 0);
    }

    /**
     * `sendControlPosition`: positions to ±10 m, velocity to 0.5..2 m/s,
     * heading to ±360° and rotational velocity to 10..360 °/s.
     */
    method SendControlPosition(x: real, y: real, z: real, velocity: real, heading: int, rotationalVelocity: int)
      modifies this
      ensures sent == old(sent) + [Position(ClampReal(x, -10.0, 10.0), ClampReal(y, -10.0, 10.0),
        ClampReal(z, -10.0, 10.0), ClampReal(velocity, 0.5, 2.0), Clamp(heading, -360, 360),
        Clamp(rotationalVelocity, 10, 360))]
      ensures roll == old(roll) && pitch == old(pitch) && yaw == old(yaw) && throttle == old(throttle)
    {
      var h := ToShort(Clamp(heading, -360, 360));
      var rv := ToShort(Clamp(rotationalVelocity, 10, 360));
      sent := sent + [Position(ClampReal(x, -10.0, 10.0), ClampReal(y, -10.0, 10.0), ClampReal(z, -10.0, 10.0),
        ClampReal(velocity, 0.5, 2.0), h, rv)];
    }

    /**
     * `go(direction, power, duration)`: all four axes are reset, then the
     * direction's axis gets the clamped power; an unknown direction returns
     * before moving, and a null one throws after the reset and is caught.
     */
    method Go(direction: Option<string>, power: int, duration: int)
      modifies this
      ensures (roll, pitch, yaw, throttle) == GoAxes(direction, power)
      ensures KnownDirection(direction) ==> sent == old(sent) + [MoveFor(duration as real), HoverFor(1.0)]
      ensures !KnownDirection(direction) ==> sent == old(sent)
    {
      SetRoll(0);
      SetPitch(0);
      SetYaw(0);
      SetThrottle(0);
      var p := power;
      if p > 100 {
        p := 100;
      } else if p < 0 {
        p := 0;
      }
      if direction.None? {
        return;
      }
      var dir := Lower(direction.value);
      if dir == FORWARD {
        SetPitch(p);
      } else if dir == BACKWARD {
        SetPitch(-p);
      } else if dir == RIGHT {
        SetRoll(p);
      } else if dir == LEFT {
        SetRoll(-p);
      } else if dir == UP {
        SetThrottle(p);
      } else if dir == DOWN {
        SetThrottle(-p);
      } else {
        return;
      }
      sent := sent + [MoveFor(duration as real), HoverFor(1.0)];
    }

    /**
     * `moveForward/moveBackward/moveLeft/moveRight(distance, units, speed)`:
     * a position command along ±x (forward/backward) or ±y (left/right),
     * then a sleep of distance / speed + 1 seconds, in whole milliseconds;
     * nothing when the distance converts to a negative number.
     */
    method MoveAlong(direction: string, distance: real, units: string, speed: real)
      requires direction in {FORWARD, BACKWARD, LEFT, RIGHT}
      modifies this
      ensures var m := ConvertToMeters(distance, units);
        && (m < 0.0 ==> sent == old(sent))
        && (m >= 0.0 ==>
              sent == old(sent) + [Position(
                ClampReal(if direction == FORWARD then m else if direction == BACKWARD then -m else 0.0, -10.0, 10.0),
                ClampReal(if direction == LEFT then m else if direction == RIGHT then -m else 0.0, -10.0, 10.0),
                0.0, ClampReal(speed, 0.5, 2.0), 0, 10),
              SleepFor(Truncate((m / ClampReal(speed, 0.5, 2.0) + 1.0) * 1000.0))])
      ensures roll == old(roll) && pitch == old(pitch) && yaw == old(yaw) && throttle == old(throttle)
    {
      var m := ConvertToMeters(distance, units);
      if m < 0.0 {
        return;
      }
      var s := ClampReal(speed, 0.5, 2.0);
      var x := if direction == FORWARD then m else if direction == BACKWARD then -m else 0.0;
      var y := if direction == LEFT then m else if direction == RIGHT then -m else 0.0;
      SendControlPosition(x, y, 0.0, s, 0, 0);
      sent := sent + [SleepFor(Truncate((m / s + 1.0) * 1000.0))];
    }

    /**
     * `turn(power, seconds)`: power clamped to ±100 on the yaw axis; with no
     * duration a single command, otherwise a timed command and a half-second hover.
     */
    method Turn(power: int, seconds: Option<real>)
      modifies this
      ensures var p := Clamp(power, -100, 100);
        seconds.None? ==> sent == old(sent) + [Control(0, 0, p, 0)]
      ensures seconds.Some? && Truncate(seconds.value * 1000.0) > 0 ==>
        sent == old(sent) + [ControlWhile(0, 0, Clamp(power, -100, 100), 0, Truncate(seconds.value * 1000.0)),
                             Control(0, 0, 0, 0), HoverFor(0.5)]
      ensures seconds.Some? && Truncate(seconds.value * 1000.0) <= 0 ==> sent == old(sent) + [HoverFor(0.5)]
      ensures roll == old(roll) && pitch == old(pitch) && yaw == old(yaw) && throttle == old(throttle)
    {
      var p := Clamp(power, -100, 100);
      if seconds.None? {
        SendControl(0, 0, p, 0);
      } else {
        SendControlWhile(0, 0, p, 0, Truncate(seconds.value * 1000.0));
        sent := sent + [HoverFor(0.5)];
      }
    }

    /**
     * `turnDegree(degree, timeout, pValue)`: the angle is clamped to ±180;
     * the drone yaws left (positive) for a positive angle and right
     * otherwise, at `TurnPower`, for `TurnTimeMs`, between two hovers.
     */
    method TurnDegree(degree: int, timeout: real, pValue: real)
      modifies this
      ensures var d := Clamp(degree, -180, 180);
        var yawPower := if d > 0 then TurnPower(d, pValue) else -TurnPower(d, pValue);
        && (d != 0 ==> sent == old(sent) + [HoverFor(0.01), ControlWhile(0, 0, yawPower, 0, TurnTimeMs(d)),
                                            Control(0, 0, 0, 0), HoverFor(0.05)])
        && (d == 0 ==> sent == old(sent) + [HoverFor(0.01), HoverFor(0.05)])
      ensures roll == old(roll) && pitch == old(pitch) && yaw == old(yaw) && throttle == old(throttle)
    {
      var d := Clamp(degree, -180, 180);
      sent := sent + [HoverFor(0.01)];
      var power := TurnPower(d, pValue);
      if d > 0 {
        SendControlWhile(0, 0, power, 0, TurnTimeMs(d));
      } else {
        SendControlWhile(0, 0, -power, 0, TurnTimeMs(d));
      }
      sent := sent + [HoverFor(0.05)];
    }

    /** `turnLeft(degrees, timeout)`: a left turn by at most 179 degrees. */
    method TurnLeft(degrees: int, timeout: real)
      modifies this
      ensures var d := TurnMagnitude(degrees);
        d != 0 ==> sent == old(sent) + [HoverFor(0.01), ControlWhile(0, 0, TurnPower(d, 10.0), 0, TurnTimeMs(d)),
                                        Control(0, 0, 0, 0), HoverFor(0.05)]
      ensures TurnMagnitude(degrees) == 0 ==> sent == old(sent) + [HoverFor(0.01), HoverFor(0.05)]
      ensures roll == old(roll) && pitch == old(pitch) && yaw == old(yaw) && throttle == old(throttle)
    {
      TurnDegree(TurnMagnitude(degrees), timeout, 10.0);
    }

    /** `turnRight(degrees, timeout)`: a right turn by at most 179 degrees. */
    method TurnRight(degrees: int, timeout: real)
      modifies this
      ensures var d := TurnMagnitude(degrees);
        d != 0 ==> sent == old(sent) + [HoverFor(0.01), ControlWhile(0, 0, -TurnPower(-d, 10.0), 0, TurnTimeMs(-d)),
                                        Control(0, 0, 0, 0), HoverFor(0.05)]
      ensures TurnMagnitude(degrees) == 0 ==> sent == old(sent) + [HoverFor(0.01), HoverFor(0.05)]
      ensures roll == old(roll) && pitch == old(pitch) && yaw == old(yaw) && throttle == old(throttle)
    {
      TurnDegree(-TurnMagnitude(degrees), timeout, 10.0);
    }
  }

  /** With the default gain of 10 the turn power is the angle itself, kept within 20..100. */
  lemma DefaultTurnPower(degree: int)
    requires -180 <= degree <= 180
    ensures TurnPower(degree, 10.0) == Clamp(if degree < 0 then -degree else degree, 20, 100)
  {
    var a := if degree < 0 then -degree else degree;
    assert a as real * 10.0 / 10.0 == a as real;
  }
}
