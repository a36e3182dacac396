/**
 * The remote controller's input state (ControllerInputManager.java): the
 * last button and joystick messages, kept in named fields and read back as
 * Python-style arrays or as value objects. The wall clock is a parameter.
 */
module ControllerInput {
  import opened Common

  /** The event name stored when a button message carries no event. */
  const NO_EVENT: string := "None_"

  /** A button message: the flag bits and the event's enum name, if any. */
  datatype ButtonMessage = ButtonMessage(button: int, event: Option<string>)

  /** One stick of a joystick message; direction and event are their enum values. */
  datatype Stick = Stick(x: int, y: int, direction: int, event: int)

  datatype JoystickMessage = JoystickMessage(left: Stick, right: Stick)

  /** An element of the mixed `Object[]` the button array is. */
  datatype Element = Real(r: real) | Int(i: int) | Text(s: string)

  /** The `ButtonData` value object. */
  datatype ButtonData = ButtonData(timestamp: real, buttonFlags: int, eventName: string)

  /** The `JoystickData` value object. */
  datatype JoystickData = JoystickData(
    timestamp: int,
    leftX: int, leftY: int, leftDirection: int, leftEvent: int,
    rightX: int, rightY: int, rightDirection: int, rightEvent: int)

  class ControllerInputManager {
    var buttonTimestamp: real
    var buttonFlags: int
    var buttonEventName: string

    var joystickTimestamp: int
    var leftX: int
    var leftY: int
    var leftDirection: int
    var leftEvent: int
    var rightX: int
    var rightY: int
    var rightDirection: int
    var rightEvent: int

    /** Neutral state: no button, no event, sticks centred, timestamps 0. */
    constructor ()
      ensures buttonTimestamp == 0.0 && buttonFlags == 0 && buttonEventName == NO_EVENT
      ensures JoystickDataArray() == [0, 0, 0, 0, 0, 0, 0, 0, 0]
    {
      buttonTimestamp, buttonFlags, buttonEventName := 0.0, 0, NO_EVENT;
      joystickTimestamp := 0;
      leftX, leftY, leftDirection, leftEvent := 0, 0, 0, 0;
      rightX, rightY, rightDirection, rightEvent := 0, 0, 0, 0;
    }

    /**
     * `updateButtonData(button)` at wall-clock time `nowMillis`: a null
     * message changes nothing; otherwise the time in seconds, the flags and
     * the event name ("None_" without an event) replace the button state.
     * The joystick state is never touched.
     */
    method UpdateButtonData(button: Option<ButtonMessage>, nowMillis: int)
      modifies this
      ensures button.None? ==> ButtonDataObject() == old(ButtonDataObject())
      ensures button.Some? ==> ButtonDataObject() == ButtonData(nowMillis as real / 1000.0, button.value.button,
        if button.value.event.Some? then button.value.event.value else NO_EVENT)
      ensures JoystickDataObject() == old(JoystickDataObject())
    {
      if button.Some? {
        buttonTimestamp := nowMillis as real / 1000.0;
        buttonFlags := button.value.button;
        buttonEventName := if button.value.event.Some? then button.value.event.value else NO_EVENT;
      }
    }

    /**
     * `updateJoystickData(joystick)` at wall-clock time `nowMillis`: a null
     * message changes nothing; otherwise whole seconds (as an `int`) and
     * both sticks replace the joystick state. The button state is never touched.
     */
    method UpdateJoystickData(joystick: Option<JoystickMessage>, nowMillis: int)
      requires nowMillis >= 0
      modifies this
      ensures joystick.None? ==> JoystickDataObject() == old(JoystickDataObject())
      ensures joystick.Some? ==>
        var l := joystick.value.left;
        var r := joystick.value.right;
        JoystickDataObject() == JoystickData(ToInt(nowMillis / 1000),
          l.x, l.y, l.direction, l.event, r.x, r.y, r.direction, r.event)
      ensures ButtonDataObject() == old(ButtonDataObject())
    {
      if joystick.Some? {
        joystickTimestamp := ToInt(nowMillis / 1000);
        leftX := joystick.value.left.x;
        leftY := joystick.value.left.y;
        leftDirection := joystick.value.left.direction;
        leftEvent := joystick.value.left.event;
        rightX := joystick.value.right.x;
        rightY := joystick.value.right.y;
        rightDirection := joystick.value.right.direction;
        rightEvent := joystick.value.right.event;
      }
    }

    /** `getButtonDataArray()`: [timestamp, flags, event name]. */
    function ButtonDataArray(): (a: seq<Element>)
      reads this
      ensures |a| == 3
    {
      [Real(buttonTimestamp), Int(buttonFlags), Text(buttonEventName)]
    }

    /** `getJoystickDataArray()`: [timestamp, left x, y, direction, event, right x, y, direction, event]. */
    function JoystickDataArray(): (a: seq<int>)
      reads this
      ensures |a| == 9
    {
      [joystickTimestamp, leftX, leftY, leftDirection, leftEvent, rightX, rightY, rightDirection, rightEvent]
    }

    function ButtonDataObject(): ButtonData
      reads this
    {
      ButtonData(buttonTimestamp, buttonFlags, buttonEventName)
    }

    function JoystickDataObject(): JoystickData
      reads this
    {
      JoystickData(joystickTimestamp, leftX, leftY, leftDirection, leftEvent, rightX, rightY, rightDirection, rightEvent)
    }

    function LeftJoystickX(): int reads this { leftX }
    function LeftJoystickY(): int reads this { leftY }
    function RightJoystickX(): int reads this { rightX }
    function RightJoystickY(): int reads this { rightY }
    function ButtonFlags(): int reads this { buttonFlags }
    function ButtonEventName(): string reads this { buttonEventName }
  }

  /** The joystick array read back as a value object. */
  function JoystickFromArray(a: seq<int>): JoystickData
    requires |a| == 9
  {
    JoystickData(a[0], a[1], a[2], a[3], a[4], a[5], a[6], a[7], a[8])
  }

  /** The button array read back as a value object, if its elements have the documented kinds. */
  function ButtonFromArray(a: seq<Element>): Option<ButtonData>
  {
    if |a| == 3 && a[0].Real? && a[1].Int? && a[2].Text? then Some(ButtonData(a[0].r, a[1].i, a[2].s))
    else None
  }

  /**
   * The three views agree field for field: each array, read back in its
   * documented order, is the value object, and the typed getters are its fields.
   */
  lemma ViewsMirror(m: ControllerInputManager)
    ensures ButtonFromArray(m.ButtonDataArray()) == Some(m.ButtonDataObject())
    ensures JoystickFromArray(m.JoystickDataArray()) == m.JoystickDataObject()
    ensures m.LeftJoystickX() == m.JoystickDataObject().leftX && m.LeftJoystickY() == m.JoystickDataObject().leftY
    ensures m.RightJoystickX() == m.JoystickDataObject().rightX && m.RightJoystickY() == m.JoystickDataObject().rightY
    ensures m.ButtonFlags() == m.ButtonDataObject().buttonFlags && m.ButtonEventName() == m.ButtonDataObject().eventName
  {
  }
}
