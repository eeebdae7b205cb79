/** The value types declared in src/ofxOpenVR.h. */
module OpenVRTypes {
  import opened Optional

  /** ControllerRole: Left = 0, Right = 1, Unknown = 3 (there is no 2). */
  datatype ControllerRole = Left | Right | Unknown

  /** EventType: 0..3. */
  datatype EventType = ButtonPress | ButtonUnpress | ButtonTouch | ButtonUntouch

  /** ButtonType: 0..4. */
  datatype ButtonType = ButtonSystem | ButtonApplicationMenu | ButtonGrip | ButtonTouchpad | ButtonTrigger

  /** The integer each ControllerRole enumerator stands for. */
  function RoleValue(r: ControllerRole): (v: int)
    ensures v in {0, 1, 3}
  {
    match r
    case Left => 0
    case Right => 1
    case Unknown => 3
  }

  /** The integer each EventType enumerator stands for. */
  function EventTypeValue(e: EventType): (v: int)
    ensures 0 <= v <= 3
  {
    match e
    case ButtonPress => 0
    case ButtonUnpress => 1
    case ButtonTouch => 2
    case ButtonUntouch => 3
  }

  /** The integer each ButtonType enumerator stands for. */
  function ButtonTypeValue(b: ButtonType): (v: int)
    ensures 0 <= v <= 4
  {
    match b
    case ButtonSystem => 0
    case ButtonApplicationMenu => 1
    case ButtonGrip => 2
    case ButtonTouchpad => 3
    case ButtonTrigger => 4
  }

  /** Reading an EventType back from its integer (the cast the drawing
      example's log undoes): defined exactly on 0..3 and inverse to
      EventTypeValue. */
  function EventTypeFromValue(v: int): (r: Option<EventType>)
    ensures r.Some? <==> 0 <= v <= 3
    ensures r.Some? ==> EventTypeValue(r.value) == v
  {
    if v == 0 then Some(ButtonPress)
    else if v == 1 then Some(ButtonUnpress)
    else if v == 2 then Some(ButtonTouch)
    else if v == 3 then Some(ButtonUntouch)
    else None
  }

  /** Reading a ButtonType back from its integer: defined exactly on 0..4. */
  function ButtonTypeFromValue(v: int): (r: Option<ButtonType>)
    ensures r.Some? <==> 0 <= v <= 4
    ensures r.Some? ==> ButtonTypeValue(r.value) == v
  {
    if v == 0 then Some(ButtonSystem)
    else if v == 1 then Some(ButtonApplicationMenu)
    else if v == 2 then Some(ButtonGrip)
    else if v == 3 then Some(ButtonTouchpad)
    else if v == 4 then Some(ButtonTrigger)
    else None
  }

  /** Reading a ControllerRole back from its integer: defined on 0, 1 and 3
      only, so 2 is not a role. */
  function RoleFromValue(v: int): (r: Option<ControllerRole>)
    ensures r.Some? <==> v in {0, 1, 3}
    ensures r.Some? ==> RoleValue(r.value) == v
  {
    if v == 0 then Some(Left)
    else if v == 1 then Some(Right)
    else if v == 3 then Some(Unknown)
    else None
  }

  /** The encodings are injective: decoding an enumerator's value gives the
      enumerator back. */
  lemma EnumEncodingsRoundTrip(r: ControllerRole, e: EventType, b: ButtonType)
    ensures RoleFromValue(RoleValue(r)) == Some(r)
    ensures EventTypeFromValue(EventTypeValue(e)) == Some(e)
    ensures ButtonTypeFromValue(ButtonTypeValue(b)) == Some(b)
  {
  }

  /** ofxOpenVRControllerEvent. The button and event-type fields are left
      unassigned by the source when the runtime reports a code it does not
      list; the model makes them optional. */
  datatype ControllerEvent = ControllerEvent(
    role: ControllerRole,
    button: Option<ButtonType>,
    eventType: Option<EventType>,
    analogX: real,
    analogY: real)

  /** A point of the framework (ofPoint), used for controller positions and
      the trackpad reading. */
  datatype Point = Point(x: real, y: real, z: real)

  const Origin: Point := Point(0.0, 0.0, 0.0)

  /** controllersCount: the addon supports exactly two controllers, index 0
      being the left one and index 1 the right one. */
  function ControllersCount(): (n: nat)
    ensures n == 2
  {
    2
  }

}
