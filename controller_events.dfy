/** How processVREvent (src/ofxOpenVR.cpp) turns a polled runtime event into
    an ofxOpenVRControllerEvent, and which polled events reach the queue. */
module ControllerEvents {
  import opened Optional
  import opened VrSdk
  import opened OpenVRTypes

  /** The runtime's code for each button the addon names. */
  function SdkButtonId(b: ButtonType): nat
  {
    match b
    case ButtonSystem => ButtonSystemId
    case ButtonApplicationMenu => ButtonApplicationMenuId
    case ButtonGrip => ButtonGripId
    case ButtonTouchpad => ButtonTouchpadId
    case ButtonTrigger => ButtonTriggerId
  }

  /** The runtime's code for each event type the addon names. */
  function SdkEventTypeId(e: EventType): nat
  {
    match e
    case ButtonPress => EventButtonPress
    case ButtonUnpress => EventButtonUnpress
    case ButtonTouch => EventButtonTouch
    case ButtonUntouch => EventButtonUntouch
  }

  /** The button switch: one of the five listed codes gives its ButtonType,
      any other code leaves the field unassigned. */
  function ButtonOf(code: nat): (r: Option<ButtonType>)
    ensures r.Some? ==> SdkButtonId(r.value) == code
    ensures r.None? ==> forall b :: SdkButtonId(b) != code
  {
    if code == ButtonSystemId then Some(ButtonSystem)
    else if code == ButtonApplicationMenuId then Some(ButtonApplicationMenu)
    else if code == ButtonGripId then Some(ButtonGrip)
    else if code == ButtonTouchpadId then Some(ButtonTouchpad)
    else if code == ButtonTriggerId then Some(ButtonTrigger)
    else None
  }

  /** The event-type switch: one of the four listed codes gives its
      EventType, any other code leaves the field unassigned. */
  function EventTypeOf(code: nat): (r: Option<EventType>)
    ensures r.Some? ==> SdkEventTypeId(r.value) == code
    ensures r.None? ==> forall e :: SdkEventTypeId(e) != code
  {
    if code == EventButtonPress then Some(ButtonPress)
    else if code == EventButtonUnpress then Some(ButtonUnpress)
    else if code == EventButtonTouch then Some(ButtonTouch)
    else if code == EventButtonUntouch then Some(ButtonUntouch)
    else None
  }

  /** The role test: left hand, right hand, anything else Unknown. */
  function RoleOf(role: SdkRole): (r: ControllerRole)
    ensures r == Left <==> role == RoleLeftHand
    ensures r == Right <==> role == RoleRightHand
  {
    match role
    case RoleLeftHand => Left
    case RoleRightHand => Right
    case _ => Unknown
  }

  /** The switches decode exactly the codes the runtime uses for the
      addon's buttons and event types. */
  lemma SwitchesDecodeSdkCodes(b: ButtonType, e: EventType)
    ensures ButtonOf(SdkButtonId(b)) == Some(b)
    ensures EventTypeOf(SdkEventTypeId(e)) == Some(e)
  {
  }

  /** The event processVREvent builds for an event of a Controller-class
      device. The analog axes are -1 unless the button is the touchpad. */
  function TranslateEvent(e: PolledEvent): (r: ControllerEvent)
    ensures r.role == RoleOf(e.role)
    ensures r.button == ButtonOf(e.button) && r.eventType == EventTypeOf(e.eventType)
    ensures r.button != Some(ButtonTouchpad) ==> r.analogX == -1.0 && r.analogY == -1.0
    ensures r.button == Some(ButtonTouchpad) ==> r.analogX == e.touchpadX && r.analogY == e.touchpadY
  {
    var button := ButtonOf(e.button);
    var touchpad := button == Some(ButtonTouchpad);
    ControllerEvent(
      RoleOf(e.role),
      button,
      EventTypeOf(e.eventType),
      if touchpad then e.touchpadX else -1.0,
      if touchpad then e.touchpadY else -1.0)
  }

  /** Only events of Controller-class devices are queued: never those of
      the headset, of a generic tracker or of a base station. */
  predicate IsControllerEvent(e: PolledEvent): (r: bool)
    ensures r ==> e.deviceClass !in {ClassHmd, ClassGenericTracker, ClassTrackingReference}
  {
    e.deviceClass == ClassController
  }

  /** The queue handleInput leaves behind after polling `polled`, in poll order. */
  function ControllerEventsOf(polled: seq<PolledEvent>): (r: seq<ControllerEvent>)
    ensures |r| <= |polled|
  {
    if polled == [] then []
    else
      var last := polled[|polled| - 1];
      ControllerEventsOf(polled[..|polled| - 1]) + (if IsControllerEvent(last) then [TranslateEvent(last)] else [])
  }

  /** Polling two batches one after the other queues the events of the first
      batch and then those of the second: the order of polling is kept. */
  lemma {:induction false} ControllerEventsOfAppend(p: seq<PolledEvent>, q: seq<PolledEvent>)
    ensures ControllerEventsOf(p + q) == ControllerEventsOf(p) + ControllerEventsOf(q)
    decreases |q|
  {
    if q == [] {
      assert p + q == p;
    } else {
      var q' := q[..|q| - 1];
      assert (p + q)[..|p + q| - 1] == p + q';
      assert (p + q)[|p + q| - 1] == q[|q| - 1];
      ControllerEventsOfAppend(p, q');
    }
  }

  /** Events of other device classes add nothing to the queue. */
  lemma {:induction false} NonControllerEventsAddNothing(polled: seq<PolledEvent>)
    requires forall k :: 0 <= k < |polled| ==> !IsControllerEvent(polled[k])
    ensures ControllerEventsOf(polled) == []
    decreases |polled|
  {
    if polled != [] {
      NonControllerEventsAddNothing(polled[..|polled| - 1]);
    }
  }

  /** When every polled event comes from a controller, the queue holds exactly
      one translated event per polled event, at the same position. */
  lemma {:induction false} ControllerEventsOneEach(polled: seq<PolledEvent>)
    requires forall k :: 0 <= k < |polled| ==> IsControllerEvent(polled[k])
    ensures |ControllerEventsOf(polled)| == |polled|
    ensures forall k :: 0 <= k < |polled| ==> ControllerEventsOf(polled)[k] == TranslateEvent(polled[k])
    decreases |polled|
  {
    if polled != [] {
      ControllerEventsOneEach(polled[..|polled| - 1]);
    }
  }

}
