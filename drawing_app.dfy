/** The drawing example (example-drawing/src/ofApp.cpp): each hand's trigger
    draws into that hand's list of polylines while it is held, the touchpad
    starts a new polyline and the grip erases the hand's drawing. The
    controller positions, and whether a controller moved at least
    polylineResolution since the last recorded point, are inputs. */
module DrawingApp {
  import opened Optional
  import opened VrSdk
  import opened OpenVRTypes
  import opened ControllerEvents
  import opened PoseScan
  import opened RenderModelCache
  import opened OpenVR

  /** An ofPolyline: its points, in order. */
  type Polyline = seq<Point>

  /** One hand's drawing state: its trigger flag, its polylines and the last
      point recorded. */
  datatype Side = Side(triggerPressed: bool, polylines: seq<Polyline>, lastPosition: Point)

  /** Both hands' drawing state. */
  datatype Drawing = Drawing(left: Side, right: Side)

  /** The state setup leaves: no trigger held, no polylines, both last
      positions at the origin. */
  const InitialSide: Side := Side(false, [], Origin)
  const InitialDrawing: Drawing := Drawing(InitialSide, InitialSide)

  /** The reaction of one hand to one of its events (one branch of
      controllerEvent). A button or event type outside the listed ones
      matches none of the cases. */
  function OnSideEvent(s: Side, button: Option<ButtonType>, eventType: Option<EventType>): (r: Side)
    ensures button == Some(ButtonTrigger) && eventType == Some(ButtonPress) ==>
      && r.triggerPressed
      && (s.polylines != [] ==> r.polylines == s.polylines && r.lastPosition == s.lastPosition)
      && (s.polylines == [] ==> r.polylines == [[]] && r.lastPosition == Origin)
    ensures button == Some(ButtonTrigger) && eventType == Some(ButtonUnpress) ==>
      !r.triggerPressed && r.polylines == s.polylines && r.lastPosition == s.lastPosition
    ensures button == Some(ButtonTouchpad) && eventType == Some(ButtonPress) ==>
      r.triggerPressed == s.triggerPressed && r.polylines == s.polylines + [[]] && r.lastPosition == Origin
    ensures button == Some(ButtonGrip) && eventType == Some(ButtonPress) ==>
      r.triggerPressed == s.triggerPressed && r.polylines == [] && r.lastPosition == s.lastPosition
    ensures !(eventType == Some(ButtonPress) || (button == Some(ButtonTrigger) && eventType == Some(ButtonUnpress))) ==> r == s
    ensures button !in {Some(ButtonTrigger), Some(ButtonTouchpad), Some(ButtonGrip)} ==> r == s
  {
    if button == Some(ButtonTrigger) then
      if eventType == Some(ButtonPress) then
        if |s.polylines| == 0 then Side(true, s.polylines + [[]], Origin)
        else s.(triggerPressed := true)
      else if eventType == Some(ButtonUnpress) then s.(triggerPressed := false)
      else s
    else if button == Some(ButtonTouchpad) then
      if eventType == Some(ButtonPress) then s.(polylines := s.polylines + [[]], lastPosition := Origin)
      else s
    else if button == Some(ButtonGrip) then
      if eventType == Some(ButtonPress) then s.(polylines := [])
      else s
    else s
  }

  /** controllerEvent: a Left event acts on the left hand only, a Right
      event on the right hand only, an Unknown one on neither. */
  function OnControllerEvent(d: Drawing, ev: ControllerEvent): (r: Drawing)
    ensures ev.role == Left ==> r.right == d.right
    ensures ev.role == Right ==> r.left == d.left
    ensures ev.role == Unknown ==> r == d
  {
    match ev.role
    case Left => d.(left := OnSideEvent(d.left, ev.button, ev.eventType))
    case Right => d.(right := OnSideEvent(d.right, ev.button, ev.eventType))
    case Unknown => d
  }

  /** The events of a queue handled in order, as update's loop does; events
      that belong to no hand change nothing. */
  function ApplyAll(d: Drawing, events: seq<ControllerEvent>): (r: Drawing)
    ensures (forall k :: 0 <= k < |events| ==> events[k].role == Unknown) ==> r == d
  {
    if events == [] then d
    else OnControllerEvent(ApplyAll(d, events[..|events| - 1]), events[|events| - 1])
  }

  /** A hand whose trigger is held has a polyline to draw into. */
  predicate CanDraw(s: Side)
  {
    s.triggerPressed ==> s.polylines != []
  }

  /** A grip press on a hand. */
  predicate IsGripPress(ev: ControllerEvent)
  {
    ev.button == Some(ButtonGrip) && ev.eventType == Some(ButtonPress)
  }

  /** Every event but a grip press keeps a hand able to draw; a grip press
      while the trigger is held is the one event that does not. */
  lemma OnlyGripBreaksCanDraw(s: Side, button: Option<ButtonType>, eventType: Option<EventType>)
    requires CanDraw(s)
    ensures CanDraw(OnSideEvent(s, button, eventType)) <==>
      !(button == Some(ButtonGrip) && eventType == Some(ButtonPress) && s.triggerPressed)
  {
  }

  /** Handling only events of one hand never changes the other hand. */
  lemma {:induction false} OtherSideUntouched(d: Drawing, events: seq<ControllerEvent>)
    ensures (forall k :: 0 <= k < |events| ==> events[k].role != Right) ==> ApplyAll(d, events).right == d.right
    ensures (forall k :: 0 <= k < |events| ==> events[k].role != Left) ==> ApplyAll(d, events).left == d.left
    decreases |events|
  {
    if events != [] {
      OtherSideUntouched(d, events[..|events| - 1]);
    }
  }

  /** Without grip presses a hand's polylines only ever grow, each earlier
      polyline staying as it was. */
  lemma {:induction false} PolylinesGrowWithoutGrip(d: Drawing, events: seq<ControllerEvent>)
    requires forall k :: 0 <= k < |events| ==> !IsGripPress(events[k])
    ensures d.left.polylines <= ApplyAll(d, events).left.polylines
    ensures d.right.polylines <= ApplyAll(d, events).right.polylines
    decreases |events|
  {
    if events != [] {
      PolylinesGrowWithoutGrip(d, events[..|events| - 1]);
    }
  }

  /** Without grip presses both hands stay able to draw. */
  lemma {:induction false} CanDrawWithoutGrip(d: Drawing, events: seq<ControllerEvent>)
    requires CanDraw(d.left) && CanDraw(d.right)
    requires forall k :: 0 <= k < |events| ==> !IsGripPress(events[k])
    ensures CanDraw(ApplyAll(d, events).left) && CanDraw(ApplyAll(d, events).right)
    decreases |events|
  {
    if events != [] {
      var init := events[..|events| - 1];
      var ev := events[|events| - 1];
      CanDrawWithoutGrip(d, init);
      OnlyGripBreaksCanDraw(ApplyAll(d, init).left, ev.button, ev.eventType);
      OnlyGripBreaksCanDraw(ApplyAll(d, init).right, ev.button, ev.eventType);
    }
  }

  // ---- the last-element write of update ----

  /** The guard under which update's write to the last polyline is in
      bounds: when the write happens, the list is not empty. */
  predicate ExtendInBounds(s: Side, connected: bool, moved: bool)
  {
    s.triggerPressed && connected && moved ==> s.polylines != []
  }

  /** The drawing step of update as written: with the trigger held, the
      controller connected and moved far enough, the point is added to the
      polyline at index size() - 1 and becomes the last position. */
  function ExtendAsWritten(s: Side, connected: bool, pos: Point, moved: bool): (r: Side)
    requires ExtendInBounds(s, connected, moved)
    ensures |r.polylines| == |s.polylines| && r.triggerPressed == s.triggerPressed
  {
    if s.triggerPressed && connected && moved then
      var last := |s.polylines| - 1;
      s.(polylines := s.polylines[last := s.polylines[last] + [pos]], lastPosition := pos)
    else s
  }

  /** Pressing the trigger and then the grip, from the initial state, leaves
      the trigger held over an empty list: the next update with the
      controller connected and moved writes at index -1. */
  lemma TriggerThenGripBreaksUpdate()
    ensures var s := OnSideEvent(OnSideEvent(InitialSide, Some(ButtonTrigger), Some(ButtonPress)),
                                 Some(ButtonGrip), Some(ButtonPress));
      s.triggerPressed && s.polylines == [] && !ExtendInBounds(s, true, true)
  {
  }

  /** The drawing step as intended: the point goes to the last polyline, and
      when the grip has erased every polyline while the trigger is held a
      new polyline starts at the point. */
  function ExtendLine(s: Side, connected: bool, pos: Point, moved: bool): (r: Side)
    ensures s.triggerPressed && connected && moved ==>
      r.polylines != [] && r.polylines[|r.polylines| - 1] != [] && r.polylines[|r.polylines| - 1][|r.polylines[|r.polylines| - 1]| - 1] == pos
      && r.lastPosition == pos
    ensures !(s.triggerPressed && connected && moved) ==> r == s
    ensures r.triggerPressed == s.triggerPressed
    ensures CanDraw(s) ==> CanDraw(r)
    ensures ExtendInBounds(s, connected, moved) ==> r == ExtendAsWritten(s, connected, pos, moved)
  {
    if s.triggerPressed && connected && moved then
      if s.polylines == [] then s.(polylines := [[pos]], lastPosition := pos)
      else
        var last := |s.polylines| - 1;
        s.(polylines := s.polylines[last := s.polylines[last] + [pos]], lastPosition := pos)
    else s
  }

  /** The drawing step of update for both hands: the triggers are kept, a
      hand that could draw still can, and a hand whose trigger is not held
      is left alone. */
  function ExtendBoth(d: Drawing, leftConnected: bool, leftPos: Point, leftMoved: bool,
                      rightConnected: bool, rightPos: Point, rightMoved: bool): (r: Drawing)
    ensures r.left.triggerPressed == d.left.triggerPressed && r.right.triggerPressed == d.right.triggerPressed
    ensures CanDraw(d.left) ==> CanDraw(r.left)
    ensures CanDraw(d.right) ==> CanDraw(r.right)
    ensures !d.left.triggerPressed ==> r.left == d.left
    ensures !d.right.triggerPressed ==> r.right == d.right
  {
    Drawing(ExtendLine(d.left, leftConnected, leftPos, leftMoved),
            ExtendLine(d.right, rightConnected, rightPos, rightMoved))
  }

  // ---- keys ----

  /** polylineResolution after a key: '+' and '=' raise it by 0.0001, '-'
      and '_' lower it by 0.0001 but never below 0, other keys keep it. */
  function ResolutionAfterKey(resolution: real, key: char): (r: real)
    ensures resolution >= 0.0 ==> r >= 0.0
    ensures key in {'+', '='} ==> r > resolution
    ensures key in {'-', '_'} ==> r >= 0.0 && (r == 0.0 || r == resolution - 0.0001) && (resolution >= 0.0 ==> r <= resolution)
    ensures key !in {'+', '=', '-', '_'} ==> r == resolution
  {
    if key == '+' || key == '=' then resolution + 0.0001
    else if key == '-' || key == '_' then
      if resolution - 0.0001 < 0.0 then 0.0 else resolution - 0.0001
    else resolution
  }

  class DrawingApp {
    const vr: OpenVR
    var showHelp: bool
    var useShader: bool
    var polylineResolution: real
    var leftTriggerPressed: bool
    var rightTriggerPressed: bool
    var leftPolylines: seq<Polyline>
    var rightPolylines: seq<Polyline>
    var lastLeftPosition: Point
    var lastRightPosition: Point

    predicate Valid()
      reads this, vr, vr.slots
    {
      vr.Valid() && polylineResolution >= 0.0
    }

    /** Both hands' state as a Drawing. */
    function State(): Drawing
      reads this
    {
      Drawing(Side(leftTriggerPressed, leftPolylines, lastLeftPosition),
              Side(rightTriggerPressed, rightPolylines, lastRightPosition))
    }

    /** setup: help shown, shaders used, resolution 0.004, no drawing. */
    constructor(hmd: bool)
      ensures Valid() && fresh(vr) && fresh(vr.slots)
      ensures vr.hmdPresent == hmd && vr.MeshBuilt()
      ensures State() == InitialDrawing
      ensures showHelp && useShader && polylineResolution == 0.004
    {
      vr := new OpenVR(hmd);
      showHelp := true;
      useShader := true;
      polylineResolution := 0.004;
      leftTriggerPressed := false;
      rightTriggerPressed := false;
      leftPolylines := [];
      rightPolylines := [];
      lastLeftPosition := Origin;
      lastRightPosition := Origin;
    }

    /** controllerEvent. */
    method ControllerEvent(ev: ControllerEvent)
      modifies this`leftTriggerPressed, this`leftPolylines, this`lastLeftPosition
      modifies this`rightTriggerPressed, this`rightPolylines, this`lastRightPosition
      ensures State() == OnControllerEvent(old(State()), ev)
    {
      if ev.role == Left {
        if ev.button == Some(ButtonTrigger) {
          if ev.eventType == Some(ButtonPress) {
            leftTriggerPressed := true;
            if |leftPolylines| == 0 {
              leftPolylines := leftPolylines + [[]];
              lastLeftPosition := Origin;
            }
          } else if ev.eventType == Some(ButtonUnpress) {
            leftTriggerPressed := false;
          }
        } else if ev.button == Some(ButtonTouchpad) {
          if ev.eventType == Some(ButtonPress) {
            leftPolylines := leftPolylines + [[]];
            lastLeftPosition := Origin;
          }
        } else if ev.button == Some(ButtonGrip) {
          if ev.eventType == Some(ButtonPress) {
            leftPolylines := [];
          }
        }
      } else if ev.role == Right {
        if ev.button == Some(ButtonTrigger) {
          if ev.eventType == Some(ButtonPress) {
            rightTriggerPressed := true;
            if |rightPolylines| == 0 {
              rightPolylines := rightPolylines + [[]];
              lastRightPosition := Origin;
            }
          } else if ev.eventType == Some(ButtonUnpress) {
            rightTriggerPressed := false;
          }
        } else if ev.button == Some(ButtonTouchpad) {
          if ev.eventType == Some(ButtonPress) {
            rightPolylines := rightPolylines + [[]];
            lastRightPosition := Origin;
          }
        } else if ev.button == Some(ButtonGrip) {
          if ev.eventType == Some(ButtonPress) {
            rightPolylines := [];
          }
        }
      }
    }

    /** The drawing step of update (the two trigger-held blocks), as
        intended: each hand whose trigger is held, whose controller is
        connected and which moved far enough extends its last polyline. */
    method DrawStep(leftConnected: bool, leftPos: Point, leftMoved: bool,
                    rightConnected: bool, rightPos: Point, rightMoved: bool)
      modifies this`leftPolylines, this`lastLeftPosition, this`rightPolylines, this`lastRightPosition
      ensures State() == ExtendBoth(old(State()), leftConnected, leftPos, leftMoved, rightConnected, rightPos, rightMoved)
    {
      if leftTriggerPressed && leftConnected && leftMoved {
        if leftPolylines == [] {
          leftPolylines := [[leftPos]];
        } else {
          var last := |leftPolylines| - 1;
          leftPolylines := leftPolylines[last := leftPolylines[last] + [leftPos]];
        }
        lastLeftPosition := leftPos;
      }
      if rightTriggerPressed && rightConnected && rightMoved {
        if rightPolylines == [] {
          rightPolylines := [[rightPos]];
        } else {
          var last := |rightPolylines| - 1;
          rightPolylines := rightPolylines[last := rightPolylines[last] + [rightPos]];
        }
        lastRightPosition := rightPos;
      }
    }

    /** The event loop of update: every queued controller event, in queue
        order, goes to controllerEvent until the queue is empty. */
    method DrainEvents()
      requires vr.Valid()
      modifies this`leftTriggerPressed, this`leftPolylines, this`lastLeftPosition
      modifies this`rightTriggerPressed, this`rightPolylines, this`lastRightPosition
      modifies vr`events
      ensures vr.Valid() && vr.events == []
      ensures State() == ApplyAll(old(State()), old(vr.events))
    {
      ghost var done: seq<ControllerEvent> := [];
      while vr.HasControllerEvents()
        invariant vr.Valid()
        invariant old(vr.events) == done + vr.events
        invariant State() == ApplyAll(old(State()), done)
        decreases |vr.events|
      {
        var ok, event := vr.GetNextControllerEvent(OpenVRTypes.ControllerEvent(Unknown, None, None, 0.0, 0.0));
        ControllerEvent(event);
        assert (done + [event])[..|done|] == done;
        done := done + [event];
      }
      assert done == old(vr.events);
    }

    /** update: the addon's update, then every queued event in order, then
        each hand's drawing step. `connected` holds the runtime's answer for
        each device slot; a hand's position and whether it moved at least
        polylineResolution since its last point are inputs. */
    method Update(polled: seq<PolledEvent>, poses: seq<DevicePose>, connected: seq<bool>,
                  leftPos: Point, leftMoved: bool, rightPos: Point, rightMoved: bool)
      requires Valid() && |poses| == MaxTrackedDeviceCount
      modifies this`leftTriggerPressed, this`leftPolylines, this`lastLeftPosition
      modifies this`rightTriggerPressed, this`rightPolylines, this`lastRightPosition
      modifies vr`events, vr`models, vr.slots, vr`validPoseCount, vr`validPoseCountLast
      modifies vr`trackedControllerCount, vr`trackedControllerCountLast, vr`leftControllerId, vr`rightControllerId
      ensures Valid() && vr.events == []
      ensures vr.hmdPresent ==> vr.models == CacheAfterLookups(old(vr.models), ActivationRequests(polled))
      ensures vr.hmdPresent ==> vr.slots[..] == SlotsAfterEvents(old(vr.slots[..]), old(vr.models), polled)
      ensures !vr.hmdPresent ==> vr.models == old(vr.models) && unchanged(vr.slots)
      ensures vr.trackedControllerCountLast == old(vr.trackedControllerCount)
      ensures vr.validPoseCountLast == old(vr.validPoseCount)
      ensures vr.hmdPresent ==> vr.validPoseCount == ValidPoseCount(poses)
                                && vr.trackedControllerCount == TrackedControllerCount(poses)
      ensures vr.hmdPresent ==> vr.leftControllerId == LastHandSlot(poses, RoleLeftHand)
                                && vr.rightControllerId == LastHandSlot(poses, RoleRightHand)
      ensures !vr.hmdPresent ==> vr.validPoseCount == old(vr.validPoseCount)
                                 && vr.trackedControllerCount == old(vr.trackedControllerCount)
                                 && vr.leftControllerId == old(vr.leftControllerId)
                                 && vr.rightControllerId == old(vr.rightControllerId)
      ensures State() == ExtendBoth(
        ApplyAll(old(State()), ControllerEventsOf(if vr.hmdPresent then polled else [])),
        vr.IsControllerConnected(0, connected), leftPos, leftMoved,
        vr.IsControllerConnected(1, connected), rightPos, rightMoved)
    {
      var _ := vr.Update(polled, poses);
      DrainEvents();
      var leftConnected := vr.IsControllerConnected(0, connected);
      var rightConnected := vr.IsControllerConnected(1, connected);
      DrawStep(leftConnected, leftPos, leftMoved, rightConnected, rightPos, rightMoved);
    }

    /** keyPressed: '+', '=', '-' and '_' adjust the resolution (never
        below 0), 'h' toggles the help, ' ' toggles the shader, 'm' toggles
        the render models of the tracked devices; other keys change nothing. */
    method KeyPressed(key: char, devices: seq<DeviceInfo>)
      requires Valid() && |devices| == MaxTrackedDeviceCount
      modifies this`polylineResolution, this`showHelp, this`useShader
      modifies vr`renderModelsEnabled, vr`models, vr.slots
      ensures Valid()
      ensures polylineResolution == ResolutionAfterKey(old(polylineResolution), key)
      ensures showHelp == (if key == 'h' then !old(showHelp) else old(showHelp))
      ensures useShader == (if key == ' ' then !old(useShader) else old(useShader))
      ensures key == 'm' ==> vr.renderModelsEnabled == !old(vr.renderModelsEnabled)
      ensures key == 'm' && vr.renderModelsEnabled ==> vr.SlotsSetUpFor(devices, old(vr.models))
      ensures key != 'm' ==>
        vr.renderModelsEnabled == old(vr.renderModelsEnabled) && vr.models == old(vr.models) && unchanged(vr.slots)
    {
      polylineResolution := ResolutionAfterKey(polylineResolution, key);
      if key == 'h' {
        showHelp := !showHelp;
      } else if key == 'm' {
        vr.SetRenderModelForTrackedDevices(!vr.renderModelsEnabled, devices);
      } else if key == ' ' {
        useShader := !useShader;
      }
    }
  }

}
