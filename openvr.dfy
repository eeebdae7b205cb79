/** The ofxOpenVR object (src/ofxOpenVR.cpp): the controller-event queue,
    the per-frame pose scan and its change report, the lens-distortion
    buffer, the grid and mirror-window toggles, the render-model cache with
    its per-device slots, and the controller-index conversions. Everything
    the runtime answers (polled events, poses, connection, controller state,
    render-model names and load outcomes) is a parameter. */
module OpenVR {
  import opened Optional
  import opened VrSdk
  import opened OpenVRTypes
  import opened ControllerEvents
  import opened PoseScan
  import opened LensMesh
  import opened RenderModelCache

  // ---- controller index conventions ----

  /** toControllerRole: controller 0 is the left hand, 1 the right hand,
      anything else no role. */
  function ToControllerRole(controller: int): (r: SdkRole)
    ensures r == RoleLeftHand <==> controller == 0
    ensures r == RoleRightHand <==> controller == 1
    ensures controller != 0 && controller != 1 ==> r == RoleInvalid
  {
    if controller == 0 then RoleLeftHand
    else if controller == 1 then RoleRightHand
    else RoleInvalid
  }

  /** toEye: 0 is the left eye, every other index the right eye. */
  function ToEye(i: int): (e: Eye)
    ensures e == EyeLeft <==> i == 0
  {
    if i == 0 then EyeLeft else EyeRight
  }

  /** The conversions agree with one another and with the event roles:
      index 0 is left and index 1 right for eye, runtime role and the
      ControllerRole an event carries, whose value is the index itself. */
  lemma IndexConventionsAgree(c: int)
    requires 0 <= c < ControllersCount()
    ensures ToEye(c) == EyeLeft <==> ToControllerRole(c) == RoleLeftHand
    ensures RoleOf(ToControllerRole(c)) == (if c == 0 then Left else Right)
    ensures RoleValue(RoleOf(ToControllerRole(c))) == c
  {
  }

  /** IsTrackedDeviceConnected for a device ID, given the runtime's answer
      for each of the 64 slots; an ID outside the slots (-1) is not a
      connected device. */
  predicate SlotConnected(connected: seq<bool>, id: int)
  {
    0 <= id < |connected| && connected[id]
  }

  // ---- trackpad ----

  /** The touched-button bit getTrackPadState tests: 2^32, the bit of
      k_EButton_SteamVR_Touchpad. */
  const TouchpadTouchedMask: bv64 := 0x1_0000_0000

  /** The point getTrackPadState returns for an untouched trackpad. */
  const UntouchedTrackpad: Point := Point(-1000.0, -1000.0, 0.0)

  predicate TouchpadTouched(s: ControllerState)
  {
    s.buttonTouched & TouchpadTouchedMask != 0
  }

  /** The documented range of a trackpad reading, [-1..1] x [-1..1]. */
  predicate InTrackpadSquare(p: Point)
  {
    -1.0 <= p.x <= 1.0 && -1.0 <= p.y <= 1.0
  }

  /** The mask is the touchpad button's bit, and the untouched reading lies
      outside the documented range, so it cannot be mistaken for a touch. */
  lemma TrackpadConstants()
    ensures TouchpadTouchedMask == (1 as bv64) << ButtonTouchpadId
    ensures !InTrackpadSquare(UntouchedTrackpad)
  {
  }

  // ---- render-model requests ----

  /** setupRenderModels visits a connected device unless it is a tracking
      reference (a base station). */
  predicate EligibleForModel(d: DeviceInfo)
  {
    d.connected && d.deviceClass != ClassTrackingReference
  }

  /** A polled event that makes processVREvent set up a render model: an
      activation of a device inside the 64 slots. */
  predicate LoadsModel(e: PolledEvent)
  {
    e.eventType == EventTrackedDeviceActivated && e.device < MaxTrackedDeviceCount
  }

  /** The model lookups the polled events cause, in order. */
  function ActivationRequests(polled: seq<PolledEvent>): (r: seq<ModelRequest>)
    ensures |r| <= |polled|
  {
    if polled == [] then []
    else
      var e := polled[|polled| - 1];
      ActivationRequests(polled[..|polled| - 1])
        + (if LoadsModel(e) then [ModelRequest(e.modelName, e.load)] else [])
  }

  /** Some polled event activates device k. */
  predicate Activates(polled: seq<PolledEvent>, k: nat)
  {
    exists j :: 0 <= j < |polled| && polled[j].eventType == EventTrackedDeviceActivated && polled[j].device == k
  }

  /** The model lookups setupRenderModels makes for devices 1 .. n-1. */
  function SetupRequests(devices: seq<DeviceInfo>, n: nat): (r: seq<ModelRequest>)
    requires n <= |devices|
    ensures |r| <= n
  {
    if n <= HmdDeviceIndex + 1 then []
    else
      var d := devices[n - 1];
      SetupRequests(devices, n - 1)
        + (if EligibleForModel(d) then [ModelRequest(d.modelName, d.load)] else [])
  }

  /** Processing one more polled event adds its lookups after the earlier
      ones, and its activation to the devices activated. */
  lemma ActivationRequestsStep(models: seq<string>, before: seq<PolledEvent>, e: PolledEvent)
    ensures CacheAfterLookups(models, ActivationRequests(before + [e]))
      == CacheAfterLookups(CacheAfterLookups(models, ActivationRequests(before)), ActivationRequests([e]))
    ensures forall k :: Activates(before + [e], k) <==> Activates(before, k) || Activates([e], k)
  {
    assert (before + [e])[..|before|] == before;
    assert [e][..0] == [];
    assert ActivationRequests(before + [e]) == ActivationRequests(before) + ActivationRequests([e]);
    CacheAfterLookupsAppend(models, ActivationRequests(before), ActivationRequests([e]));
    forall k | Activates(before + [e], k) ensures Activates(before, k) || Activates([e], k) {
      var j :| 0 <= j < |before| + 1 && (before + [e])[j].eventType == EventTrackedDeviceActivated && (before + [e])[j].device == k;
      if j == |before| {
        assert [e][0] == e;
      } else {
        assert before[j] == (before + [e])[j];
      }
    }
    forall k | Activates(before, k) ensures Activates(before + [e], k) {
      var j :| 0 <= j < |before| && before[j].eventType == EventTrackedDeviceActivated && before[j].device == k;
      assert (before + [e])[j] == before[j];
    }
    forall k | Activates([e], k) ensures Activates(before + [e], k) {
      assert (before + [e])[|before|] == e;
    }
  }

  /** What a single polled event queues, looks up and activates. */
  lemma SingleEvent(models: seq<string>, e: PolledEvent)
    ensures ControllerEventsOf([e]) == if IsControllerEvent(e) then [TranslateEvent(e)] else []
    ensures CacheAfterLookups(models, ActivationRequests([e]))
      == if LoadsModel(e) then CacheAfterLookup(models, e.modelName, e.load) else models
    ensures forall k :: Activates([e], k) <==> e.eventType == EventTrackedDeviceActivated && e.device == k
  {
    assert [e][..0] == [];
    assert [e][0] == e;
    var r := if LoadsModel(e) then [ModelRequest(e.modelName, e.load)] else [];
    assert ActivationRequests([e]) == r;
    if LoadsModel(e) {
      assert r[..0] == [];
    }
  }

  /** Visiting device n adds its lookup when it is eligible and nothing
      otherwise. */
  lemma SetupRequestsStep(models: seq<string>, devices: seq<DeviceInfo>, n: nat)
    requires HmdDeviceIndex + 1 <= n < |devices|
    ensures CacheAfterLookups(models, SetupRequests(devices, n + 1))
      == if EligibleForModel(devices[n])
         then CacheAfterLookup(CacheAfterLookups(models, SetupRequests(devices, n)), devices[n].modelName, devices[n].load)
         else CacheAfterLookups(models, SetupRequests(devices, n))
  {
    var requests := SetupRequests(devices, n);
    if EligibleForModel(devices[n]) {
      var r := ModelRequest(devices[n].modelName, devices[n].load);
      assert SetupRequests(devices, n + 1) == requests + [r];
      assert (requests + [r])[..|requests|] == requests;
    } else {
      assert SetupRequests(devices, n + 1) == requests + [];
      assert requests + [] == requests;
    }
  }

  /** The lookups of devices 1 .. k-1 are the first of those of devices
      1 .. n-1. */
  lemma {:induction false} SetupRequestsPrefix(devices: seq<DeviceInfo>, k: nat, n: nat)
    requires k <= n <= |devices|
    ensures SetupRequests(devices, k) <= SetupRequests(devices, n)
    decreases n
  {
    if k < n && n > HmdDeviceIndex + 1 {
      SetupRequestsPrefix(devices, k, n - 1);
    }
  }

  // ---- the slot tables ----

  /** A table of 64 empty slots. */
  const NoSlots: seq<Option<nat>> := seq(MaxTrackedDeviceCount, _ => None)

  /** The slot setupRenderModels leaves for device k when there is a
      headset, starting from the cache models0: empty for the headset and
      for a device it does not visit, otherwise the first model answering to
      the device's name in the cache as the device's own lookup leaves it. */
  function SetupSlot(devices: seq<DeviceInfo>, models0: seq<string>, k: nat): Option<nat>
    requires |devices| == MaxTrackedDeviceCount && k < MaxTrackedDeviceCount
  {
    if k == HmdDeviceIndex || !EligibleForModel(devices[k]) then None
    else ModelIndex(CacheAfterLookups(models0, SetupRequests(devices, k + 1)), devices[k].modelName)
  }

  /** The table setupRenderModels has built, with a headset, once it has
      visited devices 1 .. n-1: their slots as SetupSlot says, the others
      empty. With n = 64 it is the table setupRenderModels leaves. */
  function SetupSlots(devices: seq<DeviceInfo>, models0: seq<string>, n: nat): (r: seq<Option<nat>>)
    requires |devices| == MaxTrackedDeviceCount && n <= MaxTrackedDeviceCount
    ensures |r| == MaxTrackedDeviceCount
  {
    seq(MaxTrackedDeviceCount, k requires 0 <= k < MaxTrackedDeviceCount =>
      if k < n then SetupSlot(devices, models0, k) else None)
  }

  /** Before any device is visited the table is empty; visiting device n
      sets its slot and no other. */
  lemma SetupSlotsStep(devices: seq<DeviceInfo>, models0: seq<string>, n: nat)
    requires |devices| == MaxTrackedDeviceCount && n < MaxTrackedDeviceCount
    ensures SetupSlots(devices, models0, HmdDeviceIndex + 1) == NoSlots
    ensures SetupSlots(devices, models0, n + 1) == SetupSlots(devices, models0, n)[n := SetupSlot(devices, models0, n)]
  {
    assert SetupSlots(devices, models0, HmdDeviceIndex + 1)[HmdDeviceIndex] == None;
  }

  /** A table of 64 empty slots is NoSlots. */
  lemma NoSlotsByEntry(t: seq<Option<nat>>)
    requires |t| == MaxTrackedDeviceCount
    requires forall k :: 0 <= k < |t| ==> t[k] == None
    ensures t == NoSlots
  {
  }

  /** Device k's slot after setupRenderModels is filled exactly when k is not
      the headset, the device is visited, and its name was already cached
      when its turn came or its model loads; a filled slot points at a model
      answering to the device's name in the final cache. */
  lemma SetupSlotMeaning(devices: seq<DeviceInfo>, models0: seq<string>, k: nat)
    requires |devices| == MaxTrackedDeviceCount && k < MaxTrackedDeviceCount
    ensures SetupSlot(devices, models0, k).Some? <==>
      && k != HmdDeviceIndex && EligibleForModel(devices[k])
      && (HasModelNamed(CacheAfterLookups(models0, SetupRequests(devices, k)), devices[k].modelName)
          || devices[k].load == Loaded)
    ensures var r := SetupSlot(devices, models0, k);
      var final := CacheAfterLookups(models0, SetupRequests(devices, MaxTrackedDeviceCount));
      r.Some? ==> r.value < |final| && SameNameIgnoringCase(final[r.value], devices[k].modelName)
  {
    if k != HmdDeviceIndex && EligibleForModel(devices[k]) {
      SetupSlotFilled(devices, models0, k);
      SetupSlotInFinalCache(devices, models0, k);
    }
  }

  /** The first half of SetupSlotMeaning: when a visited device's slot is
      filled. */
  lemma SetupSlotFilled(devices: seq<DeviceInfo>, models0: seq<string>, k: nat)
    requires |devices| == MaxTrackedDeviceCount && HmdDeviceIndex < k < MaxTrackedDeviceCount
    requires EligibleForModel(devices[k])
    ensures SetupSlot(devices, models0, k).Some? <==>
      HasModelNamed(CacheAfterLookups(models0, SetupRequests(devices, k)), devices[k].modelName)
      || devices[k].load == Loaded
  {
    var before := CacheAfterLookups(models0, SetupRequests(devices, k));
    SetupRequestsStep(models0, devices, k);
    LookupGrowsByAtMostOne(before, devices[k].modelName, devices[k].load);
  }

  /** The second half of SetupSlotMeaning: the model a visited device's
      slot points at is still there, at the same index, in the final cache. */
  lemma SetupSlotInFinalCache(devices: seq<DeviceInfo>, models0: seq<string>, k: nat)
    requires |devices| == MaxTrackedDeviceCount && HmdDeviceIndex < k < MaxTrackedDeviceCount
    requires EligibleForModel(devices[k])
    ensures var r := SetupSlot(devices, models0, k);
      var final := CacheAfterLookups(models0, SetupRequests(devices, MaxTrackedDeviceCount));
      r.Some? ==> r.value < |final| && SameNameIgnoringCase(final[r.value], devices[k].modelName)
  {
    var p := SetupRequests(devices, k + 1);
    var q := SetupRequests(devices, MaxTrackedDeviceCount);
    SetupRequestsPrefix(devices, k + 1, MaxTrackedDeviceCount);
    assert q == p + q[|p|..];
    CacheAfterLookupsAppend(models0, p, q[|p|..]);
    var m := CacheAfterLookups(models0, p);
    assert m <= CacheAfterLookups(models0, q);
  }

  /** The slot table after setupRenderModelForTrackedDevice(index, name)
      from table s and cache models: an index inside the table has its slot
      pointed at the first model answering to the name once the lookup is
      done, and kept as it was when there is none; an index outside the
      table changes nothing. */
  function SlotsAfterLookup(s: seq<Option<nat>>, models: seq<string>, index: nat, name: string,
                            load: LoadOutcome): (r: seq<Option<nat>>)
    ensures |r| == |s|
  {
    if index < |s| then
      var m := CacheAfterLookup(models, name, load);
      if HasModelNamed(m, name) then s[index := ModelIndex(m, name)] else s
    else s
  }

  /** The slot table after processVREvent(e): an activation of a device
      inside the 64 slots sets up that device's slot; every other event
      leaves the table alone. */
  function SlotsAfterEvent(s: seq<Option<nat>>, models: seq<string>, e: PolledEvent): (r: seq<Option<nat>>)
    ensures |r| == |s|
  {
    if LoadsModel(e) then SlotsAfterLookup(s, models, e.device, e.modelName, e.load) else s
  }

  /** The slot table after processVREvent over the polled events, in order. */
  function SlotsAfterEvents(s: seq<Option<nat>>, models: seq<string>, polled: seq<PolledEvent>): (r: seq<Option<nat>>)
    ensures |r| == |s|
  {
    if polled == [] then s
    else
      var init := polled[..|polled| - 1];
      SlotsAfterEvent(SlotsAfterEvents(s, models, init), CacheAfterLookups(models, ActivationRequests(init)),
                      polled[|polled| - 1])
  }

  /** The position of the last polled event activating device k, or -1
      when no event activates it. */
  function LastActivation(polled: seq<PolledEvent>, k: nat): (j: int)
    ensures -1 <= j < |polled|
    ensures j >= 0 <==> Activates(polled, k)
    ensures j >= 0 ==> polled[j].eventType == EventTrackedDeviceActivated && polled[j].device == k
    ensures forall i :: j < i < |polled| ==> !(polled[i].eventType == EventTrackedDeviceActivated && polled[i].device == k)
  {
    if polled == [] then -1
    else
      var e := polled[|polled| - 1];
      if e.eventType == EventTrackedDeviceActivated && e.device == k then |polled| - 1
      else
        var init := polled[..|polled| - 1];
        assert forall i :: 0 <= i < |init| ==> init[i] == polled[i];
        LastActivation(init, k)
  }

  /** How the polled events decide device k's slot: a device never
      activated keeps its slot; an activated device's slot is decided by its
      last activation: it points at the first model answering to that
      event's name in the cache right after that lookup, and when that
      lookup left no such model it is what the earlier events left. */
  predicate SlotDecidedByLastActivation(s: seq<Option<nat>>, models: seq<string>,
                                        polled: seq<PolledEvent>, k: nat)
    requires k < |s|
  {
    var r := SlotsAfterEvents(s, models, polled)[k];
    var j := LastActivation(polled, k);
    if j < 0 then r == s[k]
    else
      var m := CacheAfterLookups(models, ActivationRequests(polled[..j + 1]));
      var name := polled[j].modelName;
      if HasModelNamed(m, name) then r == ModelIndex(m, name)
      else r == SlotsAfterEvents(s, models, polled[..j])[k]
  }

  /** Every device's slot after the polled events is decided by its last
      activation, and a device never activated keeps its slot. */
  lemma {:induction false} SlotAfterLastActivation(s: seq<Option<nat>>, models: seq<string>,
                                                    polled: seq<PolledEvent>, k: nat)
    requires |s| == MaxTrackedDeviceCount && k < |s|
    ensures SlotDecidedByLastActivation(s, models, polled, k)
    ensures !Activates(polled, k) ==> SlotsAfterEvents(s, models, polled)[k] == s[k]
    decreases |polled|
  {
    if polled != [] {
      var e := polled[|polled| - 1];
      if e.eventType == EventTrackedDeviceActivated && e.device == k {
        SlotSetByLastEvent(s, models, polled);
      } else {
        SlotAfterLastActivation(s, models, polled[..|polled| - 1], k);
        SlotKeptByOtherEvent(s, models, polled, k);
      }
    }
  }

  /** An event at the end of the polled events that does not activate
      device k leaves its slot and its last activation as they were. */
  lemma SlotKeptByOtherEvent(s: seq<Option<nat>>, models: seq<string>, polled: seq<PolledEvent>, k: nat)
    requires |s| == MaxTrackedDeviceCount && k < |s| && polled != []
    requires !(polled[|polled| - 1].eventType == EventTrackedDeviceActivated && polled[|polled| - 1].device == k)
    requires SlotDecidedByLastActivation(s, models, polled[..|polled| - 1], k)
    ensures SlotDecidedByLastActivation(s, models, polled, k)
  {
    OtherEventKeepsSlot(s, models, polled, k);
    OtherEventKeepsLastActivation(polled, k);
  }

  /** The slot part of SlotKeptByOtherEvent. */
  lemma OtherEventKeepsSlot(s: seq<Option<nat>>, models: seq<string>, polled: seq<PolledEvent>, k: nat)
    requires k < |s| && polled != []
    requires !(polled[|polled| - 1].eventType == EventTrackedDeviceActivated && polled[|polled| - 1].device == k)
    ensures SlotsAfterEvents(s, models, polled)[k] == SlotsAfterEvents(s, models, polled[..|polled| - 1])[k]
  {
  }

  /** The last-activation part of SlotKeptByOtherEvent: the position and
      the prefixes up to it are those of the earlier events. */
  lemma OtherEventKeepsLastActivation(polled: seq<PolledEvent>, k: nat)
    requires polled != []
    requires !(polled[|polled| - 1].eventType == EventTrackedDeviceActivated && polled[|polled| - 1].device == k)
    ensures var init := polled[..|polled| - 1];
      var j := LastActivation(init, k);
      && LastActivation(polled, k) == j
      && (j >= 0 ==> polled[..j + 1] == init[..j + 1] && polled[..j] == init[..j] && polled[j] == init[j])
  {
  }

  /** An activation at the end of the polled events decides its device's
      slot from the cache its own lookup leaves. */
  lemma SlotSetByLastEvent(s: seq<Option<nat>>, models: seq<string>, polled: seq<PolledEvent>)
    requires |s| == MaxTrackedDeviceCount && polled != []
    requires polled[|polled| - 1].eventType == EventTrackedDeviceActivated && polled[|polled| - 1].device < |s|
    ensures SlotDecidedByLastActivation(s, models, polled, polled[|polled| - 1].device)
  {
    var init := polled[..|polled| - 1];
    var e := polled[|polled| - 1];
    assert LastActivation(polled, e.device) == |polled| - 1;
    assert polled[..|polled|] == polled;
    assert ActivationRequests(polled) == ActivationRequests(init) + [ModelRequest(e.modelName, e.load)];
    assert CacheAfterLookups(models, ActivationRequests(polled))
      == CacheAfterLookup(CacheAfterLookups(models, ActivationRequests(init)), e.modelName, e.load);
  }

  /** One FadeGrid call of the compositor: its duration and target visibility. */
  datatype Fade = Fade(duration: real, visible: bool)

  class OpenVR {
    /** Whether VR_Init gave a headset (_pHMD != NULL) and GL was set up. */
    const hmdPresent: bool
    /** _rTrackedDeviceToRenderModel: for each device slot, the index of its
        model in the cache, or None for a null pointer. */
    const slots: array<Option<nat>>
    /** The index buffer setupDistortion uploaded and its size (_uiIndexSize). */
    const lensIndices: seq<nat>
    const indexSize: nat

    /** controller_events_. */
    var events: seq<ControllerEvent>
    /** _bIsGridVisible, and the FadeGrid calls made so far. */
    var gridVisible: bool
    var gridFades: seq<Fade>
    /** The compositor's mirror-window visibility. */
    var mirrorVisible: bool
    var validPoseCount: int
    var validPoseCountLast: int
    var trackedControllerCount: int
    var trackedControllerCountLast: int
    var leftControllerId: int
    var rightControllerId: int
    /** _vecRenderModels, each model known by its name. */
    var models: seq<string>
    /** _bRenderModelForTrackedDevices. */
    var renderModelsEnabled: bool

    /** With a headset, the distortion buffer is the lens mesh. */
    predicate MeshBuilt()
    {
      hmdPresent ==> lensIndices == LensIndices() && indexSize == |lensIndices|
    }

    predicate Valid()
      reads this, slots
    {
      && slots.Length == MaxTrackedDeviceCount
      && (!hmdPresent ==> events == [])
      && DistinctIgnoringCase(models)
      && (forall k :: 0 <= k < slots.Length && slots[k].Some? ==> slots[k].value < |models|)
      && 0 <= trackedControllerCount <= validPoseCount <= MaxTrackedDeviceCount
      && -1 <= leftControllerId < MaxTrackedDeviceCount
      && -1 <= rightControllerId < MaxTrackedDeviceCount
      && (if gridFades == [] then !gridVisible else gridFades[|gridFades| - 1].visible == gridVisible)
    }

    /** setup and init: the initial values of the fields, and with a
        headset the distortion mesh. */
    constructor(hmd: bool)
      ensures Valid() && fresh(slots)
      ensures hmdPresent == hmd && MeshBuilt()
      ensures events == [] && models == [] && !renderModelsEnabled
      ensures !gridVisible && gridFades == [] && !mirrorVisible
      ensures validPoseCount == 0 && validPoseCountLast == -1
      ensures trackedControllerCount == 0 && trackedControllerCountLast == -1
      ensures leftControllerId == -1 && rightControllerId == -1
      ensures forall k :: 0 <= k < slots.Length ==> slots[k] == None
    {
      hmdPresent := hmd;
      slots := new Option<nat>[MaxTrackedDeviceCount](_ => None);
      var indices: seq<nat> := [];
      if hmd {
        indices := BuildLensIndices();
      }
      lensIndices := indices;
      indexSize := |indices|;
      events := [];
      gridVisible := false;
      gridFades := [];
      mirrorVisible := false;
      validPoseCount := 0;
      validPoseCountLast := -1;
      trackedControllerCount := 0;
      trackedControllerCountLast := -1;
      leftControllerId := -1;
      rightControllerId := -1;
      models := [];
      renderModelsEnabled := false;
    }

    // ---- the controller-event queue ----

    /** hasControllerEvents. */
    function HasControllerEvents(): (r: bool)
      reads this
      ensures r <==> events != []
    {
      |events| > 0
    }

    /** getNextControllerEvent: pops the front event into `event`; on an
        empty queue reports false and leaves `event` and the queue alone. */
    method GetNextControllerEvent(event: ControllerEvent) returns (ok: bool, event': ControllerEvent)
      requires Valid()
      modifies this`events
      ensures Valid()
      ensures ok <==> old(events) != []
      ensures ok ==> event' == old(events)[0] && [event'] + events == old(events)
      ensures !ok ==> event' == event && events == old(events)
    {
      if HasControllerEvents() {
        event' := events[0];
        events := events[1..];
        return true, event';
      }
      return false, event;
    }

    /** processVREvent: a controller's event joins the queue, translated;
        an activation sets up the device's render model. */
    method ProcessVREvent(e: PolledEvent)
      requires Valid() && hmdPresent
      modifies this`events, this`models, slots
      ensures Valid()
      ensures events == old(events) + ControllerEventsOf([e])
      ensures models == CacheAfterLookups(old(models), ActivationRequests([e]))
      ensures forall k :: 0 <= k < slots.Length && !Activates([e], k) ==> slots[k] == old(slots[k])
      ensures LoadsModel(e) && HasModelNamed(models, e.modelName) ==>
        slots[e.device].Some? && slots[e.device].value < |models|
        && SameNameIgnoringCase(models[slots[e.device].value], e.modelName)
      ensures LoadsModel(e) && !HasModelNamed(models, e.modelName) ==> slots[e.device] == old(slots[e.device])
      ensures slots[..] == SlotsAfterEvent(old(slots[..]), old(models), e)
    {
      SingleEvent(models, e);
      if IsControllerEvent(e) {
        events := events + [TranslateEvent(e)];
      }
      if e.eventType == EventTrackedDeviceActivated {
        SetupRenderModelForTrackedDevice(e.device, e.modelName, e.load);
      }
    }

    /** The state handleInput has reached after processing the first i
        polled events, from the cache models0 and the slot table slots0. */
    predicate HandledUpTo(polled: seq<PolledEvent>, i: nat, models0: seq<string>, slots0: seq<Option<nat>>)
      reads this, slots
      requires i <= |polled|
    {
      && events == ControllerEventsOf(polled[..i])
      && models == CacheAfterLookups(models0, ActivationRequests(polled[..i]))
      && slots[..] == SlotsAfterEvents(slots0, models0, polled[..i])
    }

    /** One pass of the handleInput loop: polled event i is processed. */
    method HandleNext(polled: seq<PolledEvent>, i: nat, ghost models0: seq<string>, ghost slots0: seq<Option<nat>>)
      requires Valid() && hmdPresent && i < |polled|
      requires HandledUpTo(polled, i, models0, slots0)
      modifies this`events, this`models, slots
      ensures Valid() && HandledUpTo(polled, i + 1, models0, slots0)
    {
      var before := polled[..i];
      var e := polled[i];
      ProcessVREvent(e);
      assert polled[..i + 1] == before + [e];
      assert (before + [e])[..i] == before;
      ControllerEventsOfAppend(before, [e]);
      ActivationRequestsStep(models0, before, e);
    }

    /** handleInput: empties the queue, then processes every polled event
        in order. */
    method HandleInput(polled: seq<PolledEvent>)
      requires Valid() && hmdPresent
      modifies this`events, this`models, slots
      ensures Valid()
      ensures events == ControllerEventsOf(polled)
      ensures models == CacheAfterLookups(old(models), ActivationRequests(polled))
      ensures slots[..] == SlotsAfterEvents(old(slots[..]), old(models), polled)
      ensures forall k :: 0 <= k < slots.Length && !Activates(polled, k) ==> slots[k] == old(slots[k])
    {
      events := [];
      assert polled[..0] == [];
      var i := 0;
      while i < |polled|
        invariant 0 <= i <= |polled|
        invariant Valid() && HandledUpTo(polled, i, old(models), old(slots[..]))
      {
        HandleNext(polled, i, old(models), old(slots[..]));
        i := i + 1;
      }
      assert polled[..i] == polled;
      forall k | 0 <= k < slots.Length && !Activates(polled, k)
        ensures slots[k] == old(slots[k])
      {
        SlotAfterLastActivation(old(slots[..]), old(models), polled, k);
      }
    }

    // ---- the per-frame pose scan and update ----

    /** updateDevicesMatrixPose: without a headset nothing changes;
        otherwise the counts and hand IDs are recomputed from the 64 poses. */
    method UpdateDevicesMatrixPose(poses: seq<DevicePose>)
      requires Valid() && |poses| == MaxTrackedDeviceCount
      modifies this`validPoseCount, this`trackedControllerCount, this`leftControllerId, this`rightControllerId
      ensures Valid()
      ensures !hmdPresent ==> validPoseCount == old(validPoseCount) && trackedControllerCount == old(trackedControllerCount)
      ensures !hmdPresent ==> leftControllerId == old(leftControllerId) && rightControllerId == old(rightControllerId)
      ensures hmdPresent ==> validPoseCount == ValidPoseCount(poses) && trackedControllerCount == TrackedControllerCount(poses)
      ensures hmdPresent ==> leftControllerId == LastHandSlot(poses, RoleLeftHand)
      ensures hmdPresent ==> rightControllerId == LastHandSlot(poses, RoleRightHand)
    {
      if !hmdPresent {
        return;
      }
      validPoseCount := 0;
      trackedControllerCount := 0;
      leftControllerId := -1;
      rightControllerId := -1;
      var n := 0;
      while n < MaxTrackedDeviceCount
        invariant 0 <= n <= MaxTrackedDeviceCount
        invariant validPoseCount == ValidPoseCount(poses[..n])
        invariant trackedControllerCount == TrackedControllerCount(poses[..n])
        invariant leftControllerId == LastHandSlot(poses[..n], RoleLeftHand)
        invariant rightControllerId == LastHandSlot(poses[..n], RoleRightHand)
      {
        assert poses[..n + 1][..n] == poses[..n];
        if poses[n].poseIsValid {
          validPoseCount := validPoseCount + 1;
          if poses[n].deviceClass == ClassController {
            trackedControllerCount := trackedControllerCount + 1;
            if poses[n].role == RoleLeftHand {
              leftControllerId := n;
            } else if poses[n].role == RoleRightHand {
              rightControllerId := n;
            }
          }
        }
        n := n + 1;
      }
      assert poses[..n] == poses;
      ControllersAreValidPoses(poses);
    }

    /** update: with a headset, refills the event queue; reports (the
        printf) whenever a count differs from the one last reported and
        remembers the counts; then scans the poses. */
    method Update(polled: seq<PolledEvent>, poses: seq<DevicePose>) returns (reported: bool)
      requires Valid() && |poses| == MaxTrackedDeviceCount
      modifies this`events, this`models, slots
      modifies this`validPoseCount, this`validPoseCountLast, this`trackedControllerCount
      modifies this`trackedControllerCountLast, this`leftControllerId, this`rightControllerId
      ensures Valid()
      ensures events == ControllerEventsOf(if hmdPresent then polled else [])
      ensures hmdPresent ==> models == CacheAfterLookups(old(models), ActivationRequests(polled))
      ensures !hmdPresent ==> models == old(models) && unchanged(slots)
      ensures hmdPresent ==> slots[..] == SlotsAfterEvents(old(slots[..]), old(models), polled)
      ensures forall k :: 0 <= k < slots.Length && !(hmdPresent && Activates(polled, k)) ==> slots[k] == old(slots[k])
      ensures reported <==> old(trackedControllerCount) != old(trackedControllerCountLast)
                            || old(validPoseCount) != old(validPoseCountLast)
      ensures trackedControllerCountLast == old(trackedControllerCount)
      ensures validPoseCountLast == old(validPoseCount)
      ensures hmdPresent ==> validPoseCount == ValidPoseCount(poses) && trackedControllerCount == TrackedControllerCount(poses)
      ensures hmdPresent ==> leftControllerId == LastHandSlot(poses, RoleLeftHand)
      ensures hmdPresent ==> rightControllerId == LastHandSlot(poses, RoleRightHand)
      ensures !hmdPresent ==> validPoseCount == old(validPoseCount) && trackedControllerCount == old(trackedControllerCount)
      ensures !hmdPresent ==> leftControllerId == old(leftControllerId) && rightControllerId == old(rightControllerId)
    {
      if hmdPresent {
        HandleInput(polled);
      }
      reported := false;
      if trackedControllerCount != trackedControllerCountLast || validPoseCount != validPoseCountLast {
        validPoseCountLast := validPoseCount;
        trackedControllerCountLast := trackedControllerCount;
        reported := true;
      }
      UpdateDevicesMatrixPose(poses);
    }

    // ---- grid and mirror window ----

    /** toggleGrid: flips the flag and always fades the grid to it. */
    method ToggleGrid(duration: real)
      requires Valid()
      modifies this`gridVisible, this`gridFades
      ensures Valid()
      ensures gridVisible == !old(gridVisible)
      ensures gridFades == old(gridFades) + [Fade(duration, gridVisible)]
    {
      gridVisible := !gridVisible;
      gridFades := gridFades + [Fade(duration, gridVisible)];
    }

    /** showGrid: makes the grid visible, fading only when it was hidden, so
        a second call changes nothing. */
    method ShowGrid(duration: real)
      requires Valid()
      modifies this`gridVisible, this`gridFades
      ensures Valid()
      ensures gridVisible
      ensures gridFades == old(gridFades) + (if old(gridVisible) then [] else [Fade(duration, true)])
    {
      if !gridVisible {
        gridVisible := true;
        gridFades := gridFades + [Fade(duration, gridVisible)];
      }
    }

    /** hideGrid: hides the grid, fading only when it was visible. */
    method HideGrid(duration: real)
      requires Valid()
      modifies this`gridVisible, this`gridFades
      ensures Valid()
      ensures !gridVisible
      ensures gridFades == old(gridFades) + (if old(gridVisible) then [Fade(duration, false)] else [])
    {
      if gridVisible {
        gridVisible := false;
        gridFades := gridFades + [Fade(duration, gridVisible)];
      }
    }

    /** toggleMirrorWindow: hides a visible mirror window, shows a hidden one. */
    method ToggleMirrorWindow()
      modifies this`mirrorVisible
      ensures mirrorVisible == !old(mirrorVisible)
    {
      if mirrorVisible {
        mirrorVisible := false;
      } else {
        mirrorVisible := true;
      }
    }

    // ---- controller queries ----

    /** toDeviceId: the device ID the last pose scan found for the left hand
        when the index is 0, and for the right hand for every other index
        (not only 1); -1 or a device slot. */
    function ToDeviceId(controller: int): (id: int)
      reads this, slots
      requires Valid()
      ensures -1 <= id < MaxTrackedDeviceCount
      ensures controller == 0 ==> id == leftControllerId
      ensures controller != 0 ==> id == rightControllerId
    {
      if controller == 0 then leftControllerId else rightControllerId
    }

    /** isControllerConnected: true exactly when there is a headset, the
        last scan counted a controller, the index names a hand and that
        hand's device is connected. */
    function IsControllerConnected(controller: int, connected: seq<bool>): (r: bool)
      reads this, slots
      requires Valid()
      ensures r <==> hmdPresent && trackedControllerCount > 0 && 0 <= controller < ControllersCount()
                     && SlotConnected(connected, ToDeviceId(controller))
    {
      var role := ToControllerRole(controller);
      if hmdPresent && trackedControllerCount > 0 then
        if role == RoleLeftHand then SlotConnected(connected, leftControllerId)
        else if role == RoleRightHand then SlotConnected(connected, rightControllerId)
        else false
      else false
    }

    /** getTrackPadState: the origin without a headset, a connected device or
        a controller state; otherwise the touchpad axis when the touchpad is
        touched and the untouched point when it is not. For an axis inside
        the documented square, the result is inside it exactly when touched. */
    function GetTrackPadState(controller: int, connected: seq<bool>, state: Option<ControllerState>): (p: Point)
      reads this, slots
      requires Valid()
      ensures !hmdPresent || !SlotConnected(connected, ToDeviceId(controller)) || state.None? ==> p == Origin
      ensures hmdPresent && SlotConnected(connected, ToDeviceId(controller)) && state.Some?
              && InTrackpadSquare(Point(state.value.axis0X, state.value.axis0Y, 0.0))
              ==> (InTrackpadSquare(p) <==> TouchpadTouched(state.value))
      ensures hmdPresent && SlotConnected(connected, ToDeviceId(controller)) && state.Some? ==>
        p == (if TouchpadTouched(state.value) then Point(state.value.axis0X, state.value.axis0Y, 0.0)
              else UntouchedTrackpad)
      ensures p.z == 0.0
    {
      var id := if controller == 0 then leftControllerId else rightControllerId;
      if hmdPresent && SlotConnected(connected, id) && state.Some? then
        if TouchpadTouched(state.value) then Point(state.value.axis0X, state.value.axis0Y, 0.0)
        else UntouchedTrackpad
      else Origin
    }

    // ---- lens distortion ----

    /** renderDistortion: the two draws over the lens buffer; with a headset
        the left eye's texture covers exactly the left eye's cells and the
        right eye's exactly the right eye's. */
    function RenderDistortion(): (draws: seq<Draw>)
      requires MeshBuilt()
      ensures |draws| == 2 && draws[0].texture == EyeLeft && draws[1].texture == EyeRight
      ensures hmdPresent ==>
        && draws[0].byteOffset % BytesPerIndex == 0 && draws[0].byteOffset / BytesPerIndex + draws[0].count <= |lensIndices|
        && draws[1].byteOffset % BytesPerIndex == 0 && draws[1].byteOffset / BytesPerIndex + draws[1].count <= |lensIndices|
        && DrawnIndices(lensIndices, draws[0]) == EyeIndices(0, EyeIndexCount)
        && DrawnIndices(lensIndices, draws[1]) == EyeIndices(EyeVertexCount, EyeIndexCount)
    {
      if hmdPresent then DistortionDrawsSplitEyes(); DistortionDraws(indexSize)
      else DistortionDraws(indexSize)
    }

    // ---- render models ----

    /** findOrLoadRenderModel: a model whose name matches case-insensitively
        is returned as it is; otherwise the model is loaded and appended
        when the model, its texture and the GL upload all succeed. */
    method FindOrLoadRenderModel(name: string, load: LoadOutcome) returns (r: Option<nat>)
      requires Valid()
      modifies this`models
      ensures Valid()
      ensures models == CacheAfterLookup(old(models), name, load)
      ensures old(models) <= models
      ensures r.Some? <==> HasModelNamed(models, name)
      ensures r.Some? ==> r.value < |models| && SameNameIgnoringCase(models[r.value], name)
      ensures r == ModelIndex(models, name)
    {
      r := FindRenderModel(models, name);
      if r.None? && load == Loaded {
        ModelIndexOfAppended(models, name);
        models := models + [name];
        r := Some(|models| - 1);
      }
      LookupGrowsByAtMostOne(old(models), name, load);
      LookupKeepsNamesDistinct(old(models), name, load);
    }

    /** setupRenderModelForTrackedDevice: an index outside the 64 slots
        changes nothing; otherwise the device's model is found or loaded and
        its slot points at it, and on failure the slot is left as it was. */
    method SetupRenderModelForTrackedDevice(index: nat, name: string, load: LoadOutcome)
      requires Valid()
      modifies this`models, slots
      ensures Valid()
      ensures index >= MaxTrackedDeviceCount ==> models == old(models) && unchanged(slots)
      ensures index < MaxTrackedDeviceCount ==> models == CacheAfterLookup(old(models), name, load)
      ensures old(models) <= models
      ensures forall k :: 0 <= k < slots.Length && k != index ==> slots[k] == old(slots[k])
      ensures index < MaxTrackedDeviceCount && HasModelNamed(models, name) ==>
        slots[index].Some? && slots[index].value < |models| && SameNameIgnoringCase(models[slots[index].value], name)
      ensures index < MaxTrackedDeviceCount && !HasModelNamed(models, name) ==> slots[index] == old(slots[index])
      ensures index < MaxTrackedDeviceCount && HasModelNamed(models, name) ==> slots[index] == ModelIndex(models, name)
      ensures slots[..] == SlotsAfterLookup(old(slots[..]), old(models), index, name, load)
    {
      if index >= MaxTrackedDeviceCount {
        return;
      }
      var r := FindOrLoadRenderModel(name, load);
      if r.Some? {
        slots[index] := r;
      }
    }

    /** The slot table is what setupRenderModels leaves for the runtime's
        answers `devices`, starting from the cache models0: every slot empty
        without a headset, the table of SetupSlots with one. */
    predicate SlotsSetUpFor(devices: seq<DeviceInfo>, models0: seq<string>)
      reads this, slots
      requires |devices| == MaxTrackedDeviceCount
    {
      slots[..] == if hmdPresent then SetupSlots(devices, models0, MaxTrackedDeviceCount) else NoSlots
    }

    /** The state setupRenderModels has reached before visiting device n:
        the models cached from `models0` by the lookups of devices 1 .. n-1,
        the visited slots as SetupSlot says and the others empty. */
    predicate SetupDoneUpTo(devices: seq<DeviceInfo>, n: nat, models0: seq<string>)
      reads this, slots
      requires Valid() && |devices| == MaxTrackedDeviceCount && n <= MaxTrackedDeviceCount
    {
      && models == CacheAfterLookups(models0, SetupRequests(devices, n))
      && slots[..] == SetupSlots(devices, models0, n)
    }

    /** One pass of the setupRenderModels loop: device n's model is set up
        when the device is eligible, and nothing happens otherwise. */
    method SetupDeviceSlot(devices: seq<DeviceInfo>, n: nat, ghost models0: seq<string>)
      requires Valid() && |devices| == MaxTrackedDeviceCount && HmdDeviceIndex < n < MaxTrackedDeviceCount
      requires SetupDoneUpTo(devices, n, models0)
      modifies this`models, slots
      ensures Valid() && SetupDoneUpTo(devices, n + 1, models0)
    {
      SetupRequestsStep(models0, devices, n);
      SetupSlotsStep(devices, models0, n);
      ghost var s0 := slots[..];
      if EligibleForModel(devices[n]) {
        SetupRenderModelForTrackedDevice(n, devices[n].modelName, devices[n].load);
        if !HasModelNamed(models, devices[n].modelName) {
          assert s0 == s0[n := None];
        }
      } else {
        assert s0 == s0[n := None];
      }
    }

    /** The memset of setupRenderModels: every slot is cleared. */
    method ClearSlots()
      requires Valid()
      modifies slots
      ensures Valid() && slots[..] == NoSlots
    {
      forall k | 0 <= k < slots.Length {
        slots[k] := None;
      }
      NoSlotsByEntry(slots[..]);
    }

    /** setupRenderModels: clears every slot, then (with a headset) sets up
        the model of every connected device after the headset that is not a
        tracking reference, in slot order. */
    method SetupRenderModels(devices: seq<DeviceInfo>)
      requires Valid() && |devices| == MaxTrackedDeviceCount
      modifies this`models, slots
      ensures Valid()
      ensures SlotsSetUpFor(devices, old(models))
      ensures models == CacheAfterLookups(old(models), if hmdPresent then SetupRequests(devices, MaxTrackedDeviceCount) else [])
    {
      ClearSlots();
      if !hmdPresent {
        return;
      }
      SetupSlotsStep(devices, old(models), HmdDeviceIndex + 1);
      var n := HmdDeviceIndex + 1;
      while n < MaxTrackedDeviceCount
        invariant HmdDeviceIndex + 1 <= n <= MaxTrackedDeviceCount
        invariant Valid() && SetupDoneUpTo(devices, n, old(models))
      {
        SetupDeviceSlot(devices, n, old(models));
        n := n + 1;
      }
    }

    /** setRenderModelForTrackedDevices: records the choice, and when
        enabling sets the slots up afresh. */
    method SetRenderModelForTrackedDevices(enable: bool, devices: seq<DeviceInfo>)
      requires Valid() && |devices| == MaxTrackedDeviceCount
      modifies this`renderModelsEnabled, this`models, slots
      ensures Valid()
      ensures renderModelsEnabled == enable
      ensures enable ==> SlotsSetUpFor(devices, old(models))
      ensures enable ==> models == CacheAfterLookups(old(models), if hmdPresent then SetupRequests(devices, MaxTrackedDeviceCount) else [])
      ensures !enable ==> models == old(models) && unchanged(slots)
    {
      renderModelsEnabled := enable;
      if enable {
        SetupRenderModels(devices);
      }
    }
  }

}
