# ofxOpenVR in Dafny

This project models the bookkeeping core of ofxOpenVR, an openFrameworks addon for SteamVR headsets, and its two examples:

- **The `ofxOpenVR` object.** This covers:
  - the controller-event queue and how processVREvent translates runtime events;
  - the per-frame pose scan, with its counters and left/right device IDs, and the change report of `update`;
  - the lens-distortion index mesh and the two half-buffer draws of `renderDistortion`;
  - grid visibility and the mirror-window toggle;
  - the case-insensitive render-model cache and the per-device model slots;
  - the controller index conversions, `isControllerConnected` and `getTrackPadState`.
- **The value types of `ofxOpenVR.h`.** These are the three enums and their fixed encodings, `ofxOpenVRControllerEvent`, and `controllersCount`.
- **The drawing example.** Per-hand trigger flags and polyline lists react to controller events. `update` extends the last polyline, and `keyPressed` adjusts the resolution and toggles the flags.
- **`ofxOpenVRSyncCoord`.** A 4 x 4 matrix is read from a line of 16 space-separated numbers, packed back into one, and reset to the identity.
- **The 360-degree player example.** Its handlers are the help and mirror keys and `dragEvent`, whose path normalisation turns backslashes into slashes.

The OpenVR runtime, OpenGL and the openFrameworks library do not appear in the model; what they answer arrives as parameters:

- polled events;
- the 64 device poses;
- per-slot connection, device class and role;
- controller state;
- render-model names and load outcomes;
- the number/text conversions `ofToFloat` and `ofToString`.

The SDK constants the code relies on come from `openvr.h`, which is not part of this model. They are collected in `vr_sdk.dfy`: button codes 0, 1, 2, 32, 33; event codes 100-102 and 200-203; 64 device slots; the headset at slot 0.

Where the code and its own documentation differ, the model follows the code.

- **Event-queue clearing.** The header says the controller-event queue is cleared at each update (`src/ofxOpenVR.h:120`). The code clears it inside `handleInput` (`src/ofxOpenVR.cpp:976`), which `update` calls only when a headset is present. Without a headset nothing is ever queued, so the queue is empty after every update either way. The model proves `events == ControllerEventsOf(if hmdPresent then polled else [])`.

Files, one module each:

| file | module |
|---|---|
| optional.dfy | Optional |
| vr_sdk.dfy | VrSdk |
| openvr_types.dfy | OpenVRTypes |
| controller_events.dfy | ControllerEvents |
| pose_scan.dfy | PoseScan |
| lens_mesh.dfy | LensMesh |
| render_model_cache.dfy | RenderModelCache |
| openvr.dfy | OpenVR |
| drawing_app.dfy | DrawingApp |
| sync_coord.dfy | SyncCoord |
| player_app.dfy | PlayerApp |

## Model

| member | source | states |
|---|---|---|
| OpenVRTypes.RoleValue | src/ofxOpenVR.h:24-29 | ControllerRole stands for 0, 1 or 3 (Left, Right, Unknown) |
| OpenVRTypes.EventTypeValue | src/ofxOpenVR.h:32-38 | EventType values lie in 0..3 |
| OpenVRTypes.ButtonTypeValue | src/ofxOpenVR.h:41-48 | ButtonType values lie in 0..4 |
| OpenVRTypes.RoleFromValue | src/ofxOpenVR.h:24-29 | an integer is a role exactly when it is 0, 1 or 3 (2 is not), and decoding inverts RoleValue |
| OpenVRTypes.EventTypeFromValue | src/ofxOpenVR.h:32-38 | an integer is an event type exactly when it is in 0..3, and decoding inverts EventTypeValue |
| OpenVRTypes.ButtonTypeFromValue | src/ofxOpenVR.h:41-48 | an integer is a button type exactly when it is in 0..4, and decoding inverts ButtonTypeValue |
| OpenVRTypes.EnumEncodingsRoundTrip | src/ofxOpenVR.h:24-48 | each enumerator decodes back from its value (the encodings are injective) |
| OpenVRTypes.ControllersCount | src/ofxOpenVR.h:110 | there are always exactly two controllers |
| ControllerEvents.ButtonOf | src/ofxOpenVR.cpp:1031-1064 | a decoded button is the one whose runtime code was given; a code none of the five buttons has leaves the field unassigned |
| ControllerEvents.EventTypeOf | src/ofxOpenVR.cpp:1067-1091 | a decoded event type is the one whose runtime code was given; any other code leaves the field unassigned |
| ControllerEvents.RoleOf | src/ofxOpenVR.cpp:1013-1021 | Left exactly for the left-hand role, Right exactly for the right-hand role, Unknown otherwise |
| ControllerEvents.SwitchesDecodeSdkCodes | src/ofxOpenVR.cpp:1031-1091 | the two switches decode every button and event type from its runtime code |
| ControllerEvents.TranslateEvent | src/ofxOpenVR.cpp:1009-1093 | role, button and event type are decoded from the polled event; the analog axes are -1 unless the button is the touchpad, when they are the touchpad axis |
| ControllerEvents.ControllerEventsOf | src/ofxOpenVR.cpp:1007-1095 | the queue after polling holds at most one event per polled event |
| ControllerEvents.ControllerEventsOfAppend | src/ofxOpenVR.cpp:979-982 | polling two batches queues the first batch's events and then the second's, so poll order is kept |
| ControllerEvents.NonControllerEventsAddNothing | src/ofxOpenVR.cpp:1097-1110 | events of devices that are not controllers add nothing to the queue |
| ControllerEvents.IsControllerEvent | src/ofxOpenVR.cpp:1097-1110 | an event queued as a controller event never comes from the headset, a generic tracker or a tracking reference |
| ControllerEvents.ControllerEventsOneEach | src/ofxOpenVR.cpp:1009-1095 | with only controller events polled, the queue holds exactly one translated event per polled event, at the same position |
| PoseScan.ValidPoseCount | src/ofxOpenVR.cpp:894-898 | the valid-pose count never exceeds the number of slots |
| PoseScan.TrackedControllerCount | src/ofxOpenVR.cpp:945-946 | the controller count never exceeds the number of slots |
| PoseScan.LastHandSlot | src/ofxOpenVR.cpp:948-955 | the ID kept for a hand is -1 or a slot holding a tracked controller of that role, and no later slot holds one |
| PoseScan.ControllersAreValidPoses | src/ofxOpenVR.cpp:894-946 | the controller count is at most the valid-pose count |
| PoseScan.ValidPoseCountIsCardinality | src/ofxOpenVR.cpp:894-898 | the valid-pose count is the size of the set of slots whose pose is valid |
| PoseScan.HandsAreDistinct | src/ofxOpenVR.cpp:948-955 | left and right IDs coincide only when neither hand is tracked |
| LensMesh.ToGLushort | src/ofxOpenVR.cpp:787-797 | the GLushort narrowing yields a value below 2^16 and keeps every value already in range |
| LensMesh.EyeVertices | src/ofxOpenVR.cpp:748-764 | an eye's vertex list has the number of vertices pushed |
| LensMesh.LensVertexAt | src/ofxOpenVR.cpp:746-784 | the vertex array has 2 * 1849 entries, and grid vertex (x, y) of an eye sits at eye * 1849 + 43 * y + x |
| LensMesh.QuadFits | src/ofxOpenVR.cpp:794-797 | the four corners a, b, c, d of every cell of either eye are below 2^16 |
| LensMesh.Quad | src/ofxOpenVR.cpp:794-804 | a cell gives six indices, triangles (a, b, c) and (a, c, d) with b = a + 1, d = a + 43 and c = d + 1 |
| LensMesh.EyeIndices | src/ofxOpenVR.cpp:790-806 | an eye's index list has the number of indices pushed |
| LensMesh.CellIndexAt | src/ofxOpenVR.cpp:790-806 | the six indices of cell (x, y) sit at 6 * (42 * y + x) in pushing order |
| LensMesh.EyeIndicesExtend | src/ofxOpenVR.cpp:798-804 | six pushes of the next six cell indices extend the index list by exactly those six |
| LensMesh.EyeIndicesNextCell | src/ofxOpenVR.cpp:794-804 | handling cell (x, y) extends the list by that cell's triangles (a, b, c) and (a, c, d) |
| LensMesh.CellIndexBounds | src/ofxOpenVR.cpp:789-825 | every index of an eye's block lies within that eye's 1849 vertices |
| LensMesh.LensIndicesShape | src/ofxOpenVR.cpp:786-826 | the buffer has 21168 entries; first-half indices are < 1849, second-half ones in [1849, 3698); every index names a pushed vertex and fits in 16 bits |
| LensMesh.CellCorners | src/ofxOpenVR.cpp:794-804 | a cell's two triangles visit six corners |
| LensMesh.LensIndexOfCell | src/ofxOpenVR.cpp:808-825 | entry k of cell (x, y) of an eye lies in the buffer and is entry k of that cell's triangles over the eye's vertex offset |
| LensMesh.QuadCorner | src/ofxOpenVR.cpp:794-797 | each of a cell's six indices names that cell's corresponding grid vertex |
| LensMesh.LensCellTriangles | src/ofxOpenVR.cpp:786-825 | every cell of every eye is drawn as triangles (x,y)-(x+1,y)-(x+1,y+1) and (x,y)-(x+1,y+1)-(x,y+1) over its own eye's vertices |
| LensMesh.PushEyeVertices | src/ofxOpenVR.cpp:748-764 | the nested vertex loop appends the eye's 43 x 43 grid row by row |
| LensMesh.BuildLensVertices | src/ofxOpenVR.cpp:743-784 | the vertex array is the left grid followed by the right grid |
| LensMesh.PushEyeIndices | src/ofxOpenVR.cpp:790-806 | the nested index loop, with GLushort narrowing, appends exactly the eye's cell triangles |
| LensMesh.BuildLensIndices | src/ofxOpenVR.cpp:786-826 | the index buffer is the left eye's cells followed by the right eye's |
| LensMesh.LensIndices | src/ofxOpenVR.cpp:786-826 | the index buffer holds 2 * 6 * 42 * 42 indices |
| LensMesh.DistortionDraws | src/ofxOpenVR.cpp:1400-1414 | renderDistortion issues two draws |
| LensMesh.DistortionDrawsTile | src/ofxOpenVR.cpp:1406-1414 | the second draw's byte offset `_uiIndexSize` is where the first draw ends, and the two draws read every index once |
| LensMesh.DistortionDrawsSplitEyes | src/ofxOpenVR.cpp:1400-1414 | on the lens buffer the left-texture draw reads exactly the left eye's cells and the right-texture draw exactly the right eye's |
| RenderModelCache.ToLower | src/ofxOpenVR.cpp:1465 | ASCII upper-case letters are lowered by 32 and every other character is kept |
| RenderModelCache.Lowered | src/ofxOpenVR.cpp:1465 | lowering keeps a name's length |
| RenderModelCache.SameNameIsCharwise | src/ofxOpenVR.cpp:1465 | stricmp equality holds exactly when the names have the same length and agree character by character after tolower |
| RenderModelCache.SameNameIsEquivalence | src/ofxOpenVR.cpp:1465 | case-insensitive name equality is reflexive, symmetric and transitive |
| RenderModelCache.SameNameIgnoringCase | src/ofxOpenVR.cpp:1465 | names that match ignoring case have the same length, and every name matches itself |
| RenderModelCache.ModelIndex | src/ofxOpenVR.cpp:1463-1469 | the index of the first cached model matching the name; present exactly when some model matches |
| RenderModelCache.ModelIndexOfAppended | src/ofxOpenVR.cpp:1510 | a model appended after a miss is the first match for its name, at the old cache size |
| RenderModelCache.FindRenderModel | src/ofxOpenVR.cpp:1463-1469 | the search returns ModelIndex: the first cached model matching the name, and none exactly when no model matches |
| RenderModelCache.CacheAfterLookup | src/ofxOpenVR.cpp:1461-1516 | one lookup keeps the cached models as a prefix and adds at most one |
| RenderModelCache.LookupGrowsByAtMostOne | src/ofxOpenVR.cpp:1472-1515 | a lookup keeps the cached models in place and appends at most one; afterwards the name is cached exactly when it was cached before or the load succeeded |
| RenderModelCache.LookupKeepsNamesDistinct | src/ofxOpenVR.cpp:1464-1511 | a lookup never creates two models with the same name ignoring case |
| RenderModelCache.SecondLookupHits | src/ofxOpenVR.cpp:1461-1516 | after a successful lookup, a second lookup of the same name hits and leaves the cache unchanged, whatever a load would do |
| RenderModelCache.LookupsOnlyAppend | src/ofxOpenVR.cpp:1461-1516 | any sequence of lookups only appends, at most one model per lookup, and keeps names distinct |
| RenderModelCache.CacheAfterLookups | src/ofxOpenVR.cpp:1461-1516 | a run of lookups keeps the cached models as a prefix and adds at most one per lookup |
| RenderModelCache.CacheAfterLookupsAppend | src/ofxOpenVR.cpp:1461-1516 | running two batches of lookups in turn is the same as running their concatenation |
| OpenVR.ToControllerRole | src/ofxOpenVR.cpp:277-281 | 0 is the left hand, 1 the right hand, anything else no role, in both directions |
| OpenVR.ToEye | src/ofxOpenVR.cpp:284-287 | the left eye exactly for index 0 |
| OpenVR.IndexConventionsAgree | src/ofxOpenVR.h:124-126 | for each controller index, eye, runtime role and event role agree on left/right, and the event role's value is the index |
| OpenVR.TrackpadConstants | src/ofxOpenVR.cpp:328-331 | the tested mask is the touchpad button's bit 2^32, and the untouched point (-1000, -1000, 0) lies outside the documented [-1..1] x [-1..1] |
| OpenVR.ActivationRequests | src/ofxOpenVR.cpp:1114-1120 | polling causes at most one model lookup per event |
| OpenVR.SetupRequests | src/ofxOpenVR.cpp:1550-1561 | setupRenderModels makes at most one lookup per visited slot |
| OpenVR.ActivationRequestsStep | src/ofxOpenVR.cpp:979-982 | one more polled event adds its lookups after the earlier ones and its activation to those made |
| OpenVR.SetupRequestsStep | src/ofxOpenVR.cpp:1550-1561 | visiting device n adds its lookup exactly when it is connected and not a tracking reference |
| OpenVR.SingleEvent | src/ofxOpenVR.cpp:1004-1134 | one polled event queues its translation only when it comes from a controller, looks up its model only when it activates a device, and activates exactly its own device |
| OpenVR.SetupRequestsPrefix | src/ofxOpenVR.cpp:1550-1561 | the lookups made for devices 1 .. k-1 come first among those made for devices 1 .. n-1 |
| OpenVR.SetupSlots | src/ofxOpenVR.cpp:1542-1562 | the slot table setupRenderModels builds has 64 slots, each visited device as SetupSlot says and the rest empty |
| OpenVR.SetupSlotsStep | src/ofxOpenVR.cpp:1544-1561 | before any device is visited every slot is empty; visiting device n sets its slot and no other |
| OpenVR.SetupSlotMeaning | src/ofxOpenVR.cpp:1550-1561 | after setup, device k has a model exactly when it is not the headset, is connected, is not a tracking reference, and its name was already cached or its model loads; the model it points at answers to its name in the final cache |
| OpenVR.SetupSlotFilled | src/ofxOpenVR.cpp:1550-1561 | a visited device gets a model exactly when its name was already cached at its turn or its model loads |
| OpenVR.SetupSlotInFinalCache | src/ofxOpenVR.cpp:1461-1561 | later lookups keep the model a visited device points at in place, so it still answers to the device's name at the end |
| OpenVR.SlotsAfterLookup | src/ofxOpenVR.cpp:1521-1537 | one setupRenderModelForTrackedDevice keeps the table's size |
| OpenVR.SlotsAfterEvent | src/ofxOpenVR.cpp:1114-1120 | one processVREvent keeps the table's size |
| OpenVR.SlotsAfterEvents | src/ofxOpenVR.cpp:979-982 | processing the polled events in order keeps the table's size |
| OpenVR.LastActivation | src/ofxOpenVR.cpp:979-982 | the position of the last polled event activating device k: present exactly when one does, it activates k, and no later event does |
| OpenVR.SlotAfterLastActivation | src/ofxOpenVR.cpp:974-1120 | after polling, a device never activated keeps its slot; an activated device's slot points at the first model answering to the name of its last activation, or keeps what earlier events left when that lookup found none |
| OpenVR.SlotKeptByOtherEvent | src/ofxOpenVR.cpp:979-982 | an event that does not activate device k changes neither k's slot nor its last activation |
| OpenVR.SlotSetByLastEvent | src/ofxOpenVR.cpp:1114-1120 | an activation decides its device's slot from the cache its own lookup leaves |
| OpenVR.OpenVR.constructor | src/ofxOpenVR.cpp:28-54 | setup's initial values (counts 0, last counts -1, IDs -1, grid hidden, no models, render models off, slots empty) and, with a headset, the distortion buffer equal to the lens mesh |
| OpenVR.OpenVR.HasControllerEvents | src/ofxOpenVR.cpp:986-988 | true exactly when the queue is non-empty |
| OpenVR.OpenVR.GetNextControllerEvent | src/ofxOpenVR.cpp:991-998 | on a non-empty queue returns true with the front event and leaves the rest in order; on an empty queue returns false and changes nothing |
| OpenVR.OpenVR.ProcessVREvent | src/ofxOpenVR.cpp:1004-1134 | a controller's event joins the queue translated; the cache follows the activation's lookup; the activated device's slot points at the first model matching its name, or is unchanged when none is cached; no other slot changes |
| OpenVR.OpenVR.HandleNext | src/ofxOpenVR.cpp:979-982 | one pass of the polling loop keeps the queue, the cache and the slot table equal to what the events so far produce |
| OpenVR.OpenVR.HandleInput | src/ofxOpenVR.cpp:974-983 | the queue is emptied and then holds exactly the controller events of the polled events, in order; the cache grows by the activations' lookups; the slot table is SlotsAfterEvents of the polled events, so slots of devices never activated are unchanged |
| OpenVR.OpenVR.UpdateDevicesMatrixPose | src/ofxOpenVR.cpp:872-971 | with a headset the counts are the valid-pose and tracked-controller counts and the IDs the last slot of each hand; without one nothing changes |
| OpenVR.OpenVR.Update | src/ofxOpenVR.cpp:109-129 | with a headset the queue, cache and slot table follow handleInput; without one nothing is queued and models and slots are unchanged; a report happens exactly when a count differs from the last reported one; the last counts become the old counts; then the scan sets counts and IDs |
| OpenVR.OpenVR.ToggleGrid | src/ofxOpenVR.cpp:399-403 | visibility flips and a fade to the new visibility is always requested |
| OpenVR.OpenVR.ShowGrid | src/ofxOpenVR.cpp:406-412 | the grid ends visible, and a fade is requested only if it was hidden |
| OpenVR.OpenVR.HideGrid | src/ofxOpenVR.cpp:415-421 | the grid ends hidden, and a fade is requested only if it was visible |
| OpenVR.OpenVR.ToggleMirrorWindow | src/ofxOpenVR.cpp:388-396 | the mirror window's visibility flips |
| OpenVR.OpenVR.ToDeviceId | src/ofxOpenVR.cpp:290-292 | index 0 gives the left controller's ID and every other index the right controller's; always -1 or a device slot |
| OpenVR.OpenVR.IsControllerConnected | src/ofxOpenVR.cpp:346-361 | true exactly when there is a headset, a tracked controller, the index names a hand and that hand's device is connected |
| OpenVR.OpenVR.GetTrackPadState | src/ofxOpenVR.cpp:321-335 | the origin without a headset, a connected device or a state; otherwise the touchpad axis when the touchpad is touched and (-1000, -1000, 0) when not; for an axis in the documented square the result is in the square exactly when touched |
| OpenVR.OpenVR.RenderDistortion | src/ofxOpenVR.cpp:1392-1418 | a left-eye and a right-eye draw; with a headset each reads, in bounds, exactly its own eye's cells |
| OpenVR.OpenVR.FindOrLoadRenderModel | src/ofxOpenVR.cpp:1461-1516 | the cache follows one lookup; the result is the first cached model matching the name afterwards, present exactly when one matches |
| OpenVR.OpenVR.SetupRenderModelForTrackedDevice | src/ofxOpenVR.cpp:1521-1537 | an index outside the 64 slots changes nothing; otherwise the cache follows one lookup and the device's slot points at the first model matching its name, or is unchanged when none is cached; no other slot changes |
| OpenVR.OpenVR.SetupDeviceSlot | src/ofxOpenVR.cpp:1550-1561 | one pass of the setupRenderModels loop: the cache gains device n's lookup when it is eligible, and the slot table becomes SetupSlots up to n + 1 |
| OpenVR.OpenVR.ClearSlots | src/ofxOpenVR.cpp:1544 | the memset empties all 64 slots |
| OpenVR.OpenVR.SetupRenderModels | src/ofxOpenVR.cpp:1542-1562 | every slot is cleared; without a headset the slots stay empty and the cache unchanged; with one the cache follows the lookups of the eligible devices in slot order and the table is SetupSlots (see SetupSlotMeaning) |
| OpenVR.OpenVR.SetRenderModelForTrackedDevices | src/ofxOpenVR.cpp:1443-1450 | the flag is recorded; enabling sets the slot table and cache up as SetupRenderModels does; disabling changes neither slots nor models |
| DrawingApp.OnSideEvent | example-drawing/src/ofApp.cpp:168-199 | trigger press sets the flag and adds an empty polyline only to an empty list; unpress clears the flag; touchpad press adds one empty polyline; grip press empties the list; every other event or button changes nothing |
| DrawingApp.OnControllerEvent | example-drawing/src/ofApp.cpp:161-236 | a left event never changes the right hand and vice versa; an Unknown role changes nothing |
| DrawingApp.ApplyAll | example-drawing/src/ofApp.cpp:60-64 | handling events none of which has a hand role leaves the drawing unchanged |
| DrawingApp.OnlyGripBreaksCanDraw | example-drawing/src/ofApp.cpp:170-199 | a hand that can draw stays able to, unless a grip press arrives while its trigger is held |
| DrawingApp.OtherSideUntouched | example-drawing/src/ofApp.cpp:168-235 | a run of events of one hand leaves the other hand unchanged |
| DrawingApp.PolylinesGrowWithoutGrip | example-drawing/src/ofApp.cpp:170-199 | without grip presses a hand's polyline list only grows, earlier polylines kept |
| DrawingApp.CanDrawWithoutGrip | example-drawing/src/ofApp.cpp:170-199 | without grip presses both hands stay able to draw |
| DrawingApp.ExtendAsWritten | example-drawing/src/ofApp.cpp:66-76 | the write at size() - 1 keeps the number of polylines and the trigger flag, under the guard that the list is non-empty when written |
| DrawingApp.TriggerThenGripBreaksUpdate | example-drawing/src/ofApp.cpp:191-198 | trigger press then grip press from the initial state leaves the trigger held over an empty list, so the next update's write is out of bounds |
| DrawingApp.ExtendLine | example-drawing/src/ofApp.cpp:66-88 | when drawing, the point ends the last polyline and becomes the last position; otherwise nothing changes; the flag and the ability to draw are kept; it agrees with the code where the code is in bounds |
| DrawingApp.ExtendBoth | example-drawing/src/ofApp.cpp:66-88 | both hands' steps keep the trigger flags and the ability to draw, and leave a hand whose trigger is not held unchanged |
| DrawingApp.ResolutionAfterKey | example-drawing/src/ofApp.cpp:241-252 | '+'/'=' raise the resolution; '-'/'_' lower it by 0.0001 or to 0, never below 0; other keys keep it |
| DrawingApp.DrawingApp.constructor | example-drawing/src/ofApp.cpp:6-20 | help shown, shaders used, resolution 0.004, no trigger held, no polylines |
| DrawingApp.DrawingApp.ControllerEvent | example-drawing/src/ofApp.cpp:161-236 | the state after controllerEvent is OnControllerEvent of the state before |
| DrawingApp.DrawingApp.DrawStep | example-drawing/src/ofApp.cpp:66-88 | both hands' drawing steps, each as ExtendLine |
| DrawingApp.DrawingApp.DrainEvents | example-drawing/src/ofApp.cpp:60-64 | every queued event is handled in queue order and the queue ends empty |
| DrawingApp.DrawingApp.Update | example-drawing/src/ofApp.cpp:58-91 | the addon's update (queue, cache, slots, counts, last counts and IDs as OpenVR.Update states), then all queued events in order, then each hand's drawing step with its own connection state; the queue ends empty |
| DrawingApp.DrawingApp.KeyPressed | example-drawing/src/ofApp.cpp:239-271 | the resolution follows ResolutionAfterKey; 'h' and ' ' toggle their flags; 'm' toggles the render models, setting the slot table up as SetupRenderModels does when enabling; other keys change nothing else |
| SyncCoord.FirstSpace | src/ofxOpenVRSyncCoord.cpp:6 | the position of the first space, with none before it |
| SyncCoord.Split | src/ofxOpenVRSyncCoord.cpp:6 | splitting gives at least one piece, and no piece holds a space |
| SyncCoord.JoinSnoc | src/ofxOpenVRSyncCoord.cpp:20-23 | appending one more text adds a space and the text |
| SyncCoord.Join | src/ofxOpenVRSyncCoord.cpp:20-23 | no texts join to the empty string, and a join starts with its first text |
| SyncCoord.JoinAppend | src/ofxOpenVRSyncCoord.cpp:20-23 | joining two batches puts one space between their joins |
| SyncCoord.JoinEnds | src/ofxOpenVRSyncCoord.cpp:20-23 | a join of non-empty texts starts with the first text's first character and ends with the last text's last character |
| SyncCoord.SplitJoin | src/ofxOpenVRSyncCoord.cpp:6-22 | splitting undoes joining texts that hold no space |
| SyncCoord.Identity | src/ofxOpenVRSyncCoord.cpp:38-40 | the identity has 16 entries |
| SyncCoord.IdentityIsDiagonal | src/ofxOpenVRSyncCoord.cpp:38-40 | entry (r, c) of the identity is 1 on the diagonal and 0 elsewhere |
| SyncCoord.SetupMatrix | src/ofxOpenVRSyncCoord.cpp:4-14 | fewer than 16 pieces give the identity; otherwise entry i is the parse of piece i |
| SyncCoord.EntryTexts | src/ofxOpenVRSyncCoord.cpp:18-22 | one text per entry |
| SyncCoord.EntryTextsHaveNoSpace | src/ofxOpenVRSyncCoord.cpp:22 | no entry text holds a space when the conversion writes none |
| SyncCoord.EntryTextsNonEmpty | src/ofxOpenVRSyncCoord.cpp:22 | no entry text is empty when the conversion never writes an empty text |
| SyncCoord.PackedTextShape | src/ofxOpenVRSyncCoord.cpp:17-25 | the packed string splits into exactly the 16 entry texts; with non-empty texts it neither starts nor ends with a space |
| SyncCoord.PackedText | src/ofxOpenVRSyncCoord.cpp:17-25 | the packed string starts with the first entry's text |
| SyncCoord.PackThenSetupRestores | src/ofxOpenVRSyncCoord.h:8-9 | when the conversions are an exact pair, setup(packToString()) restores the matrix |
| SyncCoord.TrailingTokensIgnored | src/ofxOpenVRSyncCoord.cpp:6-12 | pieces after the sixteenth do not change the matrix setup reads |
| SyncCoord.SyncCoord.constructor | src/ofxOpenVRSyncCoord.h:19 | a new matrix is the identity, with its 16 entries |
| SyncCoord.SyncCoord.Reset | src/ofxOpenVRSyncCoord.cpp:38-40 | reset leaves the 16-entry identity, whatever the matrix was, so it is idempotent |
| SyncCoord.SyncCoord.Setup | src/ofxOpenVRSyncCoord.cpp:4-14 | the matrix becomes SetupMatrix of the text and keeps its 16 entries |
| SyncCoord.SyncCoord.PackToString | src/ofxOpenVRSyncCoord.cpp:17-25 | the result is the 16 entry texts joined by single spaces |
| PlayerApp.SlashPath | example-360Player/src/ofApp.cpp:126 | normalising keeps the path's length |
| PlayerApp.SlashPathReplacesOnlyBackslashes | example-360Player/src/ofApp.cpp:126 | no backslash survives; each becomes a slash and every other character is unchanged at its position |
| PlayerApp.SlashPathIdempotent | example-360Player/src/ofApp.cpp:126 | normalising twice is normalising once |
| PlayerApp.NormalizePath | example-360Player/src/ofApp.cpp:125-126 | the replace loop yields SlashPath of the path |
| PlayerApp.PlayerApp.constructor | example-360Player/src/ofApp.cpp:8-18 | help shown, the bundled image loaded, mirror window hidden |
| PlayerApp.PlayerApp.KeyPressed | example-360Player/src/ofApp.cpp:62-75 | 'h' toggles the help, 'm' the mirror window, other keys change neither |
| PlayerApp.PlayerApp.DragEvent | example-360Player/src/ofApp.cpp:123-130 | the first dropped file, normalised, becomes the image path, which holds no backslash |

## Left out

- OpenGL and GPU state are not modelled:
  - shaders;
  - framebuffers, textures and VAOs (`createFrameBuffer`, `exit`);
  - `render`, `renderStereoTargets`, `renderScene`, `drawControllers`;
  - the draw-using-shader helpers.
- The distortion mesh's vertex positions and texture coordinates are not modelled. A vertex is its eye and grid position; `ComputeDistortion` is not modelled.
- Runtime calls are not made; their answers are parameters: `VR_Init`, `PollNextEvent`, `WaitGetPoses`, `IsTrackedDeviceConnected`, `GetTrackedDeviceClass`, `GetControllerRoleForTrackedDeviceIndex`, `GetControllerState`. The mirror window and `FadeGrid` become a flag and a log of fades.
- The loading loops that retry with `Sleep(1)` collapse into one outcome: loaded, model load failed, texture load failed, or GL upload failed.
- `init` is reduced to whether a headset is present; initialisation errors and the compositor are not modelled.
- Floating-point matrix and vector math is not modelled:
  - projection and pose matrices;
  - `get_center`/`get_axe`, controller poses and `getTriggerState`;
  - `applyToGlMatrix`, `moveBy`, `rotateBy`.
- Float values are modelled as exact reals, with no rounding.
- The drawing example's distance test against `polylineResolution` is an input (`moved`), and the controller positions are inputs.
- The resolution steps of 0.0001 are exact reals rather than single-precision floats.
- `ofSplitString` is modelled with its default options: empty pieces are kept and the empty text gives one empty piece. `ofToFloat` and `ofToString` are the parameters `parse` and `show`.
- The drop list of `dragEvent` is required to be non-empty, as the code reads `files[0]` unchecked. Loading and updating the image is reduced to recording its path.
- Not modelled:
  - the panorama (`ofxOpenVRPanoramic`);
  - the drawing example's scene rendering and help text;
  - window setup in `main.cpp`;
  - the debug text stream and `printf` logging (the change report of `update` is its returned flag).
- `setDrawControllers`, `setClearColor`, `showMirrorWindow`, `hideMirrorWindow`, `getRenderModelForTrackedDevices` and the matrix getters only set or read a field or a matrix; they are not modelled separately.
- A device ID outside the 64 slots, such as -1 when no hand is tracked, counts as not connected. The runtime's answer for such IDs is not modelled.
- A button or event code outside the listed ones leaves the event's field unassigned in the code; the model makes it `None`.
- The slot table starts with every slot empty. The code leaves it unset until `setupRenderModels`.
- Without a headset the index size is taken as 0; the code leaves `_uiIndexSize` unassigned.
- The compositor's mirror window is taken to start hidden.
- A cached render model is identified by the name it was loaded under; its GL objects are not modelled.

## Findings

| source | as written | input that shows it | evidently intended | confidence | as-written member | corrected member |
|---|---|---|---|---|---|---|
| example-drawing/src/ofApp.cpp:72 | with the trigger held, `update` writes to `leftControllerPolylines[size() - 1]` (and the right hand's at line 84), which is out of bounds for an empty list | left trigger press, then left grip press (the grip empties the list but leaves the trigger held), then an update with the left controller connected and moved at least the resolution | the point goes into a polyline; when the list is empty a new polyline starts at the point | not executed | DrawingApp.TriggerThenGripBreaksUpdate | DrawingApp.ExtendLine |
