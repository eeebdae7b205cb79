/** What the addon receives from the vendor VR runtime (OpenVR).
    The runtime is an oracle: every answer it gives is an input of the
    model. The numeric constants are those of the SDK header openvr.h. */
module VrSdk {

  /** k_unMaxTrackedDeviceCount: the number of tracked-device slots. */
  const MaxTrackedDeviceCount: nat := 64

  /** k_unTrackedDeviceIndex_Hmd: the headset always occupies slot 0. */
  const HmdDeviceIndex: nat := 0

  // EVRButtonId values the addon recognises.
  const ButtonSystemId: nat := 0           // k_EButton_System
  const ButtonApplicationMenuId: nat := 1  // k_EButton_ApplicationMenu
  const ButtonGripId: nat := 2             // k_EButton_Grip
  const ButtonTouchpadId: nat := 32        // k_EButton_SteamVR_Touchpad (Axis0)
  const ButtonTriggerId: nat := 33         // k_EButton_SteamVR_Trigger (Axis1)

  // EVREventType values the addon recognises.
  const EventTrackedDeviceActivated: nat := 100
  const EventTrackedDeviceDeactivated: nat := 101
  const EventTrackedDeviceUpdated: nat := 102
  const EventButtonPress: nat := 200
  const EventButtonUnpress: nat := 201
  const EventButtonTouch: nat := 202
  const EventButtonUntouch: nat := 203

  /** ETrackedDeviceClass. */
  datatype DeviceClass =
    | ClassInvalid
    | ClassHmd
    | ClassController
    | ClassGenericTracker
    | ClassTrackingReference
    | ClassDisplayRedirect

  /** ETrackedControllerRole, with the roles the addon never tests folded into Other. */
  datatype SdkRole = RoleInvalid | RoleLeftHand | RoleRightHand | RoleOther

  /** ETrackedEye (Hmd_Eye). */
  datatype Eye = EyeLeft | EyeRight

  /** The outcome of loading a render model: the model load, the texture load
      and the GL upload (BInit) either all succeed or one of them fails. */
  datatype LoadOutcome = Loaded | ModelLoadFailed | TextureLoadFailed | GlInitFailed

  /** One event returned by PollNextEvent, together with the runtime's answers
      to the queries processVREvent makes about it: the class and role of its
      device, the touchpad axis of GetControllerState, and, for an activation,
      the device's render-model name and the outcome of loading that model. */
  datatype PolledEvent = PolledEvent(
    eventType: nat,
    device: nat,
    button: nat,
    deviceClass: DeviceClass,
    role: SdkRole,
    touchpadX: real,
    touchpadY: real,
    modelName: string,
    load: LoadOutcome)

  /** One slot of the pose array filled by WaitGetPoses, with the class and
      role the runtime reports for that slot's device. */
  datatype DevicePose = DevicePose(poseIsValid: bool, deviceClass: DeviceClass, role: SdkRole)

  /** What setupRenderModels asks the runtime about one device slot. */
  datatype DeviceInfo = DeviceInfo(connected: bool, deviceClass: DeviceClass, modelName: string, load: LoadOutcome)

  /** The part of VRControllerState_t the addon reads: the touched-button
      mask and the first axis (the touchpad). */
  datatype ControllerState = ControllerState(buttonTouched: bv64, axis0X: real, axis0Y: real)

}
