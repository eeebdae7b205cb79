/** What the per-frame pose scan of updateDevicesMatrixPose
    (src/ofxOpenVR.cpp) computes from the slots WaitGetPoses filled. The pose
    matrices themselves are left abstract. */
module PoseScan {
  import opened VrSdk

  /** A slot with a valid pose whose device is a controller. */
  predicate IsTrackedController(p: DevicePose)
  {
    p.poseIsValid && p.deviceClass == ClassController
  }

  /** A tracked controller holding the given hand role. */
  predicate IsTrackedHand(p: DevicePose, role: SdkRole)
  {
    IsTrackedController(p) && p.role == role
  }

  /** The number of slots with a valid pose (_iValidPoseCount). */
  function ValidPoseCount(poses: seq<DevicePose>): (n: nat)
    ensures n <= |poses|
  {
    if poses == [] then 0
    else ValidPoseCount(poses[..|poses| - 1]) + (if poses[|poses| - 1].poseIsValid then 1 else 0)
  }

  /** The number of valid-pose controller slots (_iTrackedControllerCount). */
  function TrackedControllerCount(poses: seq<DevicePose>): (n: nat)
    ensures n <= |poses|
  {
    if poses == [] then 0
    else TrackedControllerCount(poses[..|poses| - 1]) + (if IsTrackedController(poses[|poses| - 1]) then 1 else 0)
  }

  /** The device ID the scan keeps for a hand: the last (highest) tracked
      controller slot holding that role, or -1 when there is none. */
  function LastHandSlot(poses: seq<DevicePose>, role: SdkRole): (id: int)
    ensures -1 <= id < |poses|
    ensures id >= 0 ==> IsTrackedHand(poses[id], role)
    ensures forall j :: id < j < |poses| ==> !IsTrackedHand(poses[j], role)
  {
    if poses == [] then -1
    else if IsTrackedHand(poses[|poses| - 1], role) then |poses| - 1
    else LastHandSlot(poses[..|poses| - 1], role)
  }

  /** Every counted controller is a counted valid pose. */
  lemma {:induction false} ControllersAreValidPoses(poses: seq<DevicePose>)
    ensures TrackedControllerCount(poses) <= ValidPoseCount(poses)
    decreases |poses|
  {
    if poses != [] {
      ControllersAreValidPoses(poses[..|poses| - 1]);
    }
  }

  /** The counts are counts: ValidPoseCount is the size of the set of slots
      whose pose is valid. */
  lemma {:induction false} ValidPoseCountIsCardinality(poses: seq<DevicePose>)
    ensures ValidPoseCount(poses) == |set k | 0 <= k < |poses| && poses[k].poseIsValid|
    decreases |poses|
  {
    if poses != [] {
      var n := |poses| - 1;
      var init := poses[..n];
      ValidPoseCountIsCardinality(init);
      var before := set k | 0 <= k < n && init[k].poseIsValid;
      var after := set k | 0 <= k < |poses| && poses[k].poseIsValid;
      if poses[n].poseIsValid {
        assert after == before + {n};
        assert n !in before;
      } else {
        assert after == before;
      }
    }
  }

  /** The two hands never share a device ID unless neither is tracked. */
  lemma HandsAreDistinct(poses: seq<DevicePose>)
    ensures LastHandSlot(poses, RoleLeftHand) == LastHandSlot(poses, RoleRightHand)
            ==> LastHandSlot(poses, RoleLeftHand) == -1
  {
  }

}
