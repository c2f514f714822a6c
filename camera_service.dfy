/**
 * `CameraService`: the target rotation the camera is configured with, the
 * check that a capture use case exists before a photo is taken, the edits
 * applied to a saved photo (a resize above 1920 pixels, a rotation by the
 * target rotation's degrees) and the once-per-process CameraX patch, whose
 * flag lives in the companion object and is modelled as a separate object.
 */
module CameraService {
  import opened Wrappers
  import opened Text

  /** `android.view.Surface` rotation constants. */
  const Rotation0 := 0
  const Rotation90 := 1
  const Rotation180 := 2
  const Rotation270 := 3

  const MaxDimension := 1920

  predicate ValidRotation(rotation: int)
  {
    rotation == Rotation0 || rotation == Rotation90 || rotation == Rotation180 || rotation == Rotation270
  }

  /** The degrees a saved photo is rotated by: a quarter turn per rotation step, none for an unknown value. */
  function RotationDegrees(rotation: int): (degrees: int)
    ensures ValidRotation(rotation) ==> degrees == 90 * rotation
    ensures !ValidRotation(rotation) ==> degrees == 0
    ensures 0 <= degrees < 360 && degrees % 90 == 0
  {
    if rotation == Rotation0 then 0
    else if rotation == Rotation90 then 90
    else if rotation == Rotation180 then 180
    else if rotation == Rotation270 then 270
    else 0
  }

  /** What happens to a saved photo of the given size. */
  datatype PhotoEdit = PhotoEdit(resize: bool, rotateBy: int)

  /** Shrink when either side exceeds 1920 pixels; rotate unless the angle is zero. */
  function EditFor(rotation: int, width: int, height: int): (edit: PhotoEdit)
    ensures edit.resize <==> width > MaxDimension || height > MaxDimension
    ensures edit.rotateBy != 0 <==> rotation == Rotation90 || rotation == Rotation180 || rotation == Rotation270
  {
    PhotoEdit(width > MaxDimension || height > MaxDimension, RotationDegrees(rotation))
  }

  datatype CameraError = IllegalState(message: string)

  /** The `ImageCapture` use case, built with the rotation current at the time. */
  datatype ImageCapture = ImageCapture(targetRotation: int)

  /** The companion object's `patchApplied` flag, shared by every `CameraService`. */
  class CameraPatch {
    var patchApplied: bool
    /** How many times the CameraX configuration succeeded. */
    ghost var configurations: nat

    ghost predicate Valid()
      reads this
    {
      configurations <= 1 && (patchApplied <==> configurations == 1)
    }

    constructor ()
      ensures Valid() && !patchApplied && configurations == 0
    {
      patchApplied := false;
      configurations := 0;
    }

    /**
     * `applyThinkletPatch`: skipped once applied; on a THINKLET model the
     * configuration is tried, and only its success sets the flag.
     */
    method ApplyThinkletPatch(model: string, configureSucceeds: bool)
      requires Valid()
      modifies this
      ensures Valid()
      ensures old(patchApplied) ==> patchApplied && configurations == old(configurations)
      ensures !old(patchApplied) ==>
                (patchApplied <==> Contains(model, "THINKLET") && configureSucceeds)
    {
      if patchApplied {
        return;
      }
      if Contains(model, "THINKLET") {
        if configureSucceeds {
          configurations := configurations + 1;
          patchApplied := true;
        }
      }
    }
  }

  class CameraService {
    var imageCapture: Option<ImageCapture>
    var defaultTargetRotation: int
    const patch: CameraPatch

    /** The rotation field, and the rotation of any use case built from it, is one of the four valid values. */
    predicate Valid()
      reads this
    {
      ValidRotation(defaultTargetRotation) &&
      (imageCapture.Some? ==> ValidRotation(imageCapture.value.targetRotation))
    }

    /** The field initialisers and `init`, which applies the patch. */
    constructor (shared: CameraPatch, model: string, configureSucceeds: bool)
      requires shared.Valid()
      modifies shared
      ensures Valid() && patch == shared && shared.Valid()
      ensures imageCapture.None? && defaultTargetRotation == Rotation0
      ensures old(shared.patchApplied) ==> shared.patchApplied && shared.configurations == old(shared.configurations)
      ensures !old(shared.patchApplied) ==>
                (shared.patchApplied <==> Contains(model, "THINKLET") && configureSucceeds)
    {
      imageCapture := None;
      defaultTargetRotation := Rotation0;
      patch := shared;
      new;
      shared.ApplyThinkletPatch(model, configureSucceeds);
    }

    /** `setDefaultTargetRotation`: only the four `Surface` rotations are taken. */
    method SetDefaultTargetRotation(rotation: int)
      requires Valid()
      modifies this`defaultTargetRotation
      ensures Valid()
      ensures ValidRotation(rotation) ==> defaultTargetRotation == rotation
      ensures !ValidRotation(rotation) ==> defaultTargetRotation == old(defaultTargetRotation)
    {
      if ValidRotation(rotation) {
        defaultTargetRotation := rotation;
      }
    }

    /** The camera provider is ready (`startCamera`'s listener): build the capture use case. */
    method OnCameraProviderReady()
      requires Valid()
      modifies this`imageCapture
      ensures Valid()
      ensures imageCapture == Some(ImageCapture(defaultTargetRotation))
    {
      imageCapture := Some(ImageCapture(defaultTargetRotation));
    }

    /** `takePhoto`: without a capture use case the call fails at once. */
    method TakePhoto() returns (r: Result<ImageCapture, CameraError>)
      requires Valid()
      ensures imageCapture.None? <==> r.Failure?
      ensures r.Success? ==> ValidRotation(r.value.targetRotation)
      ensures r.Failure? ==> r.error == IllegalState("Camera not initialized")
      ensures r.Success? ==> imageCapture == Some(r.value)
    {
      match imageCapture
      case None => return Failure(IllegalState("Camera not initialized"));
      case Some(capture) => return Success(capture);
    }

    /** The saved photo is edited with the rotation current when it is saved. */
    method OnImageSaved(width: int, height: int) returns (edit: PhotoEdit)
      ensures edit.resize <==> width > MaxDimension || height > MaxDimension
      ensures edit.rotateBy == RotationDegrees(defaultTargetRotation)
    {
      edit := EditFor(defaultTargetRotation, width, height);
    }
  }

}
