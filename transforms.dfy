/** src/alitra/models/transform.py: a rigid transform between two frames, made
    of a translation (expressed in the destination frame) and an optional
    rotation. Building one runs a frame check on the translation. */
module Transforms {
  import opened Common
  import opened Frames
  import opened Eulers
  import opened Quaternions
  import opened Translations
  import opened Rotations

  /** The fields of a Transform; `rotation` is None when none is supplied. */
  datatype Transform<R> = Transform(translation: Translation, fromFrame: Frame, toFrame: Frame, rotation: Option<R>)

  /** Transform(...) with __post_init__ exactly as written: it raises only
      when the translation's from-frame AND its to-frame both differ. */
  function NewTransformAsWritten<R>(translation: Translation, fromFrame: Frame, toFrame: Frame, rotation: Option<R>)
    : (r: Result<Transform<R>>)
    ensures r.Ok? <==> translation.fromFrame == fromFrame || translation.toFrame == toFrame
    ensures r.Ok? ==> r.value == Transform(translation, fromFrame, toFrame, rotation)
  {
    if !(translation.fromFrame == fromFrame) && !(translation.toFrame == toFrame) then Err(TranslationFrames)
    else Ok(Transform(translation, fromFrame, toFrame, rotation))
  }

  /** The as-written check lets a translation from robot to asset into a
      transform from robot to robot: only one of the two frames differs. */
  lemma OneSidedMismatchAccepted()
    ensures var robot, asset := Frame("robot"), Frame("asset");
            NewTransformAsWritten<int>(Translation(1.0, 1.0, robot, asset), robot, robot, None).Ok?
  {
  }

  /** Transform(...) with the frame check its error message describes: the
      translation must run between the transform's own two frames. */
  function NewTransform<R>(translation: Translation, fromFrame: Frame, toFrame: Frame, rotation: Option<R>)
    : (r: Result<Transform<R>>)
    ensures r.Ok? <==> translation.fromFrame == fromFrame && translation.toFrame == toFrame
    ensures r.Ok? ==> r.value == Transform(translation, fromFrame, toFrame, rotation)
    ensures r.Err? ==> r.error == TranslationFrames
  {
    if translation.fromFrame != fromFrame || translation.toFrame != toFrame then Err(TranslationFrames)
    else Ok(Transform(translation, fromFrame, toFrame, rotation))
  }

  /** Every transform NewTransform accepts is also accepted as written: the
      correction only rejects more. */
  lemma CorrectedCheckIsStricter<R>(translation: Translation, fromFrame: Frame, toFrame: Frame, rotation: Option<R>)
    ensures NewTransform(translation, fromFrame, toFrame, rotation).Ok? ==>
            NewTransformAsWritten(translation, fromFrame, toFrame, rotation) == NewTransform(translation, fromFrame, toFrame, rotation)
  {
  }

  /** The frame check runs even when no rotation is supplied. */
  lemma CheckedWithoutRotation()
    ensures var robot, asset := Frame("robot"), Frame("asset");
            var translation := Translation(1.0, 1.0, robot, asset);
            NewTransform<int>(translation, asset, robot, None) == Err(TranslationFrames) &&
            NewTransformAsWritten<int>(translation, asset, robot, None) == Err(TranslationFrames)
  {
  }

  /** Transform.from_euler: the rotation is built from [psi, theta, phi] with
      the given axis sequence first, then the Transform is constructed, frame
      check as written included; translation and frames are stored as passed. */
  function FromEuler<R>(lib: RotationLib<R>, translation: Translation, euler: Euler, fromFrame: Frame, toFrame: Frame,
                        axes: string := "ZYX")
    : (r: Result<Transform<R>>)
    ensures lib.fromEuler(axes, euler.ToArray()).None? ==> r == Err(RotationRejected)
    ensures r.Ok? <==> lib.fromEuler(axes, euler.ToArray()).Some? &&
                       (translation.fromFrame == fromFrame || translation.toFrame == toFrame)
    ensures r.Ok? ==> r.value.translation == translation && r.value.fromFrame == fromFrame &&
                      r.value.toFrame == toFrame && r.value.rotation == lib.fromEuler(axes, euler.ToArray())
  {
    var rotation :- Built(lib.fromEuler(axes, euler.ToArray()));
    NewTransformAsWritten(translation, fromFrame, toFrame, Some(rotation))
  }

  /** Transform.from_quat: the rotation is built from [x, y, z, w] first, then
      the Transform is constructed, frame check as written included;
      translation and frames are stored as passed. */
  function FromQuat<R>(lib: RotationLib<R>, translation: Translation, quat: Quaternion, fromFrame: Frame, toFrame: Frame)
    : (r: Result<Transform<R>>)
    ensures lib.fromQuat(quat.ToArray()).None? ==> r == Err(RotationRejected)
    ensures r.Ok? <==> lib.fromQuat(quat.ToArray()).Some? &&
                       (translation.fromFrame == fromFrame || translation.toFrame == toFrame)
    ensures r.Ok? ==> r.value.translation == translation && r.value.fromFrame == fromFrame &&
                      r.value.toFrame == toFrame && r.value.rotation == lib.fromQuat(quat.ToArray())
  {
    var rotation :- Built(lib.fromQuat(quat.ToArray()));
    NewTransformAsWritten(translation, fromFrame, toFrame, Some(rotation))
  }
}
