/** src/alitra/transformations.py: moving positions, rotations, quaternions,
    Euler angles, orientations and poses from one frame to another with a
    Transform, forwards or backwards, with the frame checks and error outcomes
    of the library. Frames are compared with `==`, which is Frame.__eq__
    (see Frames.Frame.Eq). */
module Transformations {
  import opened Common
  import opened Frames
  import opened PositionTypes
  import opened Eulers
  import opened Quaternions
  import opened Orientations
  import opened Transforms
  import opened Rotations

  /** Which way a transform is used for a requested (from_, to_) pair. */
  datatype Direction = Forward | Inverse | Unrelated

  /** The if/elif/else every transform_* function runs: the inverse path is
      tested first, so a transform whose two frames coincide is always used
      backwards. */
  function DirectionOf<R>(t: Transform<R>, fromFrame: Frame, toFrame: Frame): (d: Direction)
    ensures d == Inverse <==> fromFrame == t.toFrame && toFrame == t.fromFrame
    ensures d == Forward <==> fromFrame == t.fromFrame && toFrame == t.toFrame && d != Inverse
    ensures d == Unrelated <==> (fromFrame, toFrame) != (t.toFrame, t.fromFrame) && (fromFrame, toFrame) != (t.fromFrame, t.toFrame)
  {
    if fromFrame == t.toFrame && toFrame == t.fromFrame then Inverse
    else if fromFrame == t.fromFrame && toFrame == t.toFrame then Forward
    else Unrelated
  }

  /** What transform_position is given and returns: one Position, or a Positions collection. */
  datatype Points = Single(position: Position) | Collection(positions: Positions) {

    function FrameOf(): Frame {
      match this
      case Single(p) => p.frame
      case Collection(ps) => ps.frame
    }

    /** The points as array rows, in order. */
    function Rows(): seq<Vec3> {
      match this
      case Single(p) => [p.ToArray()]
      case Collection(ps) => ps.Rows()
    }

    /** Every point, and the collection, carry the same frame. */
    predicate WellTagged() {
      match this
      case Single(_) => true
      case Collection(ps) => ps.WellTagged()
    }
  }

  /** R·v + t, the forward path applied to one point. */
  function ForwardPoint<R>(lib: RotationLib<R>, rotation: R, translation: Vec3, v: Vec3): Vec3 {
    Add(lib.apply(rotation, v), translation)
  }

  /** R⁻¹·(v − t), the inverse path applied to one point. */
  function BackwardPoint<R>(lib: RotationLib<R>, rotation: R, translation: Vec3, v: Vec3): Vec3 {
    lib.applyInv(rotation, Sub(v, translation))
  }

  /** One point moved along a chosen (non-Unrelated) direction. */
  function Moved<R>(lib: RotationLib<R>, rotation: R, translation: Vec3, d: Direction, v: Vec3): Vec3 {
    if d == Inverse then BackwardPoint(lib, rotation, translation, v) else ForwardPoint(lib, rotation, translation, v)
  }

  /** scipy's apply and numpy's broadcasting on an N x 3 array: row by row. */
  function MovedRows<R>(lib: RotationLib<R>, rotation: R, translation: Vec3, d: Direction, rows: seq<Vec3>): seq<Vec3> {
    seq(|rows|, i requires 0 <= i < |rows| => Moved(lib, rotation, translation, d, rows[i]))
  }

  /** transform_position. With equal frames the input comes back untouched,
      whatever its frame. Otherwise the input must be in `fromFrame`, the
      transform must relate the pair in one direction, and each point is moved
      along it; the result is the same kind of value, tagged `toFrame`.
      An empty collection is rejected: numpy turns it into an array of shape
      (0,), which neither scipy's apply nor the subtraction accepts. */
  function TransformPosition<R>(lib: RotationLib<R>, t: Transform<R>, input: Points, fromFrame: Frame, toFrame: Frame)
    : (r: Result<Points>)
    ensures fromFrame == toFrame ==> r == Ok(input)
    ensures fromFrame != toFrame && input.FrameOf() != fromFrame ==> r == Err(FrameMismatch)
    ensures fromFrame != toFrame && input.FrameOf() == fromFrame && DirectionOf(t, fromFrame, toFrame) == Unrelated
            ==> r == Err(TransformNotSpecified)
    ensures fromFrame != toFrame ==>
              (r.Ok? <==> input.FrameOf() == fromFrame && DirectionOf(t, fromFrame, toFrame) != Unrelated &&
                          t.rotation.Some? && |input.Rows()| > 0)
    ensures fromFrame != toFrame && r.Ok? ==>
              && r.value.Single? == input.Single?
              && r.value.FrameOf() == toFrame
              && r.value.WellTagged()
              && r.value.Rows() == MovedRows(lib, t.rotation.value, t.translation.ToArray(),
                                              DirectionOf(t, fromFrame, toFrame), input.Rows())
  {
    if fromFrame == toFrame then Ok(input)
    else if input.FrameOf() != fromFrame then Err(FrameMismatch)
    else
      var d := DirectionOf(t, fromFrame, toFrame);
      if d == Unrelated then Err(TransformNotSpecified)
      else if t.rotation.None? then Err(MissingRotation)
      else
        var rotation, translation := t.rotation.value, t.translation.ToArray();
        match input
        case Single(p) =>
          Ok(Single(Position.FromArray(Moved(lib, rotation, translation, d, p.ToArray()), toFrame).value))
        case Collection(ps) =>
          if |ps.positions| == 0 then Err(ShapeError)
          else
            var moved := MovedRows(lib, rotation, translation, d, ps.Rows());
            Ok(Collection(Positions.FromRows(moved, toFrame).value))
  }

  /** transform_rotation: compose with the transform's rotation going
      forwards, with its inverse going backwards. Unlike the other functions
      it has no shortcut for equal frames. */
  function TransformRotation<R>(lib: RotationLib<R>, t: Transform<R>, rotation: R, fromFrame: Frame, toFrame: Frame)
    : (r: Result<R>)
    ensures DirectionOf(t, fromFrame, toFrame) == Unrelated ==> r == Err(TransformNotSpecified)
    ensures r.Ok? <==> DirectionOf(t, fromFrame, toFrame) != Unrelated && t.rotation.Some?
    ensures r.Ok? && DirectionOf(t, fromFrame, toFrame) == Forward ==> r.value == lib.compose(rotation, t.rotation.value)
    ensures r.Ok? && DirectionOf(t, fromFrame, toFrame) == Inverse ==> r.value == lib.compose(rotation, lib.inv(t.rotation.value))
  {
    var d := DirectionOf(t, fromFrame, toFrame);
    if d == Unrelated then Err(TransformNotSpecified)
    else if t.rotation.None? then Err(MissingRotation)
    else if d == Inverse then Ok(lib.compose(rotation, lib.inv(t.rotation.value)))
    else Ok(lib.compose(rotation, t.rotation.value))
  }

  /** transform_quaternion: the quaternion's own frame is never consulted. */
  function TransformQuaternion<R>(lib: RotationLib<R>, t: Transform<R>, q: Quaternion, fromFrame: Frame, toFrame: Frame)
    : (r: Result<Quaternion>)
    ensures fromFrame == toFrame ==> r == Ok(q)
    ensures fromFrame != toFrame && lib.fromQuat(q.ToArray()).None? ==> r == Err(RotationRejected)
    ensures fromFrame != toFrame ==>
              (r.Ok? <==> lib.fromQuat(q.ToArray()).Some? &&
                          TransformRotation(lib, t, lib.fromQuat(q.ToArray()).value, fromFrame, toFrame).Ok?)
    ensures fromFrame != toFrame && r.Ok? ==>
              r.value.frame == toFrame &&
              r.value.ToArray() == lib.asQuat(TransformRotation(lib, t, lib.fromQuat(q.ToArray()).value, fromFrame, toFrame).value)
  {
    if fromFrame == toFrame then Ok(q)
    else
      var rotation :- Built(lib.fromQuat(q.ToArray()));
      var rotationTo :- TransformRotation(lib, t, rotation, fromFrame, toFrame);
      Quaternion.FromArray(lib.asQuat(rotationTo), toFrame)
  }

  /** transform_euler, with the axis sequence defaulting to "ZYX": the angles'
      own frame is never consulted. */
  function TransformEuler<R>(lib: RotationLib<R>, t: Transform<R>, e: Euler, fromFrame: Frame, toFrame: Frame,
                             axes: string := "ZYX")
    : (r: Result<Euler>)
    ensures fromFrame == toFrame ==> r == Ok(e)
    ensures fromFrame != toFrame && lib.fromEuler(axes, e.ToArray()).None? ==> r == Err(RotationRejected)
    ensures fromFrame != toFrame ==>
              (r.Ok? <==> lib.fromEuler(axes, e.ToArray()).Some? &&
                          TransformRotation(lib, t, lib.fromEuler(axes, e.ToArray()).value, fromFrame, toFrame).Ok?)
    ensures fromFrame != toFrame && r.Ok? ==>
              r.value.frame == toFrame &&
              r.value.ToArray() == lib.asEuler(TransformRotation(lib, t, lib.fromEuler(axes, e.ToArray()).value,
                                                                 fromFrame, toFrame).value, axes)
  {
    if fromFrame == toFrame then Ok(e)
    else
      var rotation :- Built(lib.fromEuler(axes, e.ToArray()));
      var rotationTo :- TransformRotation(lib, t, rotation, fromFrame, toFrame);
      Euler.FromArray(lib.asEuler(rotationTo, axes), toFrame)
  }

  /** transform_orientation: the orientation's four components go through
      transform_quaternion (tagged `fromFrame`) and come back tagged `toFrame`. */
  function TransformOrientation<R>(lib: RotationLib<R>, t: Transform<R>, o: Orientation, fromFrame: Frame, toFrame: Frame)
    : (r: Result<Orientation>)
    ensures fromFrame == toFrame ==> r == Ok(o)
    ensures fromFrame != toFrame ==>
              (r.Ok? <==> lib.fromQuat(o.ToArray()).Some? &&
                          TransformRotation(lib, t, lib.fromQuat(o.ToArray()).value, fromFrame, toFrame).Ok?)
    ensures fromFrame != toFrame && r.Ok? ==>
              r.value.frame == toFrame &&
              r.value.ToArray() == lib.asQuat(TransformRotation(lib, t, lib.fromQuat(o.ToArray()).value, fromFrame, toFrame).value)
  {
    if fromFrame == toFrame then Ok(o)
    else
      var q := Quaternion.FromArray(o.ToArray(), fromFrame).value;
      var qTo :- TransformQuaternion(lib, t, q, fromFrame, toFrame);
      Orientation.FromArray(qTo.ToArray(), toFrame)
  }

  /** transform_pose: position and orientation are moved independently and
      the new Pose is tagged `toFrame`. Only the position's frame is checked;
      the pose's own frame and its orientation's frame are not. */
  function TransformPose<R>(lib: RotationLib<R>, t: Transform<R>, pose: Pose, fromFrame: Frame, toFrame: Frame)
    : (r: Result<Pose>)
    ensures fromFrame == toFrame ==> r == Ok(pose)
    ensures fromFrame != toFrame && pose.position.frame != fromFrame ==> r == Err(FrameMismatch)
    ensures r != Err(NotSinglePosition)
    ensures fromFrame != toFrame ==>
              (r.Ok? <==> TransformPosition(lib, t, Single(pose.position), fromFrame, toFrame).Ok? &&
                          TransformOrientation(lib, t, pose.orientation, fromFrame, toFrame).Ok?)
    ensures fromFrame != toFrame && r.Ok? ==>
              && r.value.frame == toFrame
              && r.value.position.frame == toFrame
              && r.value.orientation.frame == toFrame
              && TransformPosition(lib, t, Single(pose.position), fromFrame, toFrame) == Ok(Single(r.value.position))
              && TransformOrientation(lib, t, pose.orientation, fromFrame, toFrame) == Ok(r.value.orientation)
  {
    if fromFrame == toFrame then Ok(pose)
    else
      var moved :- TransformPosition(lib, t, Single(pose.position), fromFrame, toFrame);
      match moved
      case Collection(_) => Err(NotSinglePosition)
      case Single(position) =>
        var orientation :- TransformOrientation(lib, t, pose.orientation, fromFrame, toFrame);
        Ok(Pose(position, orientation, toFrame))
  }

  /** A well-tagged value is determined by its kind, its frame and its rows. */
  lemma {:induction false} PointsDeterminedByRows(a: Points, b: Points)
    requires a.Single? == b.Single? && a.FrameOf() == b.FrameOf()
    requires a.WellTagged() && b.WellTagged() && a.Rows() == b.Rows()
    ensures a == b
  {
    match a
    case Single(p) =>
      assert p.ToArray() == a.Rows()[0] == b.Rows()[0] == b.position.ToArray();
    case Collection(ps) =>
      var qs := b.positions;
      assert |ps.positions| == |ps.Rows()| == |qs.Rows()| == |qs.positions|;
      forall i | 0 <= i < |ps.positions|
        ensures ps.positions[i] == qs.positions[i]
      {
        assert ps.positions[i].ToArray() == ps.Rows()[i] == qs.Rows()[i] == qs.positions[i].ToArray();
      }
      assert ps.positions == qs.positions;
  }

  /** Moving every row forwards and then backwards gives the rows back. */
  lemma {:induction false} BackwardUndoesForward<R(!new)>(lib: RotationLib<R>, rotation: R, translation: Vec3, rows: seq<Vec3>)
    requires InverseLaw(lib)
    ensures MovedRows(lib, rotation, translation, Inverse, MovedRows(lib, rotation, translation, Forward, rows)) == rows
  {
    var there := MovedRows(lib, rotation, translation, Forward, rows);
    var back := MovedRows(lib, rotation, translation, Inverse, there);
    forall i | 0 <= i < |rows|
      ensures back[i] == rows[i]
    {
      SubUndoesAdd(lib.apply(rotation, rows[i]), translation);
    }
  }

  /** Moving every row backwards and then forwards gives the rows back. */
  lemma {:induction false} ForwardUndoesBackward<R(!new)>(lib: RotationLib<R>, rotation: R, translation: Vec3, rows: seq<Vec3>)
    requires ForwardLaw(lib)
    ensures MovedRows(lib, rotation, translation, Forward, MovedRows(lib, rotation, translation, Inverse, rows)) == rows
  {
    var there := MovedRows(lib, rotation, translation, Inverse, rows);
    var back := MovedRows(lib, rotation, translation, Forward, there);
    forall i | 0 <= i < |rows|
      ensures back[i] == rows[i]
    {
      AddUndoesSub(rows[i], translation);
    }
  }

  /** transform_position from the transform's from-frame to its to-frame and
      back returns the original position or collection, provided the library's
      inverse undoes its rotation. */
  lemma {:induction false} PositionRoundTrip<R(!new)>(lib: RotationLib<R>, t: Transform<R>, input: Points)
    requires InverseLaw(lib)
    requires t.rotation.Some?
    requires input.FrameOf() == t.fromFrame && input.WellTagged() && |input.Rows()| > 0
    ensures TransformPosition(lib, t, input, t.fromFrame, t.toFrame).Ok?
    ensures TransformPosition(lib, t, TransformPosition(lib, t, input, t.fromFrame, t.toFrame).value, t.toFrame, t.fromFrame)
            == Ok(input)
  {
    var rotation, translation := t.rotation.value, t.translation.ToArray();
    var there := TransformPosition(lib, t, input, t.fromFrame, t.toFrame).value;
    assert |there.Rows()| == |input.Rows()|;
    var back := TransformPosition(lib, t, there, t.toFrame, t.fromFrame).value;
    BackwardUndoesForward(lib, rotation, translation, input.Rows());
    PointsDeterminedByRows(back, input);
  }

  /** The other way round: from the to-frame to the from-frame and back. */
  lemma {:induction false} PositionRoundTripBackwards<R(!new)>(lib: RotationLib<R>, t: Transform<R>, input: Points)
    requires ForwardLaw(lib)
    requires t.rotation.Some?
    requires input.FrameOf() == t.toFrame && input.WellTagged() && |input.Rows()| > 0
    ensures TransformPosition(lib, t, input, t.toFrame, t.fromFrame).Ok?
    ensures TransformPosition(lib, t, TransformPosition(lib, t, input, t.toFrame, t.fromFrame).value, t.fromFrame, t.toFrame)
            == Ok(input)
  {
    var rotation, translation := t.rotation.value, t.translation.ToArray();
    var there := TransformPosition(lib, t, input, t.toFrame, t.fromFrame).value;
    assert |there.Rows()| == |input.Rows()|;
    var back := TransformPosition(lib, t, there, t.fromFrame, t.toFrame).value;
    ForwardUndoesBackward(lib, rotation, translation, input.Rows());
    PointsDeterminedByRows(back, input);
  }

  /** With a rotation that leaves every vector alone, going forwards shifts
      each point by the translation, in order. */
  lemma {:induction false} IdentityRotationShifts<R(!new)>(lib: RotationLib<R>, t: Transform<R>, input: Points)
    requires t.rotation.Some? && forall v: Vec3 :: lib.apply(t.rotation.value, v) == v
    requires t.fromFrame != t.toFrame && input.FrameOf() == t.fromFrame && |input.Rows()| > 0
    ensures TransformPosition(lib, t, input, t.fromFrame, t.toFrame).Ok?
    ensures var out := TransformPosition(lib, t, input, t.fromFrame, t.toFrame).value.Rows();
            |out| == |input.Rows()| &&
            forall i :: 0 <= i < |out| ==> out[i] == Add(input.Rows()[i], t.translation.ToArray())
  {
  }

  /** transform_rotation there and back gives the rotation back, provided
      composing with a rotation and its inverse cancels. */
  lemma RotationRoundTrip<R(!new)>(lib: RotationLib<R>, t: Transform<R>, rotation: R)
    requires CancelLaw(lib)
    requires t.fromFrame != t.toFrame && t.rotation.Some?
    ensures TransformRotation(lib, t, rotation, t.fromFrame, t.toFrame).Ok?
    ensures TransformRotation(lib, t, TransformRotation(lib, t, rotation, t.fromFrame, t.toFrame).value, t.toFrame, t.fromFrame)
            == Ok(rotation)
    ensures TransformRotation(lib, t, rotation, t.toFrame, t.fromFrame).Ok?
    ensures TransformRotation(lib, t, TransformRotation(lib, t, rotation, t.toFrame, t.fromFrame).value, t.fromFrame, t.toFrame)
            == Ok(rotation)
  {
  }

  /** A transform whose two frames coincide is used backwards by
      transform_rotation, which has no shortcut for equal frames. */
  lemma DegenerateTransformRunsBackwards<R>(lib: RotationLib<R>, t: Transform<R>, rotation: R)
    requires t.fromFrame == t.toFrame && t.rotation.Some?
    ensures TransformRotation(lib, t, rotation, t.fromFrame, t.fromFrame) == Ok(lib.compose(rotation, lib.inv(t.rotation.value)))
  {
  }

  /** The rotation functions never look at the frame of what they are given. */
  lemma RotationInputFrameNotChecked<R>(lib: RotationLib<R>, t: Transform<R>, q: Quaternion, e: Euler, o: Orientation,
                                         other: Frame, fromFrame: Frame, toFrame: Frame)
    requires fromFrame != toFrame
    ensures TransformQuaternion(lib, t, q.(frame := other), fromFrame, toFrame) == TransformQuaternion(lib, t, q, fromFrame, toFrame)
    ensures TransformEuler(lib, t, e.(frame := other), fromFrame, toFrame) == TransformEuler(lib, t, e, fromFrame, toFrame)
    ensures TransformOrientation(lib, t, o.(frame := other), fromFrame, toFrame) == TransformOrientation(lib, t, o, fromFrame, toFrame)
  {
  }

  /** The four cases of the position error test: a collection in "robot" and
      a transform from "robot" to "asset" fail only for ("asset", "robot"),
      where the collection is not in the requested source frame. */
  lemma PositionErrorCases<R>(lib: RotationLib<R>, t: Transform<R>, ps: Positions)
    requires t.fromFrame == Frame("robot") && t.toFrame == Frame("asset") && t.rotation.Some?
    requires ps.frame == Frame("robot") && |ps.positions| == 4
    ensures TransformPosition(lib, t, Collection(ps), Frame("asset"), Frame("asset")).Ok?
    ensures TransformPosition(lib, t, Collection(ps), Frame("robot"), Frame("robot")).Ok?
    ensures TransformPosition(lib, t, Collection(ps), Frame("robot"), Frame("asset")).Ok?
    ensures TransformPosition(lib, t, Collection(ps), Frame("asset"), Frame("robot")) == Err(FrameMismatch)
  {
  }
}
