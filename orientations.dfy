/** The Orientation and Pose values the transformation engine consumes and
    produces. An Orientation is handled by transformations.py purely as a
    frame-tagged 4-array (to_array / from_array), the way the tests build it;
    a Pose is a plain container of a Position, an Orientation and a frame. */
module Orientations {
  import opened Common
  import opened Frames
  import opened PositionTypes

  datatype Orientation = Orientation(frame: Frame, x: real, y: real, z: real, w: real) {

    function ToArray(): Vec4 {
      [x, y, z, w]
    }

    /** Orientation.from_array as the tests exercise it: only four entries are
        accepted, kept positionally, with the given frame. */
    static function FromArray(a: seq<real>, frame: Frame): (r: Result<Orientation>)
      ensures r.Ok? <==> |a| == 4
      ensures r.Ok? ==> r.value.ToArray() == a && r.value.frame == frame
    {
      if |a| != 4 then Err(ShapeError) else Ok(Orientation(frame, a[0], a[1], a[2], a[3]))
    }
  }

  datatype Pose = Pose(position: Position, orientation: Orientation, frame: Frame)
}
