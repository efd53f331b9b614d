/** src/alitra/models/quaternion.py: a quaternion (x, y, z, w) tagged with a
    frame; arrays are ordered [x, y, z, w] and are never normalised here. */
module Quaternions {
  import opened Common
  import opened Frames

  /** The default quaternion is the identity (0, 0, 0, 1). */
  datatype Quaternion = Quaternion(frame: Frame, x: real := 0.0, y: real := 0.0, z: real := 0.0, w: real := 1.0) {

    /** Quaternion.to_array. */
    function ToArray(): Vec4 {
      [x, y, z, w]
    }

    /** Quaternion.from_array: only an array of exactly four entries is
        accepted; entries are kept positionally, unnormalised, with the given frame. */
    static function FromArray(a: seq<real>, frame: Frame): (r: Result<Quaternion>)
      ensures r.Ok? <==> |a| == 4
      ensures r.Ok? ==> r.value.ToArray() == a && r.value.frame == frame
    {
      if |a| != 4 then Err(ShapeError) else Ok(Quaternion(frame, a[0], a[1], a[2], a[3]))
    }
  }

  lemma QuaternionDefaultIsIdentity(f: Frame)
    ensures Quaternion(f).ToArray() == [0.0, 0.0, 0.0, 1.0]
  {
  }

  lemma QuaternionArrayRoundTrip(q: Quaternion)
    ensures Quaternion.FromArray(q.ToArray(), q.frame) == Ok(q)
  {
  }
}
