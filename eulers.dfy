/** src/alitra/models/euler.py: Euler angles (psi, theta, phi) about the z, y
    and x axes, tagged with a frame; arrays are ordered [psi, theta, phi]. */
module Eulers {
  import opened Common
  import opened Frames

  /** Every angle defaults to 0. */
  datatype Euler = Euler(frame: Frame, psi: real := 0.0, theta: real := 0.0, phi: real := 0.0) {

    /** Euler.to_array. */
    function ToArray(): Vec3 {
      [psi, theta, phi]
    }

    /** Euler.from_array: only an array of exactly three entries is accepted;
        entries 0, 1, 2 become psi, theta, phi, tagged with the given frame. */
    static function FromArray(a: seq<real>, frame: Frame): (r: Result<Euler>)
      ensures r.Ok? <==> |a| == 3
      ensures r.Ok? ==> r.value.ToArray() == a && r.value.frame == frame
    {
      if |a| != 3 then Err(ShapeError) else Ok(Euler(frame, a[0], a[1], a[2]))
    }
  }

  lemma EulerDefaultsToZero(f: Frame)
    ensures Euler(f).ToArray() == [0.0, 0.0, 0.0]
  {
  }

  lemma EulerArrayRoundTrip(e: Euler)
    ensures Euler.FromArray(e.ToArray(), e.frame) == Ok(e)
  {
  }
}
