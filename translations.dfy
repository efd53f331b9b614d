/** src/alitra/models/translation.py: a translation between two frames,
    expressed in the destination frame; arrays are ordered [x, y, z]. */
module Translations {
  import opened Common
  import opened Frames

  /** z defaults to 0; x and y have no default. */
  datatype Translation = Translation(x: real, y: real, fromFrame: Frame, toFrame: Frame, z: real := 0.0) {

    /** Translation.to_array. */
    function ToArray(): Vec3 {
      [x, y, z]
    }

    /** Translation.from_array: only an array of exactly three entries is
        accepted; both frames are carried through unchanged. */
    static function FromArray(a: seq<real>, fromFrame: Frame, toFrame: Frame): (r: Result<Translation>)
      ensures r.Ok? <==> |a| == 3
      ensures r.Ok? ==> r.value.ToArray() == a && r.value.fromFrame == fromFrame && r.value.toFrame == toFrame
    {
      if |a| != 3 then Err(ShapeError) else Ok(Translation(a[0], a[1], fromFrame, toFrame, a[2]))
    }
  }

  lemma TranslationDefaultZ(x: real, y: real, f: Frame, t: Frame)
    ensures Translation(x, y, f, t).ToArray() == [x, y, 0.0]
  {
  }

  lemma TranslationArrayRoundTrip(t: Translation)
    ensures Translation.FromArray(t.ToArray(), t.fromFrame, t.toFrame) == Ok(t)
  {
  }
}
