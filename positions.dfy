/** src/alitra/models/position.py: a single frame-tagged point and an ordered
    collection of points sharing a frame, with their numpy-array conversions.
    An array of shape (3,) is a `seq<real>`; one of shape (N, 3) is the
    sequence of its rows. */
module PositionTypes {
  import opened Common
  import opened Frames

  function Abs(a: real): real {
    if a < 0.0 then -a else a
  }

  /** numpy.allclose on one pair of entries with its default tolerances
      (rtol = 1e-5, atol = 1e-8): |a - b| <= atol + rtol * |b|.
      The tolerance scales with the second argument only. */
  predicate Close(a: real, b: real) {
    Abs(a - b) <= 0.00000001 + 0.00001 * Abs(b)
  }

  datatype Position = Position(x: real, y: real, z: real, frame: Frame) {

    /** Position.__eq__: the other operand must be a Position in an equal
        frame whose coordinates are allclose to this one's. */
    function Eq(other: Operand<Position>): (r: bool)
      ensures other.Foreign? ==> !r
      ensures other.Same? && !frame.Eq(Same(other.value.frame)) ==> !r
      ensures other.Same? && other.value.ToArray() == ToArray() ==> (r <==> other.value.frame == frame)
    {
      match other
      case Foreign => false
      case Same(o) => Close(x, o.x) && Close(y, o.y) && Close(z, o.z) && frame.Eq(Same(o.frame))
    }

    /** Position.to_array: [x, y, z]. */
    function ToArray(): Vec3 {
      [x, y, z]
    }

    /** Position.from_array: only an array of exactly three entries is
        accepted; entries 0, 1, 2 become x, y, z, tagged with the given frame. */
    static function FromArray(a: seq<real>, frame: Frame): (r: Result<Position>)
      ensures r.Ok? <==> |a| == 3
      ensures r.Ok? ==> r.value.ToArray() == a && r.value.frame == frame
    {
      if |a| != 3 then Err(ShapeError) else Ok(Position(a[0], a[1], a[2], frame))
    }
  }

  lemma PositionArrayRoundTrip(p: Position)
    ensures Position.FromArray(p.ToArray(), p.frame) == Ok(p)
  {
  }

  /** Because allclose scales its tolerance by the second operand only,
      Position equality is not symmetric: here q == p holds but p == q does not. */
  lemma EqIsNotSymmetric(f: Frame)
    ensures var p := Position(0.0, 0.0, 0.00000001000005, f);
            var q := Position(0.0, 0.0, 0.0, f);
            !p.Eq(Same(q)) && q.Eq(Same(p))
  {
  }

  /** The shape check of Positions.from_array: every row has three columns. */
  predicate ThreeColumns(a: seq<seq<real>>) {
    forall i :: 0 <= i < |a| ==> |a[i]| == 3
  }

  datatype Positions = Positions(positions: seq<Position>, frame: Frame) {

    /** Every stored position carries the collection's own frame (true of
        everything Positions.from_array builds). */
    predicate WellTagged() {
      forall i :: 0 <= i < |positions| ==> positions[i].frame == frame
    }

    /** The array Positions.to_array builds, as a value. */
    function Rows(): seq<Vec3> {
      seq(|positions|, i requires 0 <= i < |positions| => positions[i].ToArray())
    }

    /** Positions.to_array: one [x, y, z] row per stored position, in list order. */
    method ToArray() returns (a: seq<Vec3>)
      ensures |a| == |positions|
      ensures forall i :: 0 <= i < |positions| ==> a[i] == positions[i].ToArray()
      ensures a == Rows()
    {
      a := [];
      for i := 0 to |positions|
        invariant |a| == i
        invariant forall k :: 0 <= k < i ==> a[k] == positions[k].ToArray()
      {
        a := a + [positions[i].ToArray()];
      }
    }

    /** The collection Positions.from_array builds, as a value: rejected
        unless every row has three columns, otherwise one Position per row,
        in row order, each tagged with the given frame. */
    static function FromRows(a: seq<seq<real>>, frame: Frame): (r: Result<Positions>)
      ensures r.Ok? <==> ThreeColumns(a)
      ensures r.Ok? ==> r.value.frame == frame && r.value.WellTagged() && |r.value.positions| == |a|
      ensures r.Ok? ==> forall i :: 0 <= i < |a| ==> r.value.positions[i].ToArray() == a[i]
    {
      if !ThreeColumns(a) then Err(ShapeError)
      else Ok(Positions(seq(|a|, i requires 0 <= i < |a| => Position(a[i][0], a[i][1], a[i][2], frame)), frame))
    }

    /** Positions.from_array. */
    static method FromArray(a: seq<seq<real>>, frame: Frame) returns (r: Result<Positions>)
      ensures r == FromRows(a, frame)
    {
      if !ThreeColumns(a) {
        return Err(ShapeError);
      }
      var ps: seq<Position> := [];
      for i := 0 to |a|
        invariant |ps| == i
        invariant forall k :: 0 <= k < i ==> ps[k] == Position(a[k][0], a[k][1], a[k][2], frame)
      {
        ps := ps + [Position(a[i][0], a[i][1], a[i][2], frame)];
      }
      assert ps == FromRows(a, frame).value.positions;
      r := Ok(Positions(ps, frame));
    }
  }

  /** Positions.to_array(Positions.from_array(A, f)) == A for every N x 3 array A. */
  lemma RowsRoundTrip(a: seq<seq<real>>, f: Frame)
    requires ThreeColumns(a)
    ensures Positions.FromRows(a, f).Ok?
    ensures Positions.FromRows(a, f).value.Rows() == a
  {
  }

  /** Converting a well-tagged collection to an array and back gives it back. */
  lemma PositionsRoundTrip(ps: Positions)
    requires ps.WellTagged()
    ensures Positions.FromRows(ps.Rows(), ps.frame) == Ok(ps)
  {
    var back := Positions.FromRows(ps.Rows(), ps.frame).value;
    assert forall i :: 0 <= i < |ps.positions| ==> back.positions[i] == ps.positions[i];
    assert back.positions == ps.positions;
  }
}
