/** src/alitra/models/frame.py: a named coordinate frame. */
module Frames {
  import opened Common

  datatype Frame = Frame(name: string) {

    /** Frame.__eq__: another Frame with the same name, and nothing else.
        Since the name is the only field, this is exactly value equality,
        which is why the rest of the model compares frames with `==`. */
    function Eq(other: Operand<Frame>): (r: bool)
      ensures r <==> other == Same(this)
    {
      match other
      case Foreign => false
      case Same(o) => name == o.name
    }
  }

  lemma EqIsNameEquality(a: Frame, b: Frame)
    ensures a.Eq(Same(b)) <==> a.name == b.name
  {
  }

  lemma EqRejectsForeign(a: Frame)
    ensures !a.Eq(Foreign)
  {
  }

  lemma EqIsEquivalence(a: Frame, b: Frame, c: Frame)
    ensures a.Eq(Same(a))
    ensures a.Eq(Same(b)) ==> b.Eq(Same(a))
    ensures a.Eq(Same(b)) && b.Eq(Same(c)) ==> a.Eq(Same(c))
  {
  }
}
