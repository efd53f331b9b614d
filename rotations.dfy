/** The rotation library the transformation engine calls (scipy's Rotation
    class), kept abstract: a rotation is a value of a type parameter R, and the
    library is a record of the operations the engine uses on it. */
module Rotations {
  import opened Common

  datatype RotationLib<!R> = RotationLib(
    apply: (R, Vec3) -> Vec3,               // rotation.apply(v)
    applyInv: (R, Vec3) -> Vec3,            // rotation.apply(v, inverse=True)
    compose: (R, R) -> R,                   // a * b, the rotation b followed by a
    inv: R -> R,                            // rotation.inv()
    fromQuat: Vec4 -> Option<R>,            // Rotation.from_quat(q); None where it raises
    asQuat: R -> Vec4,                      // rotation.as_quat()
    fromEuler: (string, Vec3) -> Option<R>, // Rotation.from_euler(seq, angles); None where it raises
    asEuler: (R, string) -> Vec3            // rotation.as_euler(seq)
  )

  /** Applying the inverse undoes the rotation. */
  ghost predicate InverseLaw<R(!new)>(lib: RotationLib<R>) {
    forall r: R, v: Vec3 :: lib.applyInv(r, lib.apply(r, v)) == v
  }

  /** Applying the rotation undoes its inverse. */
  ghost predicate ForwardLaw<R(!new)>(lib: RotationLib<R>) {
    forall r: R, v: Vec3 :: lib.apply(r, lib.applyInv(r, v)) == v
  }

  /** Composing with a rotation and then with its inverse (or the other way
      round) gives back the rotation one started from. */
  ghost predicate CancelLaw<R(!new)>(lib: RotationLib<R>) {
    && (forall a: R, b: R :: lib.compose(lib.compose(a, b), lib.inv(b)) == a)
    && (forall a: R, b: R :: lib.compose(lib.compose(a, lib.inv(b)), b) == a)
  }

  /** A rotation the library built, or the exception it raised instead. */
  function Built<R>(o: Option<R>): Result<R> {
    match o
    case None => Err(RotationRejected)
    case Some(v) => Ok(v)
  }
}
