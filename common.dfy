/** Vocabulary shared by every model: the error outcomes the library raises,
    results, the right-hand operand of a Python `==`, and fixed-length arrays. */
module Common {

  /** The exceptions the modelled code raises, one constructor per cause. */
  datatype Error =
    | ShapeError              // an array whose shape the receiving code rejects (ValueError)
    | FrameMismatch           // positions not expressed in the requested source frame (ValueError)
    | TransformNotSpecified   // the transform relates neither (from_, to_) nor (to_, from_) (ValueError)
    | TranslationFrames       // Transform.__post_init__ rejects the translation's frames (ValueError)
    | MissingRotation         // the transform's rotation_object was left at its default None
    | RotationRejected        // the rotation library refuses its input (a zero quaternion, a bad axis sequence)
    | NotSinglePosition       // transform_pose got a collection back for its single position (TypeError)

  datatype Option<T> = None | Some(value: T)

  /** A value, or the exception raised instead; usable with `:-`. */
  datatype Result<T> = Ok(value: T) | Err(error: Error) {
    predicate IsFailure() {
      Err?
    }

    function PropagateFailure<U>(): Result<U>
      requires Err?
    {
      Err(error)
    }

    function Extract(): T
      requires Ok?
    {
      value
    }
  }

  /** The right-hand side of `a == b` where `a` is an instance of some class:
      either another instance of that class, or an object of any other type. */
  datatype Operand<T> = Same(value: T) | Foreign

  /** A numpy array of shape (3,) and one of shape (4,). */
  type Vec3 = v: seq<real> | |v| == 3 witness [0.0, 0.0, 0.0]
  type Vec4 = v: seq<real> | |v| == 4 witness [0.0, 0.0, 0.0, 0.0]

  /** numpy's element-wise `a + b` and `a - b` on two arrays of shape (3,). */
  function Add(a: Vec3, b: Vec3): Vec3 {
    [a[0] + b[0], a[1] + b[1], a[2] + b[2]]
  }

  function Sub(a: Vec3, b: Vec3): Vec3 {
    [a[0] - b[0], a[1] - b[1], a[2] - b[2]]
  }

  lemma SubUndoesAdd(a: Vec3, b: Vec3)
    ensures Sub(Add(a, b), b) == a
  {
  }

  lemma AddUndoesSub(a: Vec3, b: Vec3)
    ensures Add(Sub(a, b), b) == a
  {
  }
}
