# alitra frame routing, modelled in Dafny

This project models the frame-routing and validation layer of alitra's
coordinate-transform engine, together with the frame-tagged value types that layer uses:

- **Frame**: a named coordinate frame, equal by name.
- **Position, Positions, Euler, Quaternion, Translation, Orientation and Pose**:
  frame-tagged values with their numpy-array conversions and shape checks.
- **Transform**: a translation, an optional rotation and the pair of frames
  it maps between. Building one runs a frame check.
- **The `transform_*` functions**: each decides whether a requested
  `(from_, to_)` pair uses a transform forwards (`R·p + t`, or `rot·R`),
  backwards (`R⁻¹·(p − t)`, or `rot·R⁻¹`), or not at all. They check frames
  and re-tag results with `to_`.

The rotation is abstract. It is a type parameter `R`, and the library calls
the engine makes are a record `RotationLib<R>`:

- `apply` and `applyInv`: rotating a vector, and rotating it by the inverse.
- `compose` and `inv`: composing rotations, and inverting one.
- `fromQuat` and `asQuat`: conversion from and to a quaternion.
- `fromEuler` and `asEuler`: conversion from and to Euler angles.

Each `from*` conversion returns `None` where the library raises. The
algebraic facts the round trips need are stated as predicates on the library,
and the lemmas that need them take them as `requires`:

- `InverseLaw`: `applyInv(r, apply(r, v)) == v`.
- `ForwardLaw`: `apply(r, applyInv(r, v)) == v`.
- `CancelLaw`: composing with a rotation and then with its inverse cancels.

How the Python values are represented:

- Reals stand in for floats.
- A numpy array of shape (3,) or (4,) is a `seq<real>`. An N×3 array is the
  sequence of its rows.
- Every Python exception is an `Err` of a `Result`.

Modules, one per source file:

| module | source |
|---|---|
| `Common` | results, errors, fixed-length arrays |
| `Rotations` | the rotation library's interface |
| `Frames` | `models/frame.py` |
| `PositionTypes` | `models/position.py` |
| `Eulers` | `models/euler.py` |
| `Quaternions` | `models/quaternion.py` |
| `Translations` | `models/translation.py` |
| `Orientations` | the Orientation and Pose values the engine uses |
| `Transforms` | `models/transform.py` |
| `Transformations` | `transformations.py` |

`Positions.to_array` and `Positions.from_array` build their lists in a loop,
so they are methods with loop invariants. Each is proved equal to a function
(`Rows`, `FromRows`), and the engine's functions use those functions.
Everything else is pure and is modelled by functions.

The model keeps these behaviours of the code, which a reader might not expect:

- `transform_position` with `from_ == to_` returns its input without looking
  at the input's frame.
- The pose's own frame and its orientation's frame are never checked.
- The rotation functions never check the frame of the value they are given.

## Model

| member | source | states |
|---|---|---|
| `Frames.Frame.Eq` | src/alitra/models/frame.py:15-20 | a Frame equals exactly the operand that is a Frame with the same value, i.e. the same name |
| `Frames.EqIsNameEquality` | src/alitra/models/frame.py:18-20 | two Frames are equal if and only if their names are equal |
| `Frames.EqRejectsForeign` | src/alitra/models/frame.py:16-17 | a Frame never equals an object of another type |
| `Frames.EqIsEquivalence` | src/alitra/models/frame.py:15-20 | frame equality is reflexive, symmetric and transitive |
| `PositionTypes.Position.Eq` | src/alitra/models/position.py:22-30 | never equal to a non-Position; never equal to a Position in another frame, whatever the coordinates; a Position with identical coordinates is equal exactly when its frame is equal |
| `PositionTypes.EqIsNotSymmetric` | src/alitra/models/position.py:25-30 | because allclose scales its tolerance by the second operand, some q == p holds while p == q does not |
| `PositionTypes.Position.FromArray` | src/alitra/models/position.py:32-39 | accepts exactly the arrays of length 3; the result converts back to the same [x, y, z] array and carries the given frame |
| `PositionTypes.PositionArrayRoundTrip` | src/alitra/models/position.py:32-39 | from_array(p.to_array(), p.frame) gives p back |
| `PositionTypes.Positions.ToArray` | src/alitra/models/position.py:52-56 | one row per stored position, in list order, row i being position i's [x, y, z]; equal to `Rows()` |
| `PositionTypes.Positions.FromRows` | src/alitra/models/position.py:58-67 | rejects unless every row has three columns; otherwise one Position per row, in row order, each converting back to its row and tagged with the collection's frame |
| `PositionTypes.Positions.FromArray` | src/alitra/models/position.py:58-67 | the loop builds exactly the collection `FromRows` describes, or the same shape error |
| `PositionTypes.RowsRoundTrip` | src/alitra/models/position.py:52-67 | Positions.to_array(Positions.from_array(A, f)) == A for every N×3 array A with at least one row; for a 0-row array the source gives back shape (0,), see Left out |
| `PositionTypes.PositionsRoundTrip` | src/alitra/models/position.py:52-67 | from_array(ps.to_array(), ps.frame) gives back every non-empty collection whose positions all carry its frame; for the empty collection the source raises, see Left out |
| `Eulers.Euler.FromArray` | src/alitra/models/euler.py:22-34 | accepts exactly the arrays of length 3; index 0, 1, 2 become psi, theta, phi (the result's [psi, theta, phi] is the input) with the given frame |
| `Eulers.EulerDefaultsToZero` | src/alitra/models/euler.py:17-23 | psi, theta and phi default to 0 |
| `Eulers.EulerArrayRoundTrip` | src/alitra/models/euler.py:22-34 | from_array(e.to_array(), e.frame) gives e back |
| `Quaternions.Quaternion.FromArray` | src/alitra/models/quaternion.py:22-38 | accepts exactly the arrays of length 4; components kept positionally and unnormalised, with the given frame |
| `Quaternions.QuaternionDefaultIsIdentity` | src/alitra/models/quaternion.py:16-23 | the default quaternion is (0, 0, 0, 1) |
| `Quaternions.QuaternionArrayRoundTrip` | src/alitra/models/quaternion.py:22-38 | from_array(q.to_array(), q.frame) gives q back, whether or not q is a unit quaternion |
| `Translations.Translation.FromArray` | src/alitra/models/translation.py:20-33 | accepts exactly the arrays of length 3; the result converts back to the input and carries from_ and to_ unchanged |
| `Translations.TranslationDefaultZ` | src/alitra/models/translation.py:14-21 | z defaults to 0 |
| `Translations.TranslationArrayRoundTrip` | src/alitra/models/translation.py:20-33 | from_array(t.to_array(), t.from_, t.to_) gives t back |
| `Orientations.Orientation.FromArray` | tests/models/test_orientation.py:7-21 | accepts exactly the arrays of length 4 and converts back to the input, with the given frame |
| `Transforms.NewTransformAsWritten` | src/alitra/models/transform.py:27-34 | construction as written succeeds if and only if at least one of the translation's two frames matches, and then stores the fields as passed |
| `Transforms.OneSidedMismatchAccepted` | src/alitra/models/transform.py:28-30 | as written, a robot→asset translation is accepted into a robot→robot transform |
| `Transforms.NewTransform` | src/alitra/models/transform.py:27-34 | corrected construction succeeds if and only if both translation frames match the transform's, and then stores the fields as passed |
| `Transforms.CorrectedCheckIsStricter` | src/alitra/models/transform.py:28-30 | whatever the corrected check accepts, the as-written check accepts with the same result |
| `Transforms.CheckedWithoutRotation` | tests/models/test_transform.py:15-18 | the frame check rejects a mismatched translation even when no rotation is supplied |
| `Transforms.FromEuler` | src/alitra/models/transform.py:36-46 | fails if the library rejects the angles, else succeeds exactly when at least one translation frame matches (the construction check as written); stores translation, from_, to_ as passed and the rotation built from [psi, theta, phi] |
| `Transforms.FromQuat` | src/alitra/models/transform.py:48-61 | fails if the library rejects the quaternion, else succeeds exactly when at least one translation frame matches (the construction check as written); stores translation, from_, to_ as passed and the rotation built from [x, y, z, w] |
| `Transformations.DirectionOf` | src/alitra/transformations.py:39-51 | the inverse path exactly when (from_, to_) is the transform's pair reversed; the forward path exactly when it is the transform's pair and not also reversed; otherwise unrelated |
| `Transformations.TransformPosition` | src/alitra/transformations.py:15-58 | equal frames return the input unchanged; otherwise an input in another frame fails with a frame mismatch, and an unrelated pair fails with "Transform not specified". It succeeds exactly when the frame matches, the pair is related, a rotation is present and there is at least one point. A success is the same kind of value, tagged to_, with row i the i-th input row moved along the chosen direction |
| `Transformations.TransformRotation` | src/alitra/transformations.py:61-81 | an unrelated pair fails with "Transform not specified"; forward gives rotation·R, backward rotation·R⁻¹ |
| `Transformations.TransformQuaternion` | src/alitra/transformations.py:84-111 | equal frames return the input; otherwise a quaternion the library rejects fails; a success is tagged to_ and holds the quaternion of the transformed rotation |
| `Transformations.TransformEuler` | src/alitra/transformations.py:114-137 | equal frames return the input; otherwise angles the library rejects fail; a success is tagged to_ and holds the angles of the transformed rotation in the same axis sequence |
| `Transformations.TransformOrientation` | src/alitra/transformations.py:140-160 | equal frames return the input; otherwise succeeds exactly when the quaternion path does, tagged to_, holding the quaternion of the transformed rotation |
| `Transformations.TransformPose` | src/alitra/transformations.py:163-183 | equal frames return the pose; a position outside from_ fails with a frame mismatch; the TypeError branch is never taken; a success is the separately transformed position and orientation, all tagged to_ |
| `Transformations.BackwardUndoesForward` | src/alitra/transformations.py:39-49 | moving rows forwards then backwards returns them, given the inverse law |
| `Transformations.ForwardUndoesBackward` | src/alitra/transformations.py:39-49 | moving rows backwards then forwards returns them, given the forward law |
| `Transformations.PositionRoundTrip` | src/alitra/transformations.py:15-58 | from the transform's from_ to its to_ and back returns the original Position or Positions, given the inverse law |
| `Transformations.PositionRoundTripBackwards` | src/alitra/transformations.py:15-58 | from the transform's to_ to its from_ and back returns the original, given the forward law |
| `Transformations.IdentityRotationShifts` | tests/test_transformations.py:44-57 | with a rotation that leaves vectors alone, the forward path shifts each point by the translation, keeping count and order |
| `Transformations.RotationRoundTrip` | src/alitra/transformations.py:73-77 | transform_rotation there and back, in either order, returns the original rotation, given the cancellation law |
| `Transformations.DegenerateTransformRunsBackwards` | src/alitra/transformations.py:73-75 | for a transform between a frame and itself, transform_rotation takes the inverse path |
| `Transformations.RotationInputFrameNotChecked` | src/alitra/transformations.py:102-111 | the quaternion, Euler and orientation transforms give the same result whatever frame their input carries |
| `Transformations.PositionErrorCases` | tests/test_transformations.py:165-196 | with a robot collection and a robot→asset transform, only the request (asset, robot) fails, with a frame mismatch |

## Findings

| source | as written | input that shows it | evidently intended | confidence | as-written member | corrected member |
|---|---|---|---|---|---|---|
| src/alitra/models/transform.py:28-30 | `not translation.from_ == from_ and not translation.to_ == to_`: construction is rejected only when both frames differ | translation from "robot" to "asset" with `Transform(from_="robot", to_="robot")` is accepted | reject when either frame differs, as the error message ("from_ frames or to_ frames ... are not equal") says | medium, not executed | `Transforms.NewTransformAsWritten` / `Transforms.OneSidedMismatchAccepted` | `Transforms.NewTransform` |

`FromEuler` and `FromQuat` construct their transforms with the check as written,
as the source does; `NewTransform` is the corrected construction.

## Left out

- Rotation mathematics: it is all scipy's `Rotation` (`from_euler`, `from_quat`, `as_euler`, `as_quat`, `apply`, `*`, `inv`), so it stays abstract behind `RotationLib`. The tests that expect concrete trigonometric values are not modelled.
- The alignment estimator (`align_positions`, `align_maps`): `alitra/alignment.py` is not part of this model. Its work is floating-point SVD and least squares.
- `src/alitra/convert/convert.py` and `src/alitra/models/orientation.py`: both are thin wrappers over scipy. The angle wrapping in `to_euler_array` is float modulo. Orientation is modelled only as the frame-tagged 4-array that transformations.py and the tests use.
- Map, Bounds and their loading from files: that is file I/O, and their sources are not part of this model.
- Floating point: reals stand in for IEEE doubles, so NaN, infinities and rounding are not modelled. `np.allclose` is modelled exactly, on reals, with its default tolerances.
- Runtime `isinstance` checks on inputs: Dafny's types take their place. The exception is the TypeError check in `transform_pose`, which is modelled and proved never to fire.
- Array rank: numpy arrays of the wrong rank (for example a 2-D array passed where shape (3,) is checked) cannot be expressed, because 1-D arrays are `seq<real>`. For the same reason an N×3 array is its list of rows.
- Empty Positions arrays: numpy keeps the declared width of a 0-row array, and `np.array([])` has no second dimension (`shape[1]` raises). A list of rows carries neither, so `Positions.FromRows` accepts the empty list. `transform_position` on an empty collection is still an error, as in the source.
- `PositionTypes.RowsRoundTrip`: it also holds for a 0-row array, which the source gives back with shape (0,) rather than (0,3). A list of rows cannot express the difference.
- `PositionTypes.PositionsRoundTrip`: it also holds for the empty collection, where the source raises: `Positions([], f).to_array()` has shape (0,), and `Positions.from_array` fails at `shape[1]`.
- Exception messages: each failure is identified by its cause (`Error`), not by its text or Python exception class.
