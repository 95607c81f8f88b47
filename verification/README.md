# Coordinate frames and rotation matrices, in Dafny

This project models the geometric core of the Mathematics Simulator library.

- **The rotation utilities.** These are the elementary rotations `rot_x`, `rot_y` and `rot_z`, and `euler_to_rotation_matrix` for the orders "ZYX" and "XYZ" in radians or degrees. They also include `rotation_matrix_to_euler`, which extracts "ZYX" angles and has a gimbal-lock branch, and the tolerance test `is_rotation_matrix`.
- **The legacy direction cosine matrices.** These are an older copy of the three elementary rotations.
- **The `CoordinateSystem` class.** A frame is an origin plus three normalised axes. The model covers its three construction paths: direct, from a rotation matrix, and from Euler angles. It also covers the rotation and homogeneous matrices, the point and vector transforms between global and local coordinates, and the mutators `set_origin`, `translate` and `rotate`.

Numbers are reals. `sin`, `cos`, `sqrt`, `asin`, `atan2` and `pi` are not implemented: they are fields of a `MathLib` value passed to every operation that uses one of them. The transforms, `set_origin`, `translate` and the matrix getters use none and take no `MathLib`. Each lemma names the laws it relies on, for example `Pythagorean` (sin² + cos² = 1), `SqrtLaw` and `InverseLaws` (the principal-range inverses of `asin` and `atan2`).

An error the code raises becomes the `Failure` side of a `Result`, except for the mutator `rotate`. Its result is a `Mutation`: the frame it leaves behind, plus the error it raised, if any. Only the constructor's omitted optional arguments are `None`. The other defaults are passed explicitly: `order='ZYX'` and `angle_unit='rad'` in `euler_to_rotation_matrix` and `rotation_matrix_to_euler`, `tolerance=1e-6` in `is_rotation_matrix`, and `angle_unit='rad'` in `from_euler_angles`. Operations that mutate the frame in place are modelled as functions that return the frame after the call. A failing `rotate` also returns the partly updated frame it leaves behind.

Files:

| file | module | contents |
|---|---|---|
| `linalg.dfy` | `LinAlg` | 3-vectors, 3x3 matrices, products, transpose, determinant, and the algebra the proofs need |
| `trig.dfy` | `Trig` | the abstract math library, `radians`/`degrees`, and the laws |
| `outcome.dfy` | `Outcome` | the three `ValueError`s, their messages, `Option` and `Result` |
| `rotation.dfy` | `Rotation` | `rotation_matrix.py` without `is_rotation_matrix`, and the corrected "ZYX" composition |
| `rotation_check.dfy` | `RotationCheck` | `is_rotation_matrix` with numpy's `allclose` and `isclose` |
| `direction_cosine.dfy` | `DirectionCosine` | the legacy `DirectionCosineMatrix.py` |
| `frame.dfy` | `CoordinateFrame` | the `CoordinateSystem` class |

Where the library is inconsistent with itself or with its tests, the model follows the code:

- The library has two different "ZYX" products.
  - `from_euler_angles` is documented as a "ZYX" construction (`src/mathematics_simulator/core/coordinate_system.py:147`, and the comment at line 164). The matrix it writes out at lines 169-173 is `rot_z(yaw)·rot_y(pitch)·rot_x(roll)`, the usual "ZYX" convention, which `rotation_matrix_to_euler` inverts. Comment and code agree here.
  - The "ZYX" branch of `euler_to_rotation_matrix` instead builds `rot_x(roll)·rot_y(pitch)·rot_z(yaw)`. The product `from_euler_angles` writes out is the one that function's "XYZ" branch builds (`CoordinateFrame.InlineIsIntended` and `Rotation.IntendedSwapsOrders`). The "## Findings" section records this.
- `tests/core/test_coordinate_system.py:92-94` places a frame at `(0, 1, 0)`, turned 90° about z, and expects global `(1, 0, 0)` to become local `(1, -1, 0)`.
  - The code projects the offset `(1, -1, 0)` onto the axes `(0, 1, 0)`, `(-1, 0, 0)` and `(0, 0, 1)`. That gives `(-1, -1, 0)` (`CoordinateFrame.QuarterTurnPoint`).
  - The round trip back to `(1, 0, 0)` holds either way (`CoordinateFrame.PointLocalGlobal`).

A point about `rotate` (`src/mathematics_simulator/core/coordinate_system.py:303-308`) that is easy to miss:

- It overwrites the three axes with the rotated axes, then normalises them one at a time.
- A rotated axis that is too short therefore raises after the earlier axes were already normalised. The later axes are left rotated but not normalised (`CoordinateFrame.Rotate`, and `CoordinateFrame.RotateStopsAtX`, `RotateStopsAtY` and `RotateStopsAtZ`).

## Model

| member | source | states |
|---|---|---|
| `Rotation.RotX` | src/mathematics_simulator/core/rotation_matrix.py:13-30 | `rot_x(θ)` fixes the x axis (its first row and column are those of the identity), turns y towards z (the sine `sin θ` below the diagonal, its negative above), and has trace `1 + 2 cos θ` |
| `Rotation.RotY` | src/mathematics_simulator/core/rotation_matrix.py:33-50 | `rot_y(θ)` fixes the y axis, turns z towards x (`sin θ` at the top right, its negative at the bottom left), and has trace `1 + 2 cos θ` |
| `Rotation.RotZ` | src/mathematics_simulator/core/rotation_matrix.py:53-70 | `rot_z(θ)` fixes the z axis, turns x towards y (`sin θ` below the diagonal, its negative above), and has trace `1 + 2 cos θ` |
| `Rotation.RightHandRule` | src/mathematics_simulator/core/rotation_matrix.py:13-70 | a positive angle sends y to `(0, cos θ, sin θ)` about x, z to `(sin θ, 0, cos θ)` about y, and x to `(cos θ, sin θ, 0)` about z |
| `Rotation.QuarterTurnX` | tests/core/test_rotation_matrix.py:17-30 | `rot_x(pi/2)` is `[[1,0,0],[0,0,-1],[0,1,0]]` |
| `Rotation.QuarterTurnY` | tests/core/test_rotation_matrix.py:32-45 | `rot_y(pi/2)` is `[[0,0,1],[0,1,0],[-1,0,0]]` |
| `Rotation.QuarterTurnZ` | tests/core/test_rotation_matrix.py:47-60 | `rot_z(pi/2)` is `[[0,-1,0],[1,0,0],[0,0,1]]` |
| `Rotation.RotationsAtZero` | src/mathematics_simulator/core/rotation_matrix.py:13-70 | each elementary rotation by angle zero is the identity, given cos 0 = 1 and sin 0 = 0 |
| `Rotation.RotXIsRotation` | src/mathematics_simulator/core/rotation_matrix.py:13-30 | `rot_x(θ)` has orthonormal rows and columns and determinant one for every θ, given sin² + cos² = 1 |
| `Rotation.RotYIsRotation` | src/mathematics_simulator/core/rotation_matrix.py:33-50 | the same for `rot_y(θ)` |
| `Rotation.RotZIsRotation` | src/mathematics_simulator/core/rotation_matrix.py:53-70 | the same for `rot_z(θ)` |
| `Rotation.RotZAdd` | src/mathematics_simulator/core/rotation_matrix.py:53-70 | `rot_z(b)·rot_z(a) = rot_z(a + b)` under the angle-addition formulas |
| `Rotation.QuarterTurnsZ` | src/mathematics_simulator/core/rotation_matrix.py:53-70 | two quarter turns about z make the half turn |
| `Rotation.InRadians` | src/mathematics_simulator/core/rotation_matrix.py:93-96 | a unit other than "deg" leaves the angles unchanged; "deg" gives each angle in radians, so that it is to pi as the degrees are to 180 |
| `Rotation.Compose` | src/mathematics_simulator/core/rotation_matrix.py:98-105 | the composition fails exactly for an order other than "ZYX" and "XYZ", naming that order; what its two products do to a vector is stated by `Rotation.EulerApplicationOrder` |
| `Rotation.EulerToRotationMatrix` | src/mathematics_simulator/core/rotation_matrix.py:93-105 | the conversion fails exactly for an order other than "ZYX" and "XYZ", and the error names that order |
| `Rotation.EulerIsRotation` | src/mathematics_simulator/core/rotation_matrix.py:98-103 | every matrix the conversion returns is a proper rotation |
| `Rotation.EulerApplicationOrder` | src/mathematics_simulator/core/rotation_matrix.py:98-103 | the "ZYX" matrix applies yaw, then pitch, then roll to a vector; the "XYZ" matrix applies roll, then pitch, then yaw |
| `Rotation.EulerUnits` | src/mathematics_simulator/core/rotation_matrix.py:93-96 | only the exact unit "deg" converts the three angles; any other unit string means radians |
| `Rotation.EulerZyxYawOnly` | src/mathematics_simulator/core/rotation_matrix.py:93-100 | yaw alone in degrees with "ZYX" is `rot_z` of the converted angle, and 90° converts to pi/2 |
| `Rotation.EulerXyzRollOnly` | src/mathematics_simulator/core/rotation_matrix.py:93-103 | roll alone in degrees with "XYZ" is `rot_x` of the converted angle |
| `Rotation.RotationMatrixToEuler` | src/mathematics_simulator/core/rotation_matrix.py:126-141 | a shape other than 3x3 fails first; a 3x3 matrix succeeds exactly for the order "ZYX", and any other order fails naming it |
| `Rotation.ExtractZyx` | src/mathematics_simulator/core/rotation_matrix.py:129-139 | the pitch is the arcsine of minus the bottom-left entry, and at gimbal lock the roll is zero; what the other angles recover is stated by `Rotation.ExtractFromEntries` and the gimbal-lock lemmas |
| `Rotation.InUnit` | src/mathematics_simulator/core/rotation_matrix.py:143-146 | a unit other than "deg" leaves the extracted angles unchanged; "deg" gives each in degrees, so that it is to 180 as the radians are to pi |
| `Rotation.ExtractUnits` | src/mathematics_simulator/core/rotation_matrix.py:126-148 | for any matrix and order, a unit other than "deg" gives exactly the radians result, and "deg" succeeds exactly when radians does, with each angle converted to degrees |
| `Rotation.RadianPaths` | src/mathematics_simulator/core/rotation_matrix.py:93-148 | in radians the conversion is the bare composition, and the "ZYX" extraction of a 3x3 matrix succeeds with the extracted angles unconverted |
| `Rotation.UnitsInverse` | src/mathematics_simulator/core/rotation_matrix.py:143-146 | converting the extracted radians back to the caller's unit undoes the input conversion |
| `Rotation.ExtractFromEntries` | src/mathematics_simulator/core/rotation_matrix.py:129-135 | away from gimbal lock, the extraction recovers roll, pitch and yaw from any matrix whose five read entries are those of `rot_z·rot_y·rot_x` |
| `Rotation.ExtractInvertsXyz` | src/mathematics_simulator/core/rotation_matrix.py:129-139 | the "ZYX" extraction inverts the "XYZ" composition for every recoverable triple of angles |
| `Rotation.GimbalLockXyz` | src/mathematics_simulator/core/rotation_matrix.py:136-139 | at pitch pi/2, the extraction returns roll 0, pitch pi/2, and the difference of yaw and roll as yaw |
| `Rotation.NegativeGimbalLockXyz` | src/mathematics_simulator/core/rotation_matrix.py:136-139 | at pitch -pi/2, the extraction returns roll 0, pitch -pi/2, and the sum of yaw and roll as yaw |
| `Rotation.EulerRoundTrip` | src/mathematics_simulator/core/rotation_matrix.py:93-148 | "XYZ" conversion followed by "ZYX" extraction returns the original angles, in either unit, whenever their radian values are recoverable |
| `Rotation.ZyxRoundTripFails` | src/mathematics_simulator/core/rotation_matrix.py:98-100 | at roll = yaw = pi/2 and pitch 0, which are recoverable angles, the "ZYX" round trip does not return the input |
| `Rotation.EulerToRotationMatrixIntended` | src/mathematics_simulator/core/rotation_matrix.py:98-105 | the corrected conversion fails for exactly the same orders, with the same error |
| `Rotation.IntendedSwapsOrders` | src/mathematics_simulator/core/rotation_matrix.py:98-103 | the correction exchanges the products of "ZYX" and "XYZ" and changes nothing else |
| `Rotation.IntendedRoundTrip` | src/mathematics_simulator/core/rotation_matrix.py:98-148 | with the corrected composition, the "ZYX" round trip returns the original angles, in either unit |
| `RotationCheck.IsRotationMatrix` | src/mathematics_simulator/core/rotation_matrix.py:151-176 | a shape other than 3x3 is rejected; an accepted matrix has determinant and squared row lengths within `tol + 1e-5` of one |
| `RotationCheck.AcceptsRotations` | src/mathematics_simulator/core/rotation_matrix.py:166-174 | every exact rotation passes at every non-negative tolerance |
| `RotationCheck.ToleranceMonotone` | src/mathematics_simulator/core/rotation_matrix.py:166-174 | a matrix accepted at one tolerance is accepted at every larger one |
| `RotationCheck.AcceptsIdentity` | src/mathematics_simulator/core/rotation_matrix.py:151-176 | the identity passes at the default tolerance 1e-6 |
| `RotationCheck.AcceptsRotX` | src/mathematics_simulator/core/rotation_matrix.py:151-176 | `rot_x(θ)` passes at the default tolerance |
| `RotationCheck.AcceptsRotY` | src/mathematics_simulator/core/rotation_matrix.py:151-176 | `rot_y(θ)` passes at the default tolerance |
| `RotationCheck.AcceptsRotZ` | src/mathematics_simulator/core/rotation_matrix.py:151-176 | `rot_z(θ)` passes at the default tolerance |
| `RotationCheck.AcceptsComposite` | src/mathematics_simulator/core/rotation_matrix.py:151-176 | `rot_z(c)·rot_y(b)·rot_x(a)` passes at the default tolerance |
| `RotationCheck.RejectsNonRotations` | src/mathematics_simulator/core/rotation_matrix.py:162-174 | a non-3x3 shape, the shear `[[1,1,0],[0,1,0],[0,0,1]]` and the reflection `diag(-1,1,1)` are rejected |
| `DirectionCosine.RotX` | Rotation/DirectionCosineMatrix.py:6-9 | the legacy x rotation fixes the x axis: first row, first column, and image of the x axis |
| `DirectionCosine.RotY` | Rotation/DirectionCosineMatrix.py:11-14 | the legacy y rotation fixes the y axis in the same three ways |
| `DirectionCosine.RotZ` | Rotation/DirectionCosineMatrix.py:16-19 | the legacy z rotation fixes the z axis in the same three ways |
| `DirectionCosine.AgreesWithRotation` | Rotation/DirectionCosineMatrix.py:6-19 | each legacy matrix equals the same-named rotation of the rotation utilities |
| `DirectionCosine.IdentityAtZero` | Rotation/DirectionCosineMatrix.py:6-19 | each legacy matrix is the identity at angle zero |
| `DirectionCosine.AreRotations` | Rotation/DirectionCosineMatrix.py:6-19 | each legacy matrix is a proper rotation |
| `Outcome.Message` | src/mathematics_simulator/core/coordinate_system.py:89 | every message is non-empty, and the order error's message ends with the order it rejects (also raised at rotation_matrix.py lines 105, 127 and 141) |
| `Outcome.MessageDeterminesError` | src/mathematics_simulator/core/rotation_matrix.py:104-105 | two errors carry the same whole message text exactly when they are the same error |
| `Trig.Radians` | src/mathematics_simulator/core/rotation_matrix.py:93-96 | the converted angle is to pi as the degrees are to 180 |
| `Trig.Degrees` | src/mathematics_simulator/core/rotation_matrix.py:143-146 | the converted angle is to 180 as the radians are to pi |
| `Trig.DegreesRadians` | src/mathematics_simulator/core/rotation_matrix.py:143-146 | the two conversions undo each other |
| `CoordinateFrame.NormSquared` | src/mathematics_simulator/core/coordinate_system.py:87 | given the square-root law, the norm is non-negative and its square is the squared length |
| `CoordinateFrame.Normalize` | src/mathematics_simulator/core/coordinate_system.py:87-90 | fails with the zero-vector error exactly when the norm is below 1e-10; otherwise the result scaled by the norm is the input |
| `CoordinateFrame.NormalizeFailsIff` | src/mathematics_simulator/core/coordinate_system.py:87-89 | normalisation fails exactly when the squared length is below 1e-20 |
| `CoordinateFrame.NormalizeUnit` | src/mathematics_simulator/core/coordinate_system.py:87-90 | a normalised vector has length one |
| `CoordinateFrame.NormalizeOfUnit` | src/mathematics_simulator/core/coordinate_system.py:87-90 | a unit vector normalises to itself |
| `CoordinateFrame.NormalizeIdempotent` | src/mathematics_simulator/core/coordinate_system.py:87-90 | normalising twice is normalising once |
| `CoordinateFrame.ZeroVectorFails` | src/mathematics_simulator/core/coordinate_system.py:87-89 | the zero vector cannot be normalised |
| `CoordinateFrame.OrthonormalNotSkewed` | src/mathematics_simulator/core/coordinate_system.py:92-107 | orthonormal axes never fail the skew test, at any non-negative tolerance |
| `CoordinateFrame.NewFrame` | src/mathematics_simulator/core/coordinate_system.py:30-72 | construction fails only with the zero-vector error; the origin defaults to zero; each axis (defaulting to the world axis) is kept up to its norm; the warning flag is the skew test |
| `CoordinateFrame.NewFrameFailsIff` | src/mathematics_simulator/core/coordinate_system.py:56-69 | construction fails exactly when a supplied or default axis has squared length below 1e-20 |
| `CoordinateFrame.NewFrameUnitAxes` | src/mathematics_simulator/core/coordinate_system.py:56-69 | every axis of a constructed frame has length one |
| `CoordinateFrame.UnitAxesKept` | src/mathematics_simulator/core/coordinate_system.py:56-107 | unit axes are kept as given, skewed or not; the flag reports the skew and nothing fails |
| `CoordinateFrame.OrthonormalAxesKept` | src/mathematics_simulator/core/coordinate_system.py:56-107 | orthonormal axes are kept and draw no warning |
| `CoordinateFrame.ArgumentsThroughDefaults` | src/mathematics_simulator/core/coordinate_system.py:50-69 | construction reads each optional argument only through its default, so `None` and the default value build the same frame |
| `CoordinateFrame.OmittedAreDefaults` | src/mathematics_simulator/core/coordinate_system.py:50-69 | omitting every argument is the same as passing the origin and the world axes |
| `CoordinateFrame.DefaultFrame` | src/mathematics_simulator/core/coordinate_system.py:50-72 | the default frame is the world frame, with no warning |
| `CoordinateFrame.GetRotationMatrix` | src/mathematics_simulator/core/coordinate_system.py:193-195 | the columns of the rotation matrix are the x, y and z axes |
| `CoordinateFrame.GetTransformationMatrix` | src/mathematics_simulator/core/coordinate_system.py:197-202 | the top-left block is the rotation matrix, the last column holds the origin, and the bottom row is `[0, 0, 0, 1]` |
| `CoordinateFrame.TransformationMapsPoints` | src/mathematics_simulator/core/coordinate_system.py:197-202 | the homogeneous matrix maps local point `(l, 1)` to `(global point, 1)` |
| `CoordinateFrame.FromRotationMatrix` | src/mathematics_simulator/core/coordinate_system.py:128-135 | a shape other than 3x3 fails with the shape error; a 3x3 matrix can fail only with the zero-vector error; on success the origin is kept, each axis is the matching column up to its norm, and the warning flag is exactly the skew test of the resulting axes |
| `CoordinateFrame.RotationColumns` | src/mathematics_simulator/core/coordinate_system.py:131-133 | the columns of a rotation matrix are orthonormal |
| `CoordinateFrame.FromRotationMatrixRoundTrip` | src/mathematics_simulator/core/coordinate_system.py:128-135 | a rotation gives the frame with its columns as axes and no warning, and that frame's rotation matrix is the input |
| `CoordinateFrame.FromRotationMatrixQuarterTurn` | src/mathematics_simulator/core/coordinate_system.py:128-135 | the quarter turn about z gives axes `(0,1,0)`, `(-1,0,0)` and `(0,0,1)` |
| `CoordinateFrame.InlineReductions` | src/mathematics_simulator/core/coordinate_system.py:165-173 | with two of the three angles zero, the written-out matrix is the elementary rotation by the third |
| `CoordinateFrame.InlineIsProduct` | src/mathematics_simulator/core/coordinate_system.py:165-173 | the written-out matrix equals the product `rot_z(yaw)·rot_y(pitch)·rot_x(roll)` of the cosines and sines it is given |
| `CoordinateFrame.InlineIsIntended` | src/mathematics_simulator/core/coordinate_system.py:165-173 | the written-out matrix is the corrected "ZYX" composition `rot_z·rot_y·rot_x` |
| `CoordinateFrame.FromEulerAngles` | src/mathematics_simulator/core/coordinate_system.py:159-175 | construction from angles can fail only with the zero-vector error, and keeps the origin |
| `CoordinateFrame.FromEulerAnglesIsIntended` | src/mathematics_simulator/core/coordinate_system.py:159-175 | construction from angles never fails and never warns; the frame's rotation matrix is a proper rotation, and it is the corrected "ZYX" conversion of the angles |
| `CoordinateFrame.FromEulerAnglesRecoverable` | src/mathematics_simulator/core/coordinate_system.py:159-175 | "ZYX" extraction from the frame's rotation matrix returns the construction angles, in either unit, away from gimbal lock |
| `CoordinateFrame.FromEulerAnglesYawOnly` | src/mathematics_simulator/core/coordinate_system.py:159-175 | with roll and pitch zero, a yaw in radians builds the same frame as the rotation matrix about z by that yaw |
| `CoordinateFrame.FromEulerAnglesQuarterTurn` | src/mathematics_simulator/core/coordinate_system.py:159-175 | yaw 90° alone gives x axis `(0,1,0)`, y axis `(-1,0,0)` and z axis `(0,0,1)`, with no warning |
| `CoordinateFrame.VectorToLocal` | src/mathematics_simulator/core/coordinate_system.py:255-260 | the local vector is the transposed rotation matrix applied to the global vector |
| `CoordinateFrame.VectorToGlobal` | src/mathematics_simulator/core/coordinate_system.py:273-278 | the global vector is the rotation matrix applied to the local vector |
| `CoordinateFrame.PointToLocal` | src/mathematics_simulator/core/coordinate_system.py:214-222 | the local point is the vector transform of the offset from the origin |
| `CoordinateFrame.PointToGlobal` | src/mathematics_simulator/core/coordinate_system.py:234-242 | the global point is the origin plus the vector transform |
| `CoordinateFrame.VectorLocalGlobal` | src/mathematics_simulator/core/coordinate_system.py:244-278 | for an orthonormal frame, a vector taken to local and back is unchanged |
| `CoordinateFrame.VectorGlobalLocal` | src/mathematics_simulator/core/coordinate_system.py:244-278 | for an orthonormal frame, a local vector taken to global and back is unchanged |
| `CoordinateFrame.PointLocalGlobal` | src/mathematics_simulator/core/coordinate_system.py:204-242 | for an orthonormal frame, a point taken to local and back is unchanged |
| `CoordinateFrame.PointGlobalLocal` | src/mathematics_simulator/core/coordinate_system.py:204-242 | for an orthonormal frame, a local point taken to global and back is unchanged |
| `CoordinateFrame.TurnedAboutZLocal` | src/mathematics_simulator/core/coordinate_system.py:214-222 | in a frame turned about z, local coordinates are the offset from the origin turned back about z |
| `CoordinateFrame.QuarterTurnPoint` | src/mathematics_simulator/core/coordinate_system.py:214-222 | the frame at `(0,1,0)` turned 90° about z sends global point `(1,0,0)` to local `(-1,-1,0)` |
| `CoordinateFrame.QuarterTurnVector` | src/mathematics_simulator/core/coordinate_system.py:255-260 | the same turn sends global vector `(1,0,0)` to local `(0,-1,0)` |
| `CoordinateFrame.QuarterTurnFromEuler` | src/mathematics_simulator/core/coordinate_system.py:204-260 | on the frame `from_euler_angles` builds at `(0,1,0)` with yaw 90°, global point `(1,0,0)` is local `(-1,-1,0)` and global vector `(1,0,0)` is local `(0,-1,0)` |
| `CoordinateFrame.SetOrigin` | src/mathematics_simulator/core/coordinate_system.py:280-282 | the origin is replaced and the axes are untouched |
| `CoordinateFrame.SetOriginLastWins` | src/mathematics_simulator/core/coordinate_system.py:280-282 | setting the origin twice keeps only the second, and the rotation matrix never changes |
| `CoordinateFrame.Translate` | src/mathematics_simulator/core/coordinate_system.py:284-286 | translating is setting the origin to the old origin plus the offset |
| `CoordinateFrame.TranslateTwice` | src/mathematics_simulator/core/coordinate_system.py:284-286 | two translations are one translation by the sum of the offsets |
| `CoordinateFrame.TranslationInvariance` | src/mathematics_simulator/core/coordinate_system.py:284-286 | moving frame and point by the same offset keeps local point coordinates; vector transforms ignore translation |
| `CoordinateFrame.Rotate` | src/mathematics_simulator/core/coordinate_system.py:288-308 | a shape other than 3x3 raises and leaves the frame unchanged; the origin is always kept; a too-short rotated x axis raises with all three axes rotated and none normalised; otherwise x is the rotated x up to its norm, and a too-short rotated y raises with y left rotated; otherwise y is the rotated y up to its norm, and a too-short rotated z raises; on any error z is left rotated; without an error each new axis is the rotated axis up to its norm |
| `CoordinateFrame.RotationKeepsOrthonormal` | src/mathematics_simulator/core/coordinate_system.py:303-305 | a matrix with orthonormal columns keeps an orthonormal triple orthonormal |
| `CoordinateFrame.RotateRigid` | src/mathematics_simulator/core/coordinate_system.py:303-308 | rotating an orthonormal frame by a rotation raises nothing, keeps it orthonormal, and premultiplies its rotation matrix |
| `CoordinateFrame.RotateFailsIff` | src/mathematics_simulator/core/coordinate_system.py:303-308 | on a 3x3 matrix, `rotate` raises exactly when a rotated axis has squared length below 1e-20 |
| `CoordinateFrame.RotateStopsAtX` | src/mathematics_simulator/core/coordinate_system.py:303-308 | when the rotated x axis has squared length below 1e-20, the zero-vector error is raised and all three axes stay rotated but not normalised |
| `CoordinateFrame.RotateStopsAtY` | src/mathematics_simulator/core/coordinate_system.py:303-308 | when the rotated x axis is long enough but the rotated y axis is not, the zero-vector error is raised, x already has length one, and y and z stay rotated but not normalised |
| `CoordinateFrame.RotateStopsAtZ` | src/mathematics_simulator/core/coordinate_system.py:303-308 | when only the rotated z axis is too short, the zero-vector error is raised, x and y already have length one, and z stays rotated but not normalised |

## Left out

- Floating point: every quantity is a real number.
  - The tolerance tests of `is_rotation_matrix`, the 1e-10 norm threshold, the 1e-6 skew tolerance and the 1e-6 gimbal threshold are modelled exactly over the reals.
  - Rounding error is not modelled.
- The transcendental functions are not implemented. `MathLib` carries `sin`, `cos`, `sqrt`, `asin`, `atan2` and `pi`, and lemmas state the laws they assume.
- Domain errors are not modelled: `asin` is total here. Python's `math.asin` raises for an entry outside [-1, 1], which `rotation_matrix_to_euler` can meet on a matrix that is not a rotation.
- Array broadcasting in `rot_x`, `rot_y` and `rot_z`: angles are scalars.
- `ArrayLike` conversion:
  - Arrays of length other than three and non-numeric input are outside the types.
  - A matrix argument is either 3x3 (`Square3`) or of some other shape (`OtherShape`).
  - A plain list passed where numpy expects `.shape` is not modelled.
- Output side effects:
  - The printed text of the non-orthogonality warning is not modelled. The model records only whether it is printed (`Built.warned`).
  - `__str__` and `__repr__` are left out: string formatting only.
- The getters `get_origin`, `get_x_axis`, `get_y_axis` and `get_z_axis` return copies. Here they are the fields of the immutable `Frame` value.
- In-place mutation: `set_origin`, `translate` and `rotate` return the frame after the call instead of updating an object.
- `numpy.linalg.det` is the exact determinant `Det`.
- RotationCheck.IsRotationMatrix: its contract states necessary conditions for acceptance, not a characterisation.
  - The conditions are: a 3x3 shape, the determinant within tolerance of one, and each squared row length within tolerance of one.
  - `AcceptsRotations` gives the converse for exact rotations. `RejectsNonRotations` covers the library's three rejected cases.
- Rotation.EulerRoundTrip: proved for angles whose radian values lie in the ranges `asin` and `atan2` return and whose pitch cosine exceeds the gimbal threshold.
  - Other angles are not returned unchanged even by exact arithmetic, because `asin` and `atan2` reduce them to principal values.
  - The same bound applies to `Rotation.IntendedRoundTrip` and `CoordinateFrame.FromEulerAnglesRecoverable`.
- CoordinateFrame.VectorLocalGlobal: the four transform round trips are proved for frames with orthonormal axes.
  - The same holds for `VectorGlobalLocal`, `PointLocalGlobal` and `PointGlobalLocal`.
  - A skewed frame, which construction allows after a warning, does not round-trip in general.

## Findings

| source | as written | input that shows it | evidently intended | confidence | as-written member | corrected member |
|---|---|---|---|---|---|---|
| src/mathematics_simulator/core/rotation_matrix.py:98-100 | order "ZYX" composes `rot_x(roll)·rot_y(pitch)·rot_z(yaw)`, while `rotation_matrix_to_euler` and `from_euler_angles` use `rot_z(yaw)·rot_y(pitch)·rot_x(roll)` | roll = yaw = pi/2, pitch = 0 in radians: the matrix has a one in its bottom-left corner, so extraction reads pitch -pi/2 instead of 0 | "ZYX" composes `rot_z(yaw)·rot_y(pitch)·rot_x(roll)`, so that extraction inverts it (the test at tests/core/test_rotation_matrix.py:78-92 relies on this) | high; not executed | `Rotation.ZyxRoundTripFails` | `Rotation.IntendedRoundTrip` |
