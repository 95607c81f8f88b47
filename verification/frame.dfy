/** `CoordinateSystem`: a frame in space given by an origin and three
    normalised axis vectors, with its construction paths, its matrices, the
    transforms between global and local coordinates, and the operations that
    move it. The class mutates itself in place; here every operation returns
    the new frame. */
module CoordinateFrame {
  import opened LinAlg
  import opened Trig
  import opened Outcome
  import opened Rotation

  // ---------------------------------------------------------------------
  // Normalisation

  /** An axis shorter than this cannot be normalised. */
  const ZeroThreshold: real := 0.0000000001

  /** Two axes whose dot product exceeds this in magnitude draw the
      non-orthogonality warning. */
  const OrthogonalityTolerance: real := 0.000001

  /** `np.linalg.norm`: the Euclidean length. */
  function Norm(m: Math, v: Vec3): real {
    m.sqrt(Dot(v, v))
  }

  /** The length is the non-negative number whose square is the squared
      length. */
  lemma NormSquared(m: Math, v: Vec3)
    requires SqrtLaw(m)
    ensures Norm(m, v) >= 0.0 && Norm(m, v) * Norm(m, v) == Dot(v, v)
  {
    assert Dot(v, v) >= 0.0;
  }

  /** `_normalize_vector`: the vector divided by its length, or the zero
      vector error when the length is below the threshold. */
  function Normalize(m: Math, v: Vec3): (r: Result<Vec3>)
    ensures r.Failure? <==> Norm(m, v) < ZeroThreshold
    ensures r.Failure? ==> r.error == ZeroVector
    ensures r.Success? ==> Scale(Norm(m, v), r.value) == v
  {
    var n := Norm(m, v);
    if n < ZeroThreshold then Failure(ZeroVector) else Success(Div(v, n))
  }

  /** A product of two positive numbers is positive. */
  lemma ProductPositive(a: real, b: real)
    requires a > 0.0 && b > 0.0
    ensures Times(a, b) > 0.0
  {
  }

  /** For a length `s` and a positive bound `t`, comparing the lengths is
      comparing their squares. */
  lemma SquaresOrdered(s: real, t: real)
    requires s >= 0.0 && t > 0.0
    ensures s < t <==> s * s < t * t
  {
    if s < t {
      ProductPositive(t - s, t + s);
      assert (t - s) * (t + s) == t * t - s * s;
    } else if s > t {
      ProductPositive(s - t, s + t);
      assert (s - t) * (s + t) == s * s - t * t;
    }
  }

  /** If `n (a', b', c') = (a, b, c)` and `n` is the positive length of
      `(a, b, c)`, then `(a', b', c')` has squared length one. */
  lemma UnitQuotient(a: real, b: real, c: real, a': real, b': real, c': real, n: real)
    requires n > 0.0 && n * a' == a && n * b' == b && n * c' == c
    requires n * n == a * a + b * b + c * c
    ensures a' * a' + b' * b' + c' * c' == 1.0
  {
    var d := a' * a' + b' * b' + c' * c';
    var k := Times(n, n);
    assert a * a == k * (a' * a') by { assert a * a == (n * a') * (n * a'); }
    assert b * b == k * (b' * b') by { assert b * b == (n * b') * (n * b'); }
    assert c * c == k * (c' * c') by { assert c * c == (n * c') * (n * c'); }
    assert k * d == k * (a' * a') + k * (b' * b') + k * (c' * c');
    assert k * (d - 1.0) == 0.0;
    ProductPositive(n, n);
    if d > 1.0 {
      ProductPositive(k, d - 1.0);
    } else if d < 1.0 {
      ProductPositive(k, 1.0 - d);
    }
  }

  /** Normalisation fails exactly for the vectors whose squared length is
      below the square of the threshold; this no longer mentions the square
      root. */
  lemma NormalizeFailsIff(m: Math, v: Vec3)
    requires SqrtLaw(m)
    ensures Normalize(m, v).Failure? <==> Dot(v, v) < ZeroThreshold * ZeroThreshold
  {
    assert Dot(v, v) >= 0.0;
    SquaresOrdered(Norm(m, v), ZeroThreshold);
  }

  /** A normalised vector has length one. */
  lemma NormalizeUnit(m: Math, v: Vec3)
    requires SqrtLaw(m)
    ensures Normalize(m, v).Success? ==> Dot(Normalize(m, v).value, Normalize(m, v).value) == 1.0
  {
    if Normalize(m, v).Success? {
      assert Dot(v, v) >= 0.0;
      var u := Normalize(m, v).value;
      UnitQuotient(v.x, v.y, v.z, u.x, u.y, u.z, Norm(m, v));
    }
  }

  /** A vector of length one normalises to itself. */
  lemma NormalizeOfUnit(m: Math, v: Vec3)
    requires SqrtLaw(m) && Dot(v, v) == 1.0
    ensures Normalize(m, v) == Success(v)
  {
    SqrtOne(m);
  }

  /** Normalisation is idempotent. */
  lemma NormalizeIdempotent(m: Math, v: Vec3)
    requires SqrtLaw(m) && Normalize(m, v).Success?
    ensures Normalize(m, Normalize(m, v).value) == Normalize(m, v)
  {
    NormalizeUnit(m, v);
    NormalizeOfUnit(m, Normalize(m, v).value);
  }

  /** The zero vector cannot be normalised. */
  lemma ZeroVectorFails(m: Math)
    requires SqrtLaw(m)
    ensures Normalize(m, Zero) == Failure(ZeroVector)
  {
    NormalizeFailsIff(m, Zero);
  }

  // ---------------------------------------------------------------------
  // Frames and their construction

  /** A frame: its origin and its three axis vectors, in global
      coordinates. The getters of the class return copies of these fields. */
  datatype Frame = Frame(origin: Vec3, xAxis: Vec3, yAxis: Vec3, zAxis: Vec3)

  /** What a construction produces: the frame, and whether it printed the
      non-orthogonality warning. */
  datatype Built = Built(frame: Frame, warned: bool)

  /** The axes are unit length and pairwise perpendicular. */
  ghost predicate OrthonormalFrame(f: Frame) {
    Orthonormal(f.xAxis, f.yAxis, f.zAxis)
  }

  /** `_validate_orthogonality`: some pair of axes has a dot product
      beyond the tolerance in magnitude. */
  predicate Skewed(f: Frame, tol: real) {
    Abs(Dot(f.xAxis, f.yAxis)) > tol || Abs(Dot(f.yAxis, f.zAxis)) > tol || Abs(Dot(f.zAxis, f.xAxis)) > tol
  }

  /** Orthonormal axes never draw the warning, at any non-negative
      tolerance. */
  lemma OrthonormalNotSkewed(f: Frame, tol: real)
    requires tol >= 0.0 && OrthonormalFrame(f)
    ensures !Skewed(f, tol)
  {
  }

  /** The constructor: omitted arguments take the default origin and axes,
      each axis is normalised (x, then y, then z), and skewed axes only
      draw the warning. */
  function NewFrame(m: Math, origin: Option<Vec3>, xAxis: Option<Vec3>, yAxis: Option<Vec3>, zAxis: Option<Vec3>)
    : (r: Result<Built>)
    ensures r.Failure? ==> r.error == ZeroVector
    ensures r.Success? ==> r.value.frame.origin == origin.GetOr(Zero)
    ensures r.Success? ==> r.value.warned == Skewed(r.value.frame, OrthogonalityTolerance)
    ensures r.Success? ==> Scale(Norm(m, xAxis.GetOr(E1)), r.value.frame.xAxis) == xAxis.GetOr(E1)
    ensures r.Success? ==> Scale(Norm(m, yAxis.GetOr(E2)), r.value.frame.yAxis) == yAxis.GetOr(E2)
    ensures r.Success? ==> Scale(Norm(m, zAxis.GetOr(E3)), r.value.frame.zAxis) == zAxis.GetOr(E3)
  {
    var x :- Normalize(m, xAxis.GetOr(E1));
    var y :- Normalize(m, yAxis.GetOr(E2));
    var z :- Normalize(m, zAxis.GetOr(E3));
    var f := Frame(origin.GetOr(Zero), x, y, z);
    Success(Built(f, Skewed(f, OrthogonalityTolerance)))
  }

  /** Construction fails exactly when one of the axes it normalises has
      squared length below the square of the threshold. */
  lemma NewFrameFailsIff(m: Math, origin: Option<Vec3>, xAxis: Option<Vec3>, yAxis: Option<Vec3>, zAxis: Option<Vec3>)
    requires SqrtLaw(m)
    ensures NewFrame(m, origin, xAxis, yAxis, zAxis).Failure? <==>
            Dot(xAxis.GetOr(E1), xAxis.GetOr(E1)) < ZeroThreshold * ZeroThreshold ||
            Dot(yAxis.GetOr(E2), yAxis.GetOr(E2)) < ZeroThreshold * ZeroThreshold ||
            Dot(zAxis.GetOr(E3), zAxis.GetOr(E3)) < ZeroThreshold * ZeroThreshold
  {
    NormalizeFailsIff(m, xAxis.GetOr(E1));
    NormalizeFailsIff(m, yAxis.GetOr(E2));
    NormalizeFailsIff(m, zAxis.GetOr(E3));
  }

  /** Every axis of a constructed frame has length one. */
  lemma NewFrameUnitAxes(m: Math, origin: Option<Vec3>, xAxis: Option<Vec3>, yAxis: Option<Vec3>, zAxis: Option<Vec3>)
    requires SqrtLaw(m)
    ensures NewFrame(m, origin, xAxis, yAxis, zAxis).Success? ==>
            var f := NewFrame(m, origin, xAxis, yAxis, zAxis).value.frame;
            Dot(f.xAxis, f.xAxis) == 1.0 && Dot(f.yAxis, f.yAxis) == 1.0 && Dot(f.zAxis, f.zAxis) == 1.0
  {
    NormalizeUnit(m, xAxis.GetOr(E1));
    NormalizeUnit(m, yAxis.GetOr(E2));
    NormalizeUnit(m, zAxis.GetOr(E3));
  }

  /** Unit axes are kept as given, skewed or not; the warning reports the
      skew and nothing fails. */
  lemma UnitAxesKept(m: Math, o: Vec3, x: Vec3, y: Vec3, z: Vec3)
    requires SqrtLaw(m)
    requires Dot(x, x) == 1.0 && Dot(y, y) == 1.0 && Dot(z, z) == 1.0
    ensures NewFrame(m, Some(o), Some(x), Some(y), Some(z))
            == Success(Built(Frame(o, x, y, z), Skewed(Frame(o, x, y, z), OrthogonalityTolerance)))
  {
    NormalizeOfUnit(m, x);
    NormalizeOfUnit(m, y);
    NormalizeOfUnit(m, z);
  }

  /** Orthonormal axes are kept and draw no warning. */
  lemma OrthonormalAxesKept(m: Math, o: Vec3, x: Vec3, y: Vec3, z: Vec3)
    requires SqrtLaw(m) && Orthonormal(x, y, z)
    ensures NewFrame(m, Some(o), Some(x), Some(y), Some(z)) == Success(Built(Frame(o, x, y, z), false))
  {
    UnitAxesKept(m, o, x, y, z);
  }

  /** Construction reads each optional argument only through its default. */
  lemma ArgumentsThroughDefaults(m: Math, origin: Option<Vec3>, xAxis: Option<Vec3>, yAxis: Option<Vec3>, zAxis: Option<Vec3>)
    ensures NewFrame(m, origin, xAxis, yAxis, zAxis)
            == NewFrame(m, Some(origin.GetOr(Zero)), Some(xAxis.GetOr(E1)), Some(yAxis.GetOr(E2)), Some(zAxis.GetOr(E3)))
  {
    assert Some(origin.GetOr(Zero)).GetOr(Zero) == origin.GetOr(Zero);
    assert Some(xAxis.GetOr(E1)).GetOr(E1) == xAxis.GetOr(E1);
    assert Some(yAxis.GetOr(E2)).GetOr(E2) == yAxis.GetOr(E2);
    assert Some(zAxis.GetOr(E3)).GetOr(E3) == zAxis.GetOr(E3);
  }

  /** Omitting every argument is the same as passing the defaults. */
  lemma OmittedAreDefaults(m: Math)
    ensures NewFrame(m, None, None, None, None) == NewFrame(m, Some(Zero), Some(E1), Some(E2), Some(E3))
  {
    ArgumentsThroughDefaults(m, None, None, None, None);
  }

  /** With every argument omitted the frame is the world frame. */
  lemma DefaultFrame(m: Math)
    requires SqrtLaw(m)
    ensures NewFrame(m, None, None, None, None) == Success(Built(Frame(Zero, E1, E2, E3), false))
  {
    OmittedAreDefaults(m);
    BasisOrthonormal();
    OrthonormalAxesKept(m, Zero, E1, E2, E3);
  }

  // ---------------------------------------------------------------------
  // The frame's matrices

  /** `get_rotation_matrix`: the axes as columns. */
  function GetRotationMatrix(f: Frame): (r: Mat3)
    ensures Col(r, 0) == f.xAxis && Col(r, 1) == f.yAxis && Col(r, 2) == f.zAxis
  {
    TransposeTwice(Mat3(f.xAxis, f.yAxis, f.zAxis));
    FromColumns(f.xAxis, f.yAxis, f.zAxis)
  }

  /** The top-left 3x3 block of a 4x4 matrix. */
  function Block(t: Mat4): Mat3 {
    Mat3(Vec3(t.r0.a, t.r0.b, t.r0.c), Vec3(t.r1.a, t.r1.b, t.r1.c), Vec3(t.r2.a, t.r2.b, t.r2.c))
  }

  /** `get_transformation_matrix`: the homogeneous matrix with the rotation
      matrix top left, the origin in the last column and `[0, 0, 0, 1]` as
      the bottom row. */
  function GetTransformationMatrix(f: Frame): (t: Mat4)
    ensures Block(t) == GetRotationMatrix(f)
    ensures Vec3(t.r0.d, t.r1.d, t.r2.d) == f.origin
    ensures t.r3 == Vec4(0.0, 0.0, 0.0, 1.0)
  {
    var r := GetRotationMatrix(f);
    Mat4(Vec4(r.r0.x, r.r0.y, r.r0.z, f.origin.x),
         Vec4(r.r1.x, r.r1.y, r.r1.z, f.origin.y),
         Vec4(r.r2.x, r.r2.y, r.r2.z, f.origin.z),
         Vec4(0.0, 0.0, 0.0, 1.0))
  }

  /** The matrix-vector product `t @ p` in four dimensions. */
  function Apply(t: Mat4, p: Vec4): Vec4 {
    Vec4(t.r0.a * p.a + t.r0.b * p.b + t.r0.c * p.c + t.r0.d * p.d,
         t.r1.a * p.a + t.r1.b * p.b + t.r1.c * p.c + t.r1.d * p.d,
         t.r2.a * p.a + t.r2.b * p.b + t.r2.c * p.c + t.r2.d * p.d,
         t.r3.a * p.a + t.r3.b * p.b + t.r3.c * p.c + t.r3.d * p.d)
  }

  // ---------------------------------------------------------------------
  // Construction from a rotation matrix

  /** `from_rotation_matrix`: the shape check, then the constructor with
      the columns as axes. */
  function FromRotationMatrix(m: Math, origin: Vec3, r: MatrixArg): (res: Result<Built>)
    ensures r.OtherShape? ==> res == Failure(NotThreeByThree)
    ensures r.Square3? && res.Failure? ==> res.error == ZeroVector
    ensures res.Success? ==> res.value.frame.origin == origin
    ensures r.Square3? && res.Success? ==> Scale(Norm(m, Col(r.m, 0)), res.value.frame.xAxis) == Col(r.m, 0)
    ensures r.Square3? && res.Success? ==> Scale(Norm(m, Col(r.m, 1)), res.value.frame.yAxis) == Col(r.m, 1)
    ensures r.Square3? && res.Success? ==> Scale(Norm(m, Col(r.m, 2)), res.value.frame.zAxis) == Col(r.m, 2)
    ensures res.Success? ==> res.value.warned == Skewed(res.value.frame, OrthogonalityTolerance)
  {
    if r.OtherShape? then Failure(NotThreeByThree)
    else NewFrame(m, Some(origin), Some(Col(r.m, 0)), Some(Col(r.m, 1)), Some(Col(r.m, 2)))
  }

  /** A matrix is rebuilt from its columns. */
  lemma ColumnsRebuild(r: Mat3)
    ensures FromColumns(Col(r, 0), Col(r, 1), Col(r, 2)) == r
  {
    TransposeTwice(r);
  }

  /** A rotation matrix has orthonormal columns. */
  lemma RotationColumns(r: Mat3)
    requires IsRotation(r)
    ensures Orthonormal(Col(r, 0), Col(r, 1), Col(r, 2))
  {
    ColumnsRebuild(r);
    GramOfColumns(Col(r, 0), Col(r, 1), Col(r, 2));
  }

  /** A frame built from a rotation matrix takes its columns unchanged and
      without a warning, so its rotation matrix is the matrix it was built
      from. */
  lemma FromRotationMatrixRoundTrip(m: Math, o: Vec3, r: Mat3)
    requires SqrtLaw(m) && IsRotation(r)
    ensures FromRotationMatrix(m, o, Square3(r)) == Success(Built(Frame(o, Col(r, 0), Col(r, 1), Col(r, 2)), false))
    ensures GetRotationMatrix(FromRotationMatrix(m, o, Square3(r)).value.frame) == r
  {
    RotationColumns(r);
    OrthonormalAxesKept(m, o, Col(r, 0), Col(r, 1), Col(r, 2));
    ColumnsRebuild(r);
  }

  // ---------------------------------------------------------------------
  // Construction from Euler angles

  /** The matrix `from_euler_angles` writes out from the cosines and sines
      of roll, pitch and yaw. */
  function InlineEulerMatrix(cr: real, sr: real, cp: real, sp: real, cy: real, sy: real): Mat3 {
    Mat3(Vec3(cy * cp, cy * sp * sr - sy * cr, cy * sp * cr + sy * sr),
         Vec3(sy * cp, sy * sp * sr + cy * cr, sy * sp * cr - cy * sr),
         Vec3(-sp, cp * sr, cp * cr))
  }

  /** With two of the three angles zero, the written-out matrix is the
      elementary rotation by the third. */
  lemma InlineReductions(cr: real, sr: real, cp: real, sp: real, cy: real, sy: real)
    ensures sr == 0.0 && cr == 1.0 && sp == 0.0 && cp == 1.0 ==> InlineEulerMatrix(cr, sr, cp, sp, cy, sy) == AboutZ(cy, sy)
    ensures sr == 0.0 && cr == 1.0 && sy == 0.0 && cy == 1.0 ==> InlineEulerMatrix(cr, sr, cp, sp, cy, sy) == AboutY(cp, sp)
    ensures sp == 0.0 && cp == 1.0 && sy == 0.0 && cy == 1.0 ==> InlineEulerMatrix(cr, sr, cp, sp, cy, sy) == AboutX(cr, sr)
  {
  }

  /** The written-out matrix is the product `rot_z(yaw)·rot_y(pitch)·rot_x(roll)`. */
  lemma InlineIsProduct(cr: real, sr: real, cp: real, sp: real, cy: real, sy: real)
    ensures InlineEulerMatrix(cr, sr, cp, sp, cy, sy) == Mul(Mul(AboutZ(cy, sy), AboutY(cp, sp)), AboutX(cr, sr))
  {
  }

  /** `from_euler_angles`: the unit conversion, the written-out matrix,
      then construction from that matrix. */
  function FromEulerAngles(m: Math, origin: Vec3, roll: real, pitch: real, yaw: real, unit: string): (res: Result<Built>)
    ensures res.Failure? ==> res.error == ZeroVector
    ensures res.Success? ==> res.value.frame.origin == origin
  {
    var a := InRadians(m, unit, Angles(roll, pitch, yaw));
    var r := InlineEulerMatrix(m.cos(a.roll), m.sin(a.roll), m.cos(a.pitch), m.sin(a.pitch), m.cos(a.yaw), m.sin(a.yaw));
    FromRotationMatrix(m, origin, Square3(r))
  }

  /** The matrix behind `from_euler_angles` is the corrected "ZYX"
      composition. */
  lemma InlineIsIntended(m: Math, a: Angles)
    ensures InlineEulerMatrix(m.cos(a.roll), m.sin(a.roll), m.cos(a.pitch), m.sin(a.pitch), m.cos(a.yaw), m.sin(a.yaw))
            == ComposeIntended(m, "ZYX", a).value
  {
    InlineIsProduct(m.cos(a.roll), m.sin(a.roll), m.cos(a.pitch), m.sin(a.pitch), m.cos(a.yaw), m.sin(a.yaw));
  }

  /** A frame built from Euler angles never fails and never warns, and its
      rotation matrix is the corrected "ZYX" composition of the angles. */
  lemma FromEulerAnglesIsIntended(m: Math, o: Vec3, roll: real, pitch: real, yaw: real, unit: string)
    requires Pythagorean(m) && SqrtLaw(m)
    ensures FromEulerAngles(m, o, roll, pitch, yaw, unit).Success?
    ensures !FromEulerAngles(m, o, roll, pitch, yaw, unit).value.warned
    ensures IsRotation(GetRotationMatrix(FromEulerAngles(m, o, roll, pitch, yaw, unit).value.frame))
    ensures GetRotationMatrix(FromEulerAngles(m, o, roll, pitch, yaw, unit).value.frame)
            == EulerToRotationMatrixIntended(m, roll, pitch, yaw, "ZYX", unit).value
  {
    var a := InRadians(m, unit, Angles(roll, pitch, yaw));
    InlineIsIntended(m, a);
    XyzIsRotation(m, a);
    FromRotationMatrixRoundTrip(m, o, ComposeIntended(m, "ZYX", a).value);
  }

  /** So the extraction recovers the angles of a frame built from Euler
      angles away from gimbal lock, in either unit. */
  lemma FromEulerAnglesRecoverable(m: Math, o: Vec3, a: Angles, unit: string)
    requires Pythagorean(m) && SqrtLaw(m) && InverseLaws(m) && Recoverable(m, InRadians(m, unit, a))
    ensures FromEulerAngles(m, o, a.roll, a.pitch, a.yaw, unit).Success?
    ensures RotationMatrixToEuler(m, Square3(GetRotationMatrix(FromEulerAngles(m, o, a.roll, a.pitch, a.yaw, unit).value.frame)), "ZYX", unit)
            == Success(a)
  {
    FromEulerAnglesIsIntended(m, o, a.roll, a.pitch, a.yaw, unit);
    IntendedRoundTrip(m, a, unit);
  }

  /** The columns of a rotation about z. */
  lemma AboutZColumns(c: real, s: real)
    ensures Col(AboutZ(c, s), 0) == Vec3(c, s, 0.0)
    ensures Col(AboutZ(c, s), 1) == Vec3(-s, c, 0.0)
    ensures Col(AboutZ(c, s), 2) == E3
  {
  }

  /** The quarter turn `[[0, -1, 0], [1, 0, 0], [0, 0, 1]]` about z gives
      the frame with x along the global y axis and y along the negative
      global x axis. */
  lemma FromRotationMatrixQuarterTurn(m: Math, o: Vec3)
    requires SqrtLaw(m)
    ensures FromRotationMatrix(m, o, Square3(AboutZ(0.0, 1.0)))
            == Success(Built(Frame(o, E2, Vec3(-1.0, 0.0, 0.0), E3), false))
  {
    AboutZIsRotation(0.0, 1.0);
    FromRotationMatrixRoundTrip(m, o, AboutZ(0.0, 1.0));
    AboutZColumns(0.0, 1.0);
  }

  /** With roll and pitch zero the written-out matrix is the rotation
      about z by the yaw. */
  lemma YawOnlyInline(cy: real, sy: real)
    ensures InlineEulerMatrix(1.0, 0.0, 1.0, 0.0, cy, sy) == AboutZ(cy, sy)
  {
  }

  /** A yaw alone, in radians, builds the frame of the rotation about z. */
  lemma FromEulerAnglesYawOnly(m: Math, o: Vec3, yaw: real)
    requires SpecialValues(m)
    ensures FromEulerAngles(m, o, 0.0, 0.0, yaw, "rad") == FromRotationMatrix(m, o, Square3(AboutZ(m.cos(yaw), m.sin(yaw))))
  {
    YawOnlyInline(m.cos(yaw), m.sin(yaw));
  }

  /** A yaw of ninety degrees alone is the quarter turn about z. */
  lemma FromEulerAnglesQuarterTurn(m: Math, o: Vec3)
    requires SpecialValues(m) && SqrtLaw(m)
    ensures FromEulerAngles(m, o, 0.0, 0.0, 90.0, "deg") == Success(Built(Frame(o, E2, Vec3(-1.0, 0.0, 0.0), E3), false))
  {
    var a := InRadians(m, "deg", Angles(0.0, 0.0, 90.0));
    assert a.roll == 0.0 && a.pitch == 0.0 && a.yaw == m.pi / 2.0;
    assert FromEulerAngles(m, o, 0.0, 0.0, 90.0, "deg") == FromEulerAngles(m, o, 0.0, 0.0, m.pi / 2.0, "rad");
    FromEulerAnglesYawOnly(m, o, m.pi / 2.0);
    FromRotationMatrixQuarterTurn(m, o);
  }

  // ---------------------------------------------------------------------
  // Transforms between global and local coordinates

  /** `transform_vector_to_local`: the components along the three axes,
      which is the transposed rotation matrix applied to the vector. */
  function VectorToLocal(f: Frame, v: Vec3): (l: Vec3)
    ensures l == MulVec(Transpose(GetRotationMatrix(f)), v)
  {
    TransposeTwice(Mat3(f.xAxis, f.yAxis, f.zAxis));
    Vec3(Dot(v, f.xAxis), Dot(v, f.yAxis), Dot(v, f.zAxis))
  }

  /** `transform_vector_to_global`: the axes weighted by the local
      components, which is the rotation matrix applied to the vector. */
  function VectorToGlobal(f: Frame, l: Vec3): (v: Vec3)
    ensures v == MulVec(GetRotationMatrix(f), l)
  {
    Add(Add(Scale(l.x, f.xAxis), Scale(l.y, f.yAxis)), Scale(l.z, f.zAxis))
  }

  /** `transform_point_to_local`: the offset from the origin, projected on
      the axes, which is the vector transform of that offset. */
  function PointToLocal(f: Frame, p: Vec3): (l: Vec3)
    ensures l == VectorToLocal(f, Sub(p, f.origin))
  {
    var d := Sub(p, f.origin);
    Vec3(Dot(d, f.xAxis), Dot(d, f.yAxis), Dot(d, f.zAxis))
  }

  /** `transform_point_to_global`: the origin plus the weighted axes,
      which is the origin plus the vector transform. */
  function PointToGlobal(f: Frame, l: Vec3): (p: Vec3)
    ensures p == Add(f.origin, VectorToGlobal(f, l))
  {
    Add(Add(Add(f.origin, Scale(l.x, f.xAxis)), Scale(l.y, f.yAxis)), Scale(l.z, f.zAxis))
  }

  /** The rotation matrix of an orthonormal frame is a rotation-like
      matrix: orthonormal columns and rows. */
  lemma FrameMatrixOrthogonal(f: Frame)
    requires OrthonormalFrame(f)
    ensures OrthonormalColumns(GetRotationMatrix(f)) && OrthonormalRows(GetRotationMatrix(f))
  {
    GramOfColumns(f.xAxis, f.yAxis, f.zAxis);
    ColumnsToRows(GetRotationMatrix(f));
  }

  /** For an orthonormal frame, going to local coordinates and back gives
      the vector again. */
  lemma VectorLocalGlobal(f: Frame, v: Vec3)
    requires OrthonormalFrame(f)
    ensures VectorToGlobal(f, VectorToLocal(f, v)) == v
  {
    var r := GetRotationMatrix(f);
    FrameMatrixOrthogonal(f);
    MulVecAssoc(r, Transpose(r), v);
    MulVecIdentity(v);
  }

  /** And going to global coordinates and back gives the local vector. */
  lemma VectorGlobalLocal(f: Frame, l: Vec3)
    requires OrthonormalFrame(f)
    ensures VectorToLocal(f, VectorToGlobal(f, l)) == l
  {
    var r := GetRotationMatrix(f);
    FrameMatrixOrthogonal(f);
    MulVecAssoc(Transpose(r), r, l);
    MulVecIdentity(l);
  }

  /** The same two round trips for points. */
  lemma PointLocalGlobal(f: Frame, p: Vec3)
    requires OrthonormalFrame(f)
    ensures PointToGlobal(f, PointToLocal(f, p)) == p
  {
    VectorLocalGlobal(f, Sub(p, f.origin));
  }

  lemma PointGlobalLocal(f: Frame, l: Vec3)
    requires OrthonormalFrame(f)
    ensures PointToLocal(f, PointToGlobal(f, l)) == l
  {
    VectorGlobalLocal(f, l);
  }

  /** The homogeneous matrix maps local points to global points. */
  lemma TransformationMapsPoints(f: Frame, l: Vec3)
    ensures Apply(GetTransformationMatrix(f), Vec4(l.x, l.y, l.z, 1.0))
            == Vec4(PointToGlobal(f, l).x, PointToGlobal(f, l).y, PointToGlobal(f, l).z, 1.0)
  {
    MulVecParts(GetRotationMatrix(f), l);
  }

  /** In a frame turned about z, with x axis `(c, s, 0)` and y axis
      `(-s, c, 0)`, the local coordinates of a point are its offset from
      the origin turned back about z. */
  lemma TurnedAboutZLocal(f: Frame, c: real, s: real, p: Vec3)
    requires f.xAxis == Vec3(c, s, 0.0) && f.yAxis == Vec3(-s, c, 0.0) && f.zAxis == E3
    ensures PointToLocal(f, p)
            == Vec3(Times(c, p.x - f.origin.x) + Times(s, p.y - f.origin.y),
                    Times(c, p.y - f.origin.y) - Times(s, p.x - f.origin.x),
                    p.z - f.origin.z)
    ensures VectorToLocal(f, p) == Vec3(Times(c, p.x) + Times(s, p.y), Times(c, p.y) - Times(s, p.x), p.z)
  {
  }

  /** The frame at `(0, 1, 0)` turned a quarter about z sends the global
      point `(1, 0, 0)` to local `(-1, -1, 0)`. The frame is the one
      `FromEulerAnglesQuarterTurn` builds, axes `(0, 1, 0)`, `(-1, 0, 0)`
      and `(0, 0, 1)`; the cosine and sine of the turn are passed as `c` and
      `s` and the vectors componentwise so that the proof works on scalars. */
  lemma QuarterTurnPoint(f: Frame, p: Vec3, c: real, s: real)
    requires c == 0.0 && s == 1.0
    requires f.xAxis == Vec3(c, s, 0.0) && f.yAxis == Vec3(-s, c, 0.0) && f.zAxis == E3
    requires f.origin.x == 0.0 && f.origin.y == 1.0 && f.origin.z == 0.0
    requires p.x == 1.0 && p.y == 0.0 && p.z == 0.0
    ensures PointToLocal(f, p).x == -1.0 && PointToLocal(f, p).y == -1.0 && PointToLocal(f, p).z == 0.0
  {
    TurnedAboutZLocal(f, c, s, p);
  }

  /** The same turn sends the global vector `(1, 0, 0)` to local
      `(0, -1, 0)`, wherever the origin is. The axes are again those
      `FromEulerAnglesQuarterTurn` builds. */
  lemma QuarterTurnVector(f: Frame, v: Vec3, c: real, s: real)
    requires c == 0.0 && s == 1.0
    requires f.xAxis == Vec3(c, s, 0.0) && f.yAxis == Vec3(-s, c, 0.0) && f.zAxis == E3
    requires v.x == 1.0 && v.y == 0.0 && v.z == 0.0
    ensures VectorToLocal(f, v).x == 0.0 && VectorToLocal(f, v).y == -1.0 && VectorToLocal(f, v).z == 0.0
  {
    TurnedAboutZLocal(f, c, s, v);
  }

  /** The two examples above, on the frame `from_euler_angles` builds at
      origin `(0, 1, 0)` with a yaw of 90 degrees. */
  lemma QuarterTurnFromEuler(m: Math, o: Vec3, p: Vec3)
    requires SpecialValues(m) && SqrtLaw(m)
    requires o.x == 0.0 && o.y == 1.0 && o.z == 0.0
    requires p.x == 1.0 && p.y == 0.0 && p.z == 0.0
    ensures FromEulerAngles(m, o, 0.0, 0.0, 90.0, "deg").Success?
    ensures var f := FromEulerAngles(m, o, 0.0, 0.0, 90.0, "deg").value.frame;
            PointToLocal(f, p).x == -1.0 && PointToLocal(f, p).y == -1.0 && PointToLocal(f, p).z == 0.0
    ensures var f := FromEulerAngles(m, o, 0.0, 0.0, 90.0, "deg").value.frame;
            VectorToLocal(f, p).x == 0.0 && VectorToLocal(f, p).y == -1.0 && VectorToLocal(f, p).z == 0.0
  {
    FromEulerAnglesQuarterTurn(m, o);
    var f := FromEulerAngles(m, o, 0.0, 0.0, 90.0, "deg").value.frame;
    QuarterTurnPoint(f, p, 0.0, 1.0);
    QuarterTurnVector(f, p, 0.0, 1.0);
  }

  // ---------------------------------------------------------------------
  // Moving the frame

  /** What a mutator leaves behind: the frame after the call, and the
      error it raised, if any. An error can follow a partial update. */
  datatype Mutation = Mutation(after: Frame, error: Option<Error>)

  /** `set_origin`: the origin is replaced; the axes stay. */
  function SetOrigin(f: Frame, o: Vec3): (g: Frame)
    ensures g.origin == o
    ensures g.xAxis == f.xAxis && g.yAxis == f.yAxis && g.zAxis == f.zAxis
  {
    f.(origin := o)
  }

  /** Setting the origin twice keeps only the second, and never changes
      the frame's rotation matrix. */
  lemma SetOriginLastWins(f: Frame, a: Vec3, b: Vec3)
    ensures SetOrigin(SetOrigin(f, a), b) == SetOrigin(f, b)
    ensures GetRotationMatrix(SetOrigin(f, a)) == GetRotationMatrix(f)
  {
  }

  /** `translate`: the origin moves by the offset; the axes stay. */
  function Translate(f: Frame, d: Vec3): (g: Frame)
    ensures g == SetOrigin(f, Add(f.origin, d))
  {
    f.(origin := Add(f.origin, d))
  }

  /** Two translations are one by the sum of the offsets. */
  lemma TranslateTwice(f: Frame, d: Vec3, e: Vec3)
    ensures Translate(Translate(f, d), e) == Translate(f, Add(d, e))
  {
  }

  /** Translating frame and point together leaves the local coordinates
      unchanged, and directions are not affected at all. */
  lemma TranslationInvariance(f: Frame, d: Vec3, p: Vec3, v: Vec3)
    ensures PointToLocal(Translate(f, d), Add(p, d)) == PointToLocal(f, p)
    ensures VectorToLocal(Translate(f, d), v) == VectorToLocal(f, v)
  {
    assert Sub(Add(p, d), Add(f.origin, d)) == Sub(p, f.origin);
  }

  /** `rotate`: the shape check, then each axis replaced by the matrix
      applied to it, then the axes normalised x, y, z in turn. A
      normalisation that fails raises with the earlier axes already
      normalised and the later ones rotated but not normalised. */
  function Rotate(m: Math, f: Frame, r: MatrixArg): (res: Mutation)
    ensures r.OtherShape? ==> res == Mutation(f, Some(NotThreeByThree))
    ensures res.after.origin == f.origin
    ensures res.error.Some? ==> res.error == Some(NotThreeByThree) || res.error == Some(ZeroVector)
    ensures r.Square3? && res.error.None? ==>
              Scale(Norm(m, MulVec(r.m, f.xAxis)), res.after.xAxis) == MulVec(r.m, f.xAxis) &&
              Scale(Norm(m, MulVec(r.m, f.yAxis)), res.after.yAxis) == MulVec(r.m, f.yAxis) &&
              Scale(Norm(m, MulVec(r.m, f.zAxis)), res.after.zAxis) == MulVec(r.m, f.zAxis)
    // A rotated x axis that is too short: all three axes stay rotated, none normalised.
    ensures r.Square3? && Norm(m, MulVec(r.m, f.xAxis)) < ZeroThreshold ==>
              res == Mutation(Frame(f.origin, MulVec(r.m, f.xAxis), MulVec(r.m, f.yAxis), MulVec(r.m, f.zAxis)), Some(ZeroVector))
    // Otherwise x is normalised, whatever happens to y and z.
    ensures r.Square3? && Norm(m, MulVec(r.m, f.xAxis)) >= ZeroThreshold ==>
              Scale(Norm(m, MulVec(r.m, f.xAxis)), res.after.xAxis) == MulVec(r.m, f.xAxis)
    // A rotated y axis that is too short after x succeeded: y and z stay rotated.
    ensures r.Square3? && Norm(m, MulVec(r.m, f.xAxis)) >= ZeroThreshold && Norm(m, MulVec(r.m, f.yAxis)) < ZeroThreshold ==>
              res.error == Some(ZeroVector) && res.after.yAxis == MulVec(r.m, f.yAxis)
    ensures r.Square3? && Norm(m, MulVec(r.m, f.xAxis)) >= ZeroThreshold && Norm(m, MulVec(r.m, f.yAxis)) >= ZeroThreshold ==>
              Scale(Norm(m, MulVec(r.m, f.yAxis)), res.after.yAxis) == MulVec(r.m, f.yAxis)
    // A rotated z axis that is too short after x and y succeeded.
    ensures r.Square3? && Norm(m, MulVec(r.m, f.xAxis)) >= ZeroThreshold && Norm(m, MulVec(r.m, f.yAxis)) >= ZeroThreshold
            && Norm(m, MulVec(r.m, f.zAxis)) < ZeroThreshold ==>
              res.error == Some(ZeroVector)
    // On every failure the z axis is left rotated but not normalised.
    ensures r.Square3? && res.error.Some? ==> res.after.zAxis == MulVec(r.m, f.zAxis)
  {
    if r.OtherShape? then Mutation(f, Some(NotThreeByThree))
    else
      var rotated := Frame(f.origin, MulVec(r.m, f.xAxis), MulVec(r.m, f.yAxis), MulVec(r.m, f.zAxis));
      match Normalize(m, rotated.xAxis)
      case Failure(e) => Mutation(rotated, Some(e))
      case Success(x) =>
        match Normalize(m, rotated.yAxis)
        case Failure(e) => Mutation(rotated.(xAxis := x), Some(e))
        case Success(y) =>
          match Normalize(m, rotated.zAxis)
          case Failure(e) => Mutation(rotated.(xAxis := x, yAxis := y), Some(e))
          case Success(z) => Mutation(Frame(f.origin, x, y, z), None)
  }

  /** A rotation keeps dot products. */
  lemma RotationKeepsDot(r: Mat3, u: Vec3, v: Vec3)
    requires OrthonormalColumns(r)
    ensures Dot(MulVec(r, u), MulVec(r, v)) == Dot(u, v)
  {
    DotMulVec(MulVec(r, u), r, v);
    MulVecAssoc(Transpose(r), r, u);
    MulVecIdentity(u);
  }

  /** A rotation keeps an orthonormal triple orthonormal. */
  lemma RotationKeepsOrthonormal(r: Mat3, u: Vec3, v: Vec3, w: Vec3)
    requires OrthonormalColumns(r) && Orthonormal(u, v, w)
    ensures Orthonormal(MulVec(r, u), MulVec(r, v), MulVec(r, w))
  {
    RotationKeepsDot(r, u, u);
    RotationKeepsDot(r, v, v);
    RotationKeepsDot(r, w, w);
    RotationKeepsDot(r, u, v);
    RotationKeepsDot(r, v, w);
    RotationKeepsDot(r, w, u);
  }

  /** Rotating an orthonormal frame by a rotation raises nothing, turns
      each axis by the matrix, keeps the frame orthonormal, and
      premultiplies the frame's rotation matrix. */
  lemma RotateRigid(m: Math, f: Frame, r: Mat3)
    requires SqrtLaw(m) && OrthonormalFrame(f) && IsRotation(r)
    ensures Rotate(m, f, Square3(r)) == Mutation(Frame(f.origin, MulVec(r, f.xAxis), MulVec(r, f.yAxis), MulVec(r, f.zAxis)), None)
    ensures OrthonormalFrame(Rotate(m, f, Square3(r)).after)
    ensures GetRotationMatrix(Rotate(m, f, Square3(r)).after) == Mul(r, GetRotationMatrix(f))
  {
    RotationKeepsOrthonormal(r, f.xAxis, f.yAxis, f.zAxis);
    NormalizeOfUnit(m, MulVec(r, f.xAxis));
    NormalizeOfUnit(m, MulVec(r, f.yAxis));
    NormalizeOfUnit(m, MulVec(r, f.zAxis));
    MulFromColumns(r, f.xAxis, f.yAxis, f.zAxis);
  }

  /** `rotate` raises on a 3x3 matrix exactly when one of the rotated
      axes has squared length below the square of the threshold. */
  lemma RotateFailsIff(m: Math, f: Frame, r: Mat3)
    requires SqrtLaw(m)
    ensures Rotate(m, f, Square3(r)).error.Some? <==>
            Dot(MulVec(r, f.xAxis), MulVec(r, f.xAxis)) < ZeroThreshold * ZeroThreshold ||
            Dot(MulVec(r, f.yAxis), MulVec(r, f.yAxis)) < ZeroThreshold * ZeroThreshold ||
            Dot(MulVec(r, f.zAxis), MulVec(r, f.zAxis)) < ZeroThreshold * ZeroThreshold
  {
    NormalizeFailsIff(m, MulVec(r, f.xAxis));
    NormalizeFailsIff(m, MulVec(r, f.yAxis));
    NormalizeFailsIff(m, MulVec(r, f.zAxis));
  }

  /** When the rotated x axis is too short, `rotate` raises before
      normalising anything: all three axes are left rotated. */
  lemma RotateStopsAtX(m: Math, f: Frame, r: Mat3)
    requires SqrtLaw(m)
    requires Dot(MulVec(r, f.xAxis), MulVec(r, f.xAxis)) < ZeroThreshold * ZeroThreshold
    ensures Rotate(m, f, Square3(r))
            == Mutation(Frame(f.origin, MulVec(r, f.xAxis), MulVec(r, f.yAxis), MulVec(r, f.zAxis)), Some(ZeroVector))
  {
    NormalizeFailsIff(m, MulVec(r, f.xAxis));
  }

  /** When the rotated x axis can be normalised but the rotated y axis
      cannot, `rotate` raises with x normalised to unit length and y and z
      left rotated but not normalised. */
  lemma RotateStopsAtY(m: Math, f: Frame, r: Mat3)
    requires SqrtLaw(m)
    requires Dot(MulVec(r, f.xAxis), MulVec(r, f.xAxis)) >= ZeroThreshold * ZeroThreshold
    requires Dot(MulVec(r, f.yAxis), MulVec(r, f.yAxis)) < ZeroThreshold * ZeroThreshold
    ensures Rotate(m, f, Square3(r)).error == Some(ZeroVector)
    ensures Dot(Rotate(m, f, Square3(r)).after.xAxis, Rotate(m, f, Square3(r)).after.xAxis) == 1.0
    ensures Rotate(m, f, Square3(r)).after.yAxis == MulVec(r, f.yAxis)
    ensures Rotate(m, f, Square3(r)).after.zAxis == MulVec(r, f.zAxis)
  {
    NormalizeFailsIff(m, MulVec(r, f.xAxis));
    NormalizeFailsIff(m, MulVec(r, f.yAxis));
    NormalizeUnit(m, MulVec(r, f.xAxis));
  }

  /** When only the rotated z axis is too short, `rotate` raises with x and
      y normalised to unit length and z left rotated but not normalised. */
  lemma RotateStopsAtZ(m: Math, f: Frame, r: Mat3)
    requires SqrtLaw(m)
    requires Dot(MulVec(r, f.xAxis), MulVec(r, f.xAxis)) >= ZeroThreshold * ZeroThreshold
    requires Dot(MulVec(r, f.yAxis), MulVec(r, f.yAxis)) >= ZeroThreshold * ZeroThreshold
    requires Dot(MulVec(r, f.zAxis), MulVec(r, f.zAxis)) < ZeroThreshold * ZeroThreshold
    ensures Rotate(m, f, Square3(r)).error == Some(ZeroVector)
    ensures Dot(Rotate(m, f, Square3(r)).after.xAxis, Rotate(m, f, Square3(r)).after.xAxis) == 1.0
    ensures Dot(Rotate(m, f, Square3(r)).after.yAxis, Rotate(m, f, Square3(r)).after.yAxis) == 1.0
    ensures Rotate(m, f, Square3(r)).after.zAxis == MulVec(r, f.zAxis)
  {
    NormalizeFailsIff(m, MulVec(r, f.xAxis));
    NormalizeFailsIff(m, MulVec(r, f.yAxis));
    NormalizeFailsIff(m, MulVec(r, f.zAxis));
    NormalizeUnit(m, MulVec(r, f.xAxis));
    NormalizeUnit(m, MulVec(r, f.yAxis));
  }
}
