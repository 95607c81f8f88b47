/** The rotation utilities: the elementary rotations about the coordinate
    axes, Euler angles to and from a rotation matrix, and the numerical test
    for being a rotation matrix. */
module Rotation {
  import opened LinAlg
  import opened Trig
  import opened Outcome

  /** A matrix argument as numpy receives it: a 3x3 array, or an array of
      some other shape. */
  datatype MatrixArg = Square3(m: Mat3) | OtherShape

  /** The rotation about the x axis whose angle has cosine `c` and sine `s`. */
  function AboutX(c: real, s: real): Mat3 {
    Mat3(E1, Vec3(0.0, c, -s), Vec3(0.0, s, c))
  }

  /** The rotation about the y axis whose angle has cosine `c` and sine `s`. */
  function AboutY(c: real, s: real): Mat3 {
    Mat3(Vec3(c, 0.0, s), E2, Vec3(-s, 0.0, c))
  }

  /** The rotation about the z axis whose angle has cosine `c` and sine `s`. */
  function AboutZ(c: real, s: real): Mat3 {
    Mat3(Vec3(c, -s, 0.0), Vec3(s, c, 0.0), E3)
  }

  /** Rotation by `theta` radians about the x axis: the x axis is
      fixed (its row and column are those of the identity), the other two
      axes turn in their plane with y moving towards z (the right-hand
      rule: the sine sits below the diagonal), and the trace is
      `1 + 2 cos theta`. */
  function RotX(m: Math, theta: real): (r: Mat3)
    ensures r.r0 == E1 && r.r1.x == 0.0 && r.r2.x == 0.0
    ensures r.r1.y == r.r2.z && r.r2.y == -r.r1.z
    ensures r.r2.y == m.sin(theta)
    ensures r.r0.x + r.r1.y + r.r2.z == 1.0 + 2.0 * m.cos(theta)
  {
    AboutX(m.cos(theta), m.sin(theta))
  }

  /** Rotation by `theta` radians about the y axis: the y axis is
      fixed (its row and column are those of the identity), the other two
      axes turn in their plane with z moving towards x (the sine sits at
      the top right), and the trace is `1 + 2 cos theta`. */
  function RotY(m: Math, theta: real): (r: Mat3)
    ensures r.r1 == E2 && r.r0.y == 0.0 && r.r2.y == 0.0
    ensures r.r0.x == r.r2.z && r.r0.z == -r.r2.x
    ensures r.r0.z == m.sin(theta)
    ensures r.r0.x + r.r1.y + r.r2.z == 1.0 + 2.0 * m.cos(theta)
  {
    AboutY(m.cos(theta), m.sin(theta))
  }

  /** Rotation by `theta` radians about the z axis: the z axis is
      fixed (its row and column are those of the identity), the other two
      axes turn in their plane with x moving towards y (the sine sits below
      the diagonal), and the trace is `1 + 2 cos theta`. */
  function RotZ(m: Math, theta: real): (r: Mat3)
    ensures r.r2 == E3 && r.r0.z == 0.0 && r.r1.z == 0.0
    ensures r.r0.x == r.r1.y && r.r1.x == -r.r0.y
    ensures r.r1.x == m.sin(theta)
    ensures r.r0.x + r.r1.y + r.r2.z == 1.0 + 2.0 * m.cos(theta)
  {
    AboutZ(m.cos(theta), m.sin(theta))
  }

  /** The right-hand rule: a positive angle turns y towards z about x,
      z towards x about y, and x towards y about z. */
  lemma RightHandRule(m: Math, theta: real)
    ensures MulVec(RotX(m, theta), E2) == Vec3(0.0, m.cos(theta), m.sin(theta))
    ensures MulVec(RotY(m, theta), E3) == Vec3(m.sin(theta), 0.0, m.cos(theta))
    ensures MulVec(RotZ(m, theta), E1) == Vec3(m.cos(theta), m.sin(theta), 0.0)
  {
  }

  /** The quarter turn about x: `[[1, 0, 0], [0, 0, -1], [0, 1, 0]]`. */
  lemma QuarterTurnX(m: Math)
    requires SpecialValues(m)
    ensures RotX(m, m.pi / 2.0) == Mat3(E1, Vec3(0.0, 0.0, -1.0), Vec3(0.0, 1.0, 0.0))
  {
  }

  /** The quarter turn about y: `[[0, 0, 1], [0, 1, 0], [-1, 0, 0]]`. */
  lemma QuarterTurnY(m: Math)
    requires SpecialValues(m)
    ensures RotY(m, m.pi / 2.0) == Mat3(Vec3(0.0, 0.0, 1.0), E2, Vec3(-1.0, 0.0, 0.0))
  {
  }

  /** The quarter turn about z: `[[0, -1, 0], [1, 0, 0], [0, 0, 1]]`. */
  lemma QuarterTurnZ(m: Math)
    requires SpecialValues(m)
    ensures RotZ(m, m.pi / 2.0) == Mat3(Vec3(0.0, -1.0, 0.0), Vec3(1.0, 0.0, 0.0), E3)
  {
  }

  /** A rotation by zero about any axis is the identity. */
  lemma RotationsAtZero(m: Math)
    requires SpecialValues(m)
    ensures RotX(m, 0.0) == Identity
    ensures RotY(m, 0.0) == Identity
    ensures RotZ(m, 0.0) == Identity
  {
  }

  /** A matrix given by orthonormal columns with determinant one is a
      rotation. */
  lemma RotationFromColumnVectors(u: Vec3, v: Vec3, w: Vec3)
    requires Orthonormal(u, v, w)
    requires Det(FromColumns(u, v, w)) == 1.0
    ensures IsRotation(FromColumns(u, v, w))
  {
    GramOfColumns(u, v, w);
    RotationFromColumns(FromColumns(u, v, w));
  }

  // The columns and determinants of the three elementary rotations, for a
  // cosine `c` and sine `s` with `c² + s² = 1`.

  lemma PlaneDots(c: real, s: real)
    requires Times(c, c) + Times(s, s) == 1.0
    ensures Dot(Vec3(0.0, c, s), Vec3(0.0, c, s)) == 1.0
    ensures Dot(Vec3(0.0, -s, c), Vec3(0.0, -s, c)) == 1.0
    ensures Dot(Vec3(0.0, c, s), Vec3(0.0, -s, c)) == 0.0
    ensures Dot(E1, Vec3(0.0, c, s)) == 0.0
    ensures Dot(Vec3(0.0, -s, c), E1) == 0.0
  {
  }

  lemma UnitBasis()
    ensures Dot(E1, E1) == 1.0 && Dot(E2, E2) == 1.0 && Dot(E3, E3) == 1.0
  {
  }

  lemma XColumns(c: real, s: real)
    requires Times(c, c) + Times(s, s) == 1.0
    ensures Orthonormal(E1, Vec3(0.0, c, s), Vec3(0.0, -s, c))
  {
    PlaneDots(c, s);
    UnitBasis();
  }

  lemma YColumns(c: real, s: real)
    requires Times(c, c) + Times(s, s) == 1.0
    ensures Orthonormal(Vec3(c, 0.0, -s), E2, Vec3(s, 0.0, c))
  {
    SideDots(c, s);
    UnitBasis();
  }

  lemma SideDots(c: real, s: real)
    requires Times(c, c) + Times(s, s) == 1.0
    ensures Dot(Vec3(c, 0.0, -s), Vec3(c, 0.0, -s)) == 1.0
    ensures Dot(Vec3(s, 0.0, c), Vec3(s, 0.0, c)) == 1.0
    ensures Dot(Vec3(s, 0.0, c), Vec3(c, 0.0, -s)) == 0.0
    ensures Dot(Vec3(c, 0.0, -s), E2) == 0.0
    ensures Dot(E2, Vec3(s, 0.0, c)) == 0.0
  {
  }

  lemma ZColumns(c: real, s: real)
    requires Times(c, c) + Times(s, s) == 1.0
    ensures Orthonormal(Vec3(c, s, 0.0), Vec3(-s, c, 0.0), E3)
  {
    FlatDots(c, s);
    UnitBasis();
  }

  lemma FlatDots(c: real, s: real)
    requires Times(c, c) + Times(s, s) == 1.0
    ensures Dot(Vec3(c, s, 0.0), Vec3(c, s, 0.0)) == 1.0
    ensures Dot(Vec3(-s, c, 0.0), Vec3(-s, c, 0.0)) == 1.0
    ensures Dot(Vec3(c, s, 0.0), Vec3(-s, c, 0.0)) == 0.0
    ensures Dot(Vec3(-s, c, 0.0), E3) == 0.0
    ensures Dot(E3, Vec3(c, s, 0.0)) == 0.0
  {
  }

  lemma DetAboutX(c: real, s: real)
    requires Times(c, c) + Times(s, s) == 1.0
    ensures Det(Mat3(E1, Vec3(0.0, c, -s), Vec3(0.0, s, c))) == 1.0
  {
  }

  lemma DetAboutY(c: real, s: real)
    requires Times(c, c) + Times(s, s) == 1.0
    ensures Det(Mat3(Vec3(c, 0.0, s), E2, Vec3(-s, 0.0, c))) == 1.0
  {
  }

  lemma DetAboutZ(c: real, s: real)
    requires Times(c, c) + Times(s, s) == 1.0
    ensures Det(Mat3(Vec3(c, -s, 0.0), Vec3(s, c, 0.0), E3)) == 1.0
  {
  }

  lemma ColumnsAboutX(c: real, s: real)
    ensures FromColumns(E1, Vec3(0.0, c, s), Vec3(0.0, -s, c)) == Mat3(E1, Vec3(0.0, c, -s), Vec3(0.0, s, c))
  {
  }

  lemma AboutXIsRotation(c: real, s: real)
    requires Times(c, c) + Times(s, s) == 1.0
    ensures IsRotation(AboutX(c, s))
  {
    XColumns(c, s);
    DetAboutX(c, s);
    ColumnsAboutX(c, s);
    RotationFromColumnVectors(E1, Vec3(0.0, c, s), Vec3(0.0, -s, c));
  }

  /** Given sin² + cos² = 1, the elementary rotation about the x axis is
      a proper rotation. */
  lemma RotXIsRotation(m: Math, theta: real)
    requires Pythagorean(m)
    ensures IsRotation(RotX(m, theta))
  {
    var c, s := m.cos(theta), m.sin(theta);
    assert Times(c, c) + Times(s, s) == 1.0;
    AboutXIsRotation(c, s);
  }

  lemma ColumnsAboutY(c: real, s: real)
    ensures FromColumns(Vec3(c, 0.0, -s), E2, Vec3(s, 0.0, c)) == Mat3(Vec3(c, 0.0, s), E2, Vec3(-s, 0.0, c))
  {
  }

  lemma AboutYIsRotation(c: real, s: real)
    requires Times(c, c) + Times(s, s) == 1.0
    ensures IsRotation(AboutY(c, s))
  {
    YColumns(c, s);
    DetAboutY(c, s);
    ColumnsAboutY(c, s);
    RotationFromColumnVectors(Vec3(c, 0.0, -s), E2, Vec3(s, 0.0, c));
  }

  /** Given sin² + cos² = 1, the elementary rotation about the y axis is
      a proper rotation. */
  lemma RotYIsRotation(m: Math, theta: real)
    requires Pythagorean(m)
    ensures IsRotation(RotY(m, theta))
  {
    var c, s := m.cos(theta), m.sin(theta);
    assert Times(c, c) + Times(s, s) == 1.0;
    AboutYIsRotation(c, s);
  }

  lemma ColumnsAboutZ(c: real, s: real)
    ensures FromColumns(Vec3(c, s, 0.0), Vec3(-s, c, 0.0), E3) == Mat3(Vec3(c, -s, 0.0), Vec3(s, c, 0.0), E3)
  {
  }

  lemma AboutZIsRotation(c: real, s: real)
    requires Times(c, c) + Times(s, s) == 1.0
    ensures IsRotation(AboutZ(c, s))
  {
    ZColumns(c, s);
    DetAboutZ(c, s);
    ColumnsAboutZ(c, s);
    RotationFromColumnVectors(Vec3(c, s, 0.0), Vec3(-s, c, 0.0), E3);
  }

  /** Given sin² + cos² = 1, the elementary rotation about the z axis is
      a proper rotation. */
  lemma RotZIsRotation(m: Math, theta: real)
    requires Pythagorean(m)
    ensures IsRotation(RotZ(m, theta))
  {
    var c, s := m.cos(theta), m.sin(theta);
    assert Times(c, c) + Times(s, s) == 1.0;
    AboutZIsRotation(c, s);
  }

  /** Rotations about the z axis compose by adding their angles. */
  lemma RotZAdd(m: Math, a: real, b: real)
    requires AngleAddition(m)
    ensures Mul(RotZ(m, b), RotZ(m, a)) == RotZ(m, a + b)
  {
    assert AddsAt(m, a, b);
  }

  /** Two quarter turns about z make a half turn. */
  lemma QuarterTurnsZ(m: Math)
    requires AngleAddition(m)
    ensures Mul(RotZ(m, m.pi / 2.0), RotZ(m, m.pi / 2.0)) == RotZ(m, m.pi)
  {
    RotZAdd(m, m.pi / 2.0, m.pi / 2.0);
    assert m.pi / 2.0 + m.pi / 2.0 == m.pi;
  }

  // ---------------------------------------------------------------------
  // Euler angles to a rotation matrix.

  /** Roll, pitch and yaw, in the unit the caller chose. */
  datatype Angles = Angles(roll: real, pitch: real, yaw: real)

  /** The unit strings the lemmas mention are distinct; the solver is slow
      to find this on its own in a large context. */
  lemma DistinctNames()
    ensures "rad" != "deg" && "XYZ" != "ZYX"
  {
  }

  /** Converts input angles to radians: only the exact unit "deg" is
      converted; any other unit string is taken to be radians. */
  function InRadians(m: Math, unit: string, a: Angles): (r: Angles)
    ensures unit != "deg" ==> r == a
    ensures unit == "deg" ==> r.roll * 180.0 == a.roll * m.pi && r.pitch * 180.0 == a.pitch * m.pi && r.yaw * 180.0 == a.yaw * m.pi
  {
    if unit == "deg" then Angles(Radians(m, a.roll), Radians(m, a.pitch), Radians(m, a.yaw)) else a
  }

  /** The composition for angles in radians. The order "ZYX" composes
      `rot_x(roll)·rot_y(pitch)·rot_z(yaw)` and "XYZ" composes
      `rot_z(yaw)·rot_y(pitch)·rot_x(roll)`; `@` associates to the left. */
  function Compose(m: Math, order: string, a: Angles): (r: Result<Mat3>)
    ensures r.Failure? <==> order != "ZYX" && order != "XYZ"
    ensures r.Failure? ==> r.error == UnsupportedOrder(order)
  {
    if order == "ZYX" then Success(Mul(Mul(RotX(m, a.roll), RotY(m, a.pitch)), RotZ(m, a.yaw)))
    else if order == "XYZ" then Success(Mul(Mul(RotZ(m, a.yaw), RotY(m, a.pitch)), RotX(m, a.roll)))
    else Failure(UnsupportedOrder(order))
  }

  /** `euler_to_rotation_matrix`: the unit conversion, then the
      composition for the order; an order other than "ZYX" and "XYZ" is
      an error. */
  function EulerToRotationMatrix(m: Math, roll: real, pitch: real, yaw: real, order: string, unit: string): (r: Result<Mat3>)
    ensures r.Failure? <==> order != "ZYX" && order != "XYZ"
    ensures r.Failure? ==> r.error == UnsupportedOrder(order)
  {
    Compose(m, order, InRadians(m, unit, Angles(roll, pitch, yaw)))
  }

  lemma ZyxIsRotation(m: Math, a: Angles)
    requires Pythagorean(m)
    ensures IsRotation(Mul(Mul(RotX(m, a.roll), RotY(m, a.pitch)), RotZ(m, a.yaw)))
  {
    RotXIsRotation(m, a.roll);
    RotYIsRotation(m, a.pitch);
    RotZIsRotation(m, a.yaw);
    ProductIsRotation(RotX(m, a.roll), RotY(m, a.pitch));
    ProductIsRotation(Mul(RotX(m, a.roll), RotY(m, a.pitch)), RotZ(m, a.yaw));
  }

  lemma XyzIsRotation(m: Math, a: Angles)
    requires Pythagorean(m)
    ensures IsRotation(Mul(Mul(RotZ(m, a.yaw), RotY(m, a.pitch)), RotX(m, a.roll)))
  {
    RotXIsRotation(m, a.roll);
    RotYIsRotation(m, a.pitch);
    RotZIsRotation(m, a.yaw);
    ProductIsRotation(RotZ(m, a.yaw), RotY(m, a.pitch));
    ProductIsRotation(Mul(RotZ(m, a.yaw), RotY(m, a.pitch)), RotX(m, a.roll));
  }

  /** Every matrix the composition returns is a proper rotation. */
  lemma ComposeIsRotation(m: Math, order: string, a: Angles)
    requires Pythagorean(m)
    ensures Compose(m, order, a).Success? ==> IsRotation(Compose(m, order, a).value)
  {
    ZyxIsRotation(m, a);
    XyzIsRotation(m, a);
  }

  /** Every matrix `euler_to_rotation_matrix` returns is a proper
      rotation. */
  lemma EulerIsRotation(m: Math, roll: real, pitch: real, yaw: real, order: string, unit: string)
    requires Pythagorean(m)
    ensures EulerToRotationMatrix(m, roll, pitch, yaw, order, unit).Success? ==>
              IsRotation(EulerToRotationMatrix(m, roll, pitch, yaw, order, unit).value)
  {
    ComposeIsRotation(m, order, InRadians(m, unit, Angles(roll, pitch, yaw)));
  }

  /** The matrix of "ZYX" applies the yaw rotation first, then pitch, then
      roll; the matrix of "XYZ" applies roll first, then pitch, then yaw. */
  lemma EulerApplicationOrder(m: Math, roll: real, pitch: real, yaw: real, v: Vec3)
    ensures MulVec(EulerToRotationMatrix(m, roll, pitch, yaw, "ZYX", "rad").value, v)
              == MulVec(RotX(m, roll), MulVec(RotY(m, pitch), MulVec(RotZ(m, yaw), v)))
    ensures MulVec(EulerToRotationMatrix(m, roll, pitch, yaw, "XYZ", "rad").value, v)
              == MulVec(RotZ(m, yaw), MulVec(RotY(m, pitch), MulVec(RotX(m, roll), v)))
  {
    MulVecAssoc(Mul(RotX(m, roll), RotY(m, pitch)), RotZ(m, yaw), v);
    MulVecAssoc(RotX(m, roll), RotY(m, pitch), MulVec(RotZ(m, yaw), v));
    MulVecAssoc(Mul(RotZ(m, yaw), RotY(m, pitch)), RotX(m, roll), v);
    MulVecAssoc(RotZ(m, yaw), RotY(m, pitch), MulVec(RotX(m, roll), v));
  }

  /** A unit string other than "deg" means radians, and "deg" means the
      angles are first converted. */
  lemma EulerUnits(m: Math, roll: real, pitch: real, yaw: real, order: string, unit: string)
    ensures unit != "deg" ==>
              EulerToRotationMatrix(m, roll, pitch, yaw, order, unit)
              == EulerToRotationMatrix(m, roll, pitch, yaw, order, "rad")
    ensures EulerToRotationMatrix(m, roll, pitch, yaw, order, "deg")
              == EulerToRotationMatrix(m, Radians(m, roll), Radians(m, pitch), Radians(m, yaw), order, "rad")
  {
    DistinctNames();
  }

  lemma DegreesYaw(m: Math, yaw: real)
    ensures EulerToRotationMatrix(m, 0.0, 0.0, yaw, "ZYX", "deg") == Compose(m, "ZYX", Angles(0.0, 0.0, Radians(m, yaw)))
  {
    assert InRadians(m, "deg", Angles(0.0, 0.0, yaw)) == Angles(0.0, 0.0, Radians(m, yaw));
  }

  lemma DegreesRoll(m: Math, roll: real)
    ensures EulerToRotationMatrix(m, roll, 0.0, 0.0, "XYZ", "deg") == Compose(m, "XYZ", Angles(Radians(m, roll), 0.0, 0.0))
  {
    assert InRadians(m, "deg", Angles(roll, 0.0, 0.0)) == Angles(Radians(m, roll), 0.0, 0.0);
  }

  lemma YawOnly(m: Math, yaw: real)
    requires SpecialValues(m)
    ensures Compose(m, "ZYX", Angles(0.0, 0.0, yaw)) == Success(RotZ(m, yaw))
  {
    RotationsAtZero(m);
    MulIdentity(Identity);
    MulIdentity(RotZ(m, yaw));
  }

  lemma RollOnly(m: Math, roll: real)
    requires SpecialValues(m)
    ensures Compose(m, "XYZ", Angles(roll, 0.0, 0.0)) == Success(RotX(m, roll))
  {
    DistinctNames();
    RotationsAtZero(m);
    MulIdentity(Identity);
    MulIdentity(RotX(m, roll));
  }

  /** Yaw alone, in degrees and order "ZYX", is the rotation about z by
      the converted angle; ninety degrees is the quarter turn. */
  lemma EulerZyxYawOnly(m: Math, yaw: real)
    requires SpecialValues(m)
    ensures EulerToRotationMatrix(m, 0.0, 0.0, yaw, "ZYX", "deg") == Success(RotZ(m, Radians(m, yaw)))
    ensures Radians(m, 90.0) == m.pi / 2.0
  {
    DegreesYaw(m, yaw);
    YawOnly(m, Radians(m, yaw));
  }

  /** Roll alone, in degrees and order "XYZ", is the rotation about x by
      the converted angle. */
  lemma EulerXyzRollOnly(m: Math, roll: real)
    requires SpecialValues(m)
    ensures EulerToRotationMatrix(m, roll, 0.0, 0.0, "XYZ", "deg") == Success(RotX(m, Radians(m, roll)))
  {
    DegreesRoll(m, roll);
    RollOnly(m, Radians(m, roll));
  }

  // ---------------------------------------------------------------------
  // A rotation matrix to Euler angles.

  /** Below this value of |cos pitch| the extraction treats the matrix as
      gimbal-locked. */
  const GimbalThreshold: real := 0.000001

  /** The "ZYX" extraction: pitch from the bottom-left entry, then roll
      and yaw from two atan2 calls, or, at gimbal lock, roll zero and yaw
      from the upper-left block. */
  function ExtractZyx(m: Math, r: Mat3): (a: Angles)
    ensures a.pitch == m.asin(-r.r2.x)
    ensures Abs(m.cos(a.pitch)) <= GimbalThreshold ==> a.roll == 0.0
  {
    var pitch := m.asin(-r.r2.x);
    if Abs(m.cos(pitch)) > GimbalThreshold then
      Angles(m.atan2(r.r2.y, r.r2.z), pitch, m.atan2(r.r1.x, r.r0.x))
    else
      Angles(0.0, pitch, m.atan2(-r.r0.y, r.r1.y))
  }

  /** Converts output angles from radians: only the exact unit "deg" is
      converted. */
  function InUnit(m: Math, unit: string, a: Angles): (r: Angles)
    ensures unit != "deg" ==> r == a
    ensures unit == "deg" ==> r.roll * m.pi == a.roll * 180.0 && r.pitch * m.pi == a.pitch * 180.0 && r.yaw * m.pi == a.yaw * 180.0
  {
    if unit == "deg" then Angles(Degrees(m, a.roll), Degrees(m, a.pitch), Degrees(m, a.yaw)) else a
  }

  /** `rotation_matrix_to_euler`: the shape is checked before the order,
      and "ZYX" is the only order handled. */
  function RotationMatrixToEuler(m: Math, r: MatrixArg, order: string, unit: string): (res: Result<Angles>)
    ensures r.OtherShape? ==> res == Failure(NotThreeByThree)
    ensures r.Square3? ==> (res.Success? <==> order == "ZYX")
    ensures r.Square3? && order != "ZYX" ==> res == Failure(UnsupportedOrder(order))
  {
    if r.OtherShape? then Failure(NotThreeByThree)
    else if order != "ZYX" then Failure(UnsupportedOrder(order))
    else Success(InUnit(m, unit, ExtractZyx(m, r.m)))
  }

  /** The unit of `rotation_matrix_to_euler` only touches the output: any
      unit other than "deg" gives the radians result unchanged, and "deg"
      gives each extracted angle in degrees. */
  lemma ExtractUnits(m: Math, r: MatrixArg, order: string, unit: string)
    ensures unit != "deg" ==> RotationMatrixToEuler(m, r, order, unit) == RotationMatrixToEuler(m, r, order, "rad")
    ensures RotationMatrixToEuler(m, r, order, "deg").Success? <==> RotationMatrixToEuler(m, r, order, "rad").Success?
    ensures RotationMatrixToEuler(m, r, order, "rad").Success? ==>
              var a := RotationMatrixToEuler(m, r, order, "rad").value;
              RotationMatrixToEuler(m, r, order, "deg").value == Angles(Degrees(m, a.roll), Degrees(m, a.pitch), Degrees(m, a.yaw))
  {
    DistinctNames();
  }

  /** The conversions in the two directions use the same unit rule. */
  lemma UnitsInverse(m: Math, unit: string, a: Angles)
    ensures InUnit(m, unit, InRadians(m, unit, a)) == a
  {
    DegreesRadians(m, a.roll, 0.0);
    DegreesRadians(m, a.pitch, 0.0);
    DegreesRadians(m, a.yaw, 0.0);
  }

  /** The entries of `rot_z(yaw)·rot_y(pitch)·rot_x(roll)` that the
      extraction reads. */
  lemma ZyxProductEntries(cr: real, sr: real, cp: real, sp: real, cy: real, sy: real)
    ensures Mul(Mul(AboutZ(cy, sy), AboutY(cp, sp)), AboutX(cr, sr)).r2.x == -sp
    ensures Mul(Mul(AboutZ(cy, sy), AboutY(cp, sp)), AboutX(cr, sr)).r2.y == Times(cp, sr)
    ensures Mul(Mul(AboutZ(cy, sy), AboutY(cp, sp)), AboutX(cr, sr)).r2.z == Times(cp, cr)
    ensures Mul(Mul(AboutZ(cy, sy), AboutY(cp, sp)), AboutX(cr, sr)).r1.x == Times(cp, sy)
    ensures Mul(Mul(AboutZ(cy, sy), AboutY(cp, sp)), AboutX(cr, sr)).r0.x == Times(cp, cy)
  {
  }

  /** Angles in radians away from gimbal lock, in the ranges `asin` and
      `atan2` return: pitch in [-pi/2, pi/2] with its cosine above the
      threshold, roll and yaw in (-pi, pi]. */
  ghost predicate Recoverable(m: Math, a: Angles) {
    -m.pi / 2.0 <= a.pitch <= m.pi / 2.0 && m.cos(a.pitch) > GimbalThreshold &&
    -m.pi < a.roll <= m.pi && -m.pi < a.yaw <= m.pi
  }

  /** The extraction recovers the angles from any matrix whose read entries
      have the shape of `rot_z(yaw)·rot_y(pitch)·rot_x(roll)`. */
  lemma ExtractFromEntries(m: Math, r: Mat3, a: Angles)
    requires InverseLaws(m) && Recoverable(m, a)
    requires r.r2.x == -m.sin(a.pitch)
    requires r.r2.y == Times(m.cos(a.pitch), m.sin(a.roll)) && r.r2.z == Times(m.cos(a.pitch), m.cos(a.roll))
    requires r.r1.x == Times(m.cos(a.pitch), m.sin(a.yaw)) && r.r0.x == Times(m.cos(a.pitch), m.cos(a.yaw))
    ensures ExtractZyx(m, r) == a
  {
    assert AsinAt(m, a.pitch);
    assert -r.r2.x == m.sin(a.pitch);
    assert Atan2At(m, m.cos(a.pitch), a.roll);
    assert Atan2At(m, m.cos(a.pitch), a.yaw);
  }

  /** Away from gimbal lock, the "ZYX" extraction inverts the "XYZ"
      composition. */
  lemma ExtractInvertsXyz(m: Math, a: Angles)
    requires InverseLaws(m) && Recoverable(m, a)
    ensures Compose(m, "XYZ", a).Success?
    ensures ExtractZyx(m, Compose(m, "XYZ", a).value) == a
  {
    DistinctNames();
    ZyxProductEntries(m.cos(a.roll), m.sin(a.roll), m.cos(a.pitch), m.sin(a.pitch), m.cos(a.yaw), m.sin(a.yaw));
    ExtractFromEntries(m, Compose(m, "XYZ", a).value, a);
  }

  /** The two entries the gimbal-lock branch reads, in the product the
      extraction inverts, at pitch sine one. */
  lemma GimbalEntries(cr: real, sr: real, cp: real, cy: real, sy: real)
    ensures -Mul(Mul(AboutZ(cy, sy), AboutY(cp, 1.0)), AboutX(cr, sr)).r0.y == sy * cr - cy * sr
    ensures Mul(Mul(AboutZ(cy, sy), AboutY(cp, 1.0)), AboutX(cr, sr)).r1.y == cy * cr + sy * sr
  {
  }

  /** Rotating back by the roll leaves the difference angle:
      `sin(r + d) cos r - cos(r + d) sin r = sin d` and likewise for the
      cosine. */
  lemma DifferenceScalars(cr: real, sr: real, cd: real, sd: real, cy: real, sy: real)
    requires sr * sr + cr * cr == 1.0
    requires cy == cr * cd - sr * sd && sy == sr * cd + cr * sd
    ensures sy * cr - cy * sr == sd
    ensures cy * cr + sy * sr == cd
  {
    assert sy * cr - cy * sr == sd * (sr * sr + cr * cr);
    assert cy * cr + sy * sr == cd * (sr * sr + cr * cr);
  }

  /** The three entries the extraction reads at pitch pi/2, in the "XYZ"
      matrix for roll `roll` and yaw `roll + d`. */
  lemma XyzAtGimbal(m: Math, roll: real, d: real)
    requires Pythagorean(m) && SpecialValues(m) && AngleAddition(m)
    ensures Compose(m, "XYZ", Angles(roll, m.pi / 2.0, roll + d)).Success?
    ensures -Compose(m, "XYZ", Angles(roll, m.pi / 2.0, roll + d)).value.r2.x == m.sin(m.pi / 2.0)
    ensures -Compose(m, "XYZ", Angles(roll, m.pi / 2.0, roll + d)).value.r0.y == m.sin(d)
    ensures Compose(m, "XYZ", Angles(roll, m.pi / 2.0, roll + d)).value.r1.y == m.cos(d)
  {
    DistinctNames();
    var h := m.pi / 2.0;
    var cr, sr, cy, sy := m.cos(roll), m.sin(roll), m.cos(roll + d), m.sin(roll + d);
    ZyxProductEntries(cr, sr, m.cos(h), m.sin(h), cy, sy);
    GimbalEntries(cr, sr, m.cos(h), cy, sy);
    assert AddsAt(m, roll, d);
    assert sr * sr + cr * cr == 1.0;
    DifferenceScalars(cr, sr, m.cos(d), m.sin(d), cy, sy);
  }

  /** At gimbal lock (pitch pi/2) only the difference of yaw and roll is
      determined by the matrix: the extraction sets roll to zero and puts
      the whole difference into yaw. */
  lemma GimbalLockXyz(m: Math, roll: real, d: real)
    requires Pythagorean(m) && SpecialValues(m) && AngleAddition(m) && InverseLaws(m)
    requires -m.pi < d <= m.pi
    ensures Compose(m, "XYZ", Angles(roll, m.pi / 2.0, roll + d)).Success?
    ensures ExtractZyx(m, Compose(m, "XYZ", Angles(roll, m.pi / 2.0, roll + d)).value) == Angles(0.0, m.pi / 2.0, d)
  {
    XyzAtGimbal(m, roll, d);
    assert AsinAt(m, m.pi / 2.0);
    assert Atan2At(m, 1.0, d);
  }

  /** The two entries the gimbal-lock branch reads, in the product the
      extraction inverts, at pitch sine minus one. */
  lemma NegativeGimbalEntries(cr: real, sr: real, cp: real, cy: real, sy: real)
    ensures -Mul(Mul(AboutZ(cy, sy), AboutY(cp, -1.0)), AboutX(cr, sr)).r0.y == sy * cr + cy * sr
    ensures Mul(Mul(AboutZ(cy, sy), AboutY(cp, -1.0)), AboutX(cr, sr)).r1.y == cy * cr - sy * sr
  {
  }

  /** The three entries the extraction reads at pitch -pi/2, in the "XYZ"
      matrix for roll `roll` and yaw `yaw`. */
  lemma XyzAtNegativeGimbal(m: Math, roll: real, yaw: real)
    requires SpecialValues(m) && AngleAddition(m)
    ensures Compose(m, "XYZ", Angles(roll, -m.pi / 2.0, yaw)).Success?
    ensures Compose(m, "XYZ", Angles(roll, -m.pi / 2.0, yaw)).value.r2.x == 1.0
    ensures -Compose(m, "XYZ", Angles(roll, -m.pi / 2.0, yaw)).value.r0.y == m.sin(yaw + roll)
    ensures Compose(m, "XYZ", Angles(roll, -m.pi / 2.0, yaw)).value.r1.y == m.cos(yaw + roll)
  {
    DistinctNames();
    MinusQuarterTurn(m);
    var h := -m.pi / 2.0;
    var cr, sr, cy, sy := m.cos(roll), m.sin(roll), m.cos(yaw), m.sin(yaw);
    ZyxProductEntries(cr, sr, m.cos(h), m.sin(h), cy, sy);
    NegativeGimbalEntries(cr, sr, m.cos(h), cy, sy);
    assert AddsAt(m, yaw, roll);
  }

  /** At the other gimbal lock (pitch -pi/2) only the sum of yaw and roll
      is determined by the matrix: the extraction sets roll to zero and puts
      the whole sum into yaw. */
  lemma NegativeGimbalLockXyz(m: Math, roll: real, yaw: real)
    requires SpecialValues(m) && AngleAddition(m) && InverseLaws(m)
    requires -m.pi < yaw + roll <= m.pi
    ensures Compose(m, "XYZ", Angles(roll, -m.pi / 2.0, yaw)).Success?
    ensures ExtractZyx(m, Compose(m, "XYZ", Angles(roll, -m.pi / 2.0, yaw)).value) == Angles(0.0, -m.pi / 2.0, yaw + roll)
  {
    XyzAtNegativeGimbal(m, roll, yaw);
    AsinMinusOne(m);
    MinusQuarterTurn(m);
    assert Atan2At(m, 1.0, yaw + roll);
  }

  /** The round trip the library's tests rely on, in either unit: the
      matrix `euler_to_rotation_matrix` builds for the "XYZ" order, read
      back by `rotation_matrix_to_euler` with the "ZYX" order, gives the
      original angles whenever their radian values are recoverable. */
  lemma EulerRoundTrip(m: Math, a: Angles, unit: string)
    requires InverseLaws(m) && Recoverable(m, InRadians(m, unit, a))
    ensures EulerToRotationMatrix(m, a.roll, a.pitch, a.yaw, "XYZ", unit).Success?
    ensures RotationMatrixToEuler(m, Square3(EulerToRotationMatrix(m, a.roll, a.pitch, a.yaw, "XYZ", unit).value), "ZYX", unit)
            == Success(a)
  {
    var b := InRadians(m, unit, a);
    ExtractInvertsXyz(m, b);
    UnitsInverse(m, unit, a);
    assert Angles(a.roll, a.pitch, a.yaw) == a;
  }

  // ---------------------------------------------------------------------
  // The "ZYX" branch of the composition as written is not the matrix the
  // "ZYX" extraction inverts.

  /** The corner entry the extraction reads for pitch, in the product the
      "ZYX" branch builds. */
  lemma XyzProductCorner(cr: real, sr: real, cp: real, sp: real, cy: real, sy: real)
    ensures Mul(Mul(AboutX(cr, sr), AboutY(cp, sp)), AboutZ(cy, sy)).r2.x == Times(sr, sy) - Times(Times(cr, sp), cy)
  {
  }

  /** The corner entry the extraction reads for pitch, in the matrix the
      "ZYX" branch builds. */
  lemma ZyxCorner(m: Math, a: Angles)
    ensures Compose(m, "ZYX", a).value.r2.x
            == Times(m.sin(a.roll), m.sin(a.yaw)) - Times(Times(m.cos(a.roll), m.sin(a.pitch)), m.cos(a.yaw))
  {
    XyzProductCorner(m.cos(a.roll), m.sin(a.roll), m.cos(a.pitch), m.sin(a.pitch), m.cos(a.yaw), m.sin(a.yaw));
  }

  /** With the sines of roll and yaw one and that of pitch zero, that
      corner holds one. */
  lemma ZyxCornerOne(m: Math, a: Angles)
    requires m.sin(a.roll) == 1.0 && m.sin(a.pitch) == 0.0 && m.sin(a.yaw) == 1.0
    ensures Compose(m, "ZYX", a).value.r2.x == 1.0
  {
    ZyxCorner(m, a);
  }

  /** In radians the conversion is the identity and the "ZYX" extraction
      of a 3x3 matrix succeeds with the extracted angles. */
  lemma RadianPaths(m: Math, a: Angles, r: Mat3)
    ensures EulerToRotationMatrix(m, a.roll, a.pitch, a.yaw, "ZYX", "rad") == Compose(m, "ZYX", a)
    ensures RotationMatrixToEuler(m, Square3(r), "ZYX", "rad") == Success(ExtractZyx(m, r))
  {
    DistinctNames();
    assert Angles(a.roll, a.pitch, a.yaw) == a;
  }

  /** With the sines of roll and yaw one and that of pitch zero, the
      extraction reads pitch `asin(-1)` from the "ZYX" matrix. */
  lemma ZyxCornerPitch(m: Math, a: Angles)
    requires m.sin(a.roll) == 1.0 && m.sin(a.pitch) == 0.0 && m.sin(a.yaw) == 1.0
    ensures ExtractZyx(m, Compose(m, "ZYX", a).value).pitch == m.asin(-1.0)
  {
    ZyxCornerOne(m, a);
  }

  /** At roll = yaw = pi/2 and pitch = 0 the extraction reads pitch -pi/2
      from the "ZYX" matrix. */
  lemma ZyxQuarterTurnsPitch(m: Math, a: Angles)
    requires SpecialValues(m) && AngleAddition(m) && InverseLaws(m)
    requires a == Angles(m.pi / 2.0, 0.0, m.pi / 2.0)
    ensures ExtractZyx(m, Compose(m, "ZYX", a).value).pitch == -m.pi / 2.0
  {
    AsinMinusOne(m);
    ZyxCornerPitch(m, a);
  }

  /** Those angles are within the range the round trip admits. */
  lemma QuarterTurnsRecoverable(m: Math, a: Angles)
    requires SpecialValues(m)
    requires a == Angles(m.pi / 2.0, 0.0, m.pi / 2.0)
    ensures Recoverable(m, a)
  {
  }

  /** At roll = yaw = pi/2 and pitch = 0 (angles the round trip admits),
      the "ZYX" matrix has a one in its bottom-left corner, so the
      extraction reports pitch -pi/2 instead of 0. */
  lemma ZyxRoundTripFails(m: Math, a: Angles)
    requires SpecialValues(m) && AngleAddition(m) && InverseLaws(m)
    requires a == Angles(m.pi / 2.0, 0.0, m.pi / 2.0)
    ensures Recoverable(m, a)
    ensures RotationMatrixToEuler(m, Square3(EulerToRotationMatrix(m, a.roll, a.pitch, a.yaw, "ZYX", "rad").value), "ZYX", "rad")
            != Success(a)
  {
    QuarterTurnsRecoverable(m, a);
    ZyxQuarterTurnsPitch(m, a);
    RadianPaths(m, a, Compose(m, "ZYX", a).value);
  }

  /** The composition the extraction evidently expects: "ZYX" is
      `rot_z(yaw)·rot_y(pitch)·rot_x(roll)`, as the inline matrix of
      `CoordinateSystem.from_euler_angles` also has it, and "XYZ" is the
      reverse product. */
  function ComposeIntended(m: Math, order: string, a: Angles): (r: Result<Mat3>)
    ensures r.Failure? <==> order != "ZYX" && order != "XYZ"
    ensures r.Failure? ==> r.error == UnsupportedOrder(order)
  {
    if order == "ZYX" then Success(Mul(Mul(RotZ(m, a.yaw), RotY(m, a.pitch)), RotX(m, a.roll)))
    else if order == "XYZ" then Success(Mul(Mul(RotX(m, a.roll), RotY(m, a.pitch)), RotZ(m, a.yaw)))
    else Failure(UnsupportedOrder(order))
  }

  /** `euler_to_rotation_matrix` with the corrected composition. */
  function EulerToRotationMatrixIntended(m: Math, roll: real, pitch: real, yaw: real, order: string, unit: string): (r: Result<Mat3>)
    ensures r.Failure? <==> order != "ZYX" && order != "XYZ"
    ensures r.Failure? ==> r.error == UnsupportedOrder(order)
  {
    ComposeIntended(m, order, InRadians(m, unit, Angles(roll, pitch, yaw)))
  }

  /** The correction exchanges the two orders and changes nothing else. */
  lemma IntendedSwapsOrders(m: Math, order: string, a: Angles)
    ensures ComposeIntended(m, "ZYX", a) == Compose(m, "XYZ", a)
    ensures ComposeIntended(m, "XYZ", a) == Compose(m, "ZYX", a)
    ensures order != "ZYX" && order != "XYZ" ==> ComposeIntended(m, order, a) == Compose(m, order, a)
  {
    DistinctNames();
  }

  /** With the corrected composition the "ZYX" round trip holds, in either
      unit. */
  lemma IntendedRoundTrip(m: Math, a: Angles, unit: string)
    requires InverseLaws(m) && Recoverable(m, InRadians(m, unit, a))
    ensures EulerToRotationMatrixIntended(m, a.roll, a.pitch, a.yaw, "ZYX", unit).Success?
    ensures RotationMatrixToEuler(m, Square3(EulerToRotationMatrixIntended(m, a.roll, a.pitch, a.yaw, "ZYX", unit).value), "ZYX", unit)
            == Success(a)
  {
    var b := InRadians(m, unit, a);
    IntendedSwapsOrders(m, "ZYX", b);
    ExtractInvertsXyz(m, b);
    UnitsInverse(m, unit, a);
    assert Angles(a.roll, a.pitch, a.yaw) == a;
  }
}
