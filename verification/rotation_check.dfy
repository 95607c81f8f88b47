/** `is_rotation_matrix`: the tolerance test that a matrix argument is a
    proper rotation, with numpy's `allclose` and `isclose` read over the
    reals. */
module RotationCheck {
  import opened LinAlg
  import opened Trig
  import opened Rotation

  /** The default absolute tolerance of `is_rotation_matrix`. */
  const DefaultTolerance: real := 0.000001

  /** numpy's default relative tolerance for `allclose` and `isclose`. */
  const RelativeTolerance: real := 0.00001

  /** `numpy.isclose(a, b, atol=atol)`: the difference is within the
      absolute tolerance plus the relative tolerance scaled by `|b|`. */
  predicate IsClose(a: real, b: real, atol: real) {
    Abs(a - b) <= atol + RelativeTolerance * Abs(b)
  }

  predicate RowClose(u: Vec3, v: Vec3, atol: real) {
    IsClose(u.x, v.x, atol) && IsClose(u.y, v.y, atol) && IsClose(u.z, v.z, atol)
  }

  /** `numpy.allclose(a, b, atol=atol)`: every entry is close. */
  predicate AllClose(a: Mat3, b: Mat3, atol: real) {
    RowClose(a.r0, b.r0, atol) && RowClose(a.r1, b.r1, atol) && RowClose(a.r2, b.r2, atol)
  }

  /** The diagonal of `R·Rᵀ` holds the squared lengths of the rows. */
  lemma GramDiagonal(r: Mat3)
    ensures Mul(r, Transpose(r)).r0.x == Dot(r.r0, r.r0)
    ensures Mul(r, Transpose(r)).r1.y == Dot(r.r1, r.r1)
    ensures Mul(r, Transpose(r)).r2.z == Dot(r.r2, r.r2)
  {
    MulRows(r, Transpose(r));
    TransposeTwice(r);
    MulVecParts(r, r.r0);
    MulVecParts(r, r.r1);
    MulVecParts(r, r.r2);
  }

  /** `is_rotation_matrix`: false for a shape other than 3x3, false when
      `R·Rᵀ` is not close to the identity, false when the determinant is
      not close to one, and true otherwise. It never fails. */
  function IsRotationMatrix(r: MatrixArg, tol: real): (b: bool)
    ensures r.OtherShape? ==> !b
    ensures b ==> Abs(Det(r.m) - 1.0) <= tol + RelativeTolerance
    ensures b ==> Abs(Dot(r.m.r0, r.m.r0) - 1.0) <= tol + RelativeTolerance
    ensures b ==> Abs(Dot(r.m.r1, r.m.r1) - 1.0) <= tol + RelativeTolerance
    ensures b ==> Abs(Dot(r.m.r2, r.m.r2) - 1.0) <= tol + RelativeTolerance
  {
    if r.OtherShape? then false
    else
      GramDiagonal(r.m);
      AllClose(Mul(r.m, Transpose(r.m)), Identity, tol) && IsClose(Det(r.m), 1.0, tol)
  }

  /** Every exact rotation passes the test at any tolerance that is not
      negative. */
  lemma AcceptsRotations(r: Mat3, tol: real)
    requires IsRotation(r) && tol >= 0.0
    ensures IsRotationMatrix(Square3(r), tol)
  {
  }

  /** A larger tolerance accepts everything a smaller one does. */
  lemma ToleranceMonotone(r: MatrixArg, tol1: real, tol2: real)
    requires tol1 <= tol2 && IsRotationMatrix(r, tol1)
    ensures IsRotationMatrix(r, tol2)
  {
  }

  /** The identity passes at the default tolerance. */
  lemma AcceptsIdentity()
    ensures IsRotationMatrix(Square3(Identity), DefaultTolerance)
  {
    IdentityIsRotation();
    AcceptsRotations(Identity, DefaultTolerance);
  }

  /** Each elementary rotation passes at the default tolerance. */
  lemma AcceptsRotX(m: Math, theta: real)
    requires Pythagorean(m)
    ensures IsRotationMatrix(Square3(RotX(m, theta)), DefaultTolerance)
  {
    RotXIsRotation(m, theta);
    AcceptsRotations(RotX(m, theta), DefaultTolerance);
  }

  lemma AcceptsRotY(m: Math, theta: real)
    requires Pythagorean(m)
    ensures IsRotationMatrix(Square3(RotY(m, theta)), DefaultTolerance)
  {
    RotYIsRotation(m, theta);
    AcceptsRotations(RotY(m, theta), DefaultTolerance);
  }

  lemma AcceptsRotZ(m: Math, theta: real)
    requires Pythagorean(m)
    ensures IsRotationMatrix(Square3(RotZ(m, theta)), DefaultTolerance)
  {
    RotZIsRotation(m, theta);
    AcceptsRotations(RotZ(m, theta), DefaultTolerance);
  }

  /** The composite `rot_z(c)·rot_y(b)·rot_x(a)` passes at the default
      tolerance. */
  lemma AcceptsComposite(m: Math, a: real, b: real, c: real)
    requires Pythagorean(m)
    ensures IsRotationMatrix(Square3(Mul(Mul(RotZ(m, c), RotY(m, b)), RotX(m, a))), DefaultTolerance)
  {
    XyzIsRotation(m, Angles(a, b, c));
    AcceptsRotations(Mul(Mul(RotZ(m, c), RotY(m, b)), RotX(m, a)), DefaultTolerance);
  }

  /** A matrix that is not 3x3, the shear `[[1,1,0],[0,1,0],[0,0,1]]` and
      the reflection `diag(-1,1,1)` all fail at the default tolerance. */
  lemma RejectsNonRotations()
    ensures !IsRotationMatrix(OtherShape, DefaultTolerance)
    ensures !IsRotationMatrix(Square3(Mat3(Vec3(1.0, 1.0, 0.0), E2, E3)), DefaultTolerance)
    ensures !IsRotationMatrix(Square3(Mat3(Vec3(-1.0, 0.0, 0.0), E2, E3)), DefaultTolerance)
  {
    assert Dot(Vec3(1.0, 1.0, 0.0), Vec3(1.0, 1.0, 0.0)) == 2.0;
    assert Det(Mat3(Vec3(-1.0, 0.0, 0.0), E2, E3)) == -1.0;
  }
}
