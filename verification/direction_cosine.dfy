/** The legacy direction cosine matrices: an earlier, separate copy of the
    three elementary rotations, written out entry by entry. */
module DirectionCosine {
  import opened LinAlg
  import opened Trig
  import Rotation

  /** Rotation about the x axis: the x axis is the fixed row and column. */
  function RotX(m: Math, theta: real): (r: Mat3)
    ensures r.r0 == E1 && Col(r, 0) == E1
    ensures MulVec(r, E1) == E1
  {
    Mat3(Vec3(1.0, 0.0, 0.0),
         Vec3(0.0, m.cos(theta), -m.sin(theta)),
         Vec3(0.0, m.sin(theta), m.cos(theta)))
  }

  /** Rotation about the y axis: the y axis is the fixed row and column. */
  function RotY(m: Math, theta: real): (r: Mat3)
    ensures r.r1 == E2 && Col(r, 1) == E2
    ensures MulVec(r, E2) == E2
  {
    Mat3(Vec3(m.cos(theta), 0.0, m.sin(theta)),
         Vec3(0.0, 1.0, 0.0),
         Vec3(-m.sin(theta), 0.0, m.cos(theta)))
  }

  /** Rotation about the z axis: the z axis is the fixed row and column. */
  function RotZ(m: Math, theta: real): (r: Mat3)
    ensures r.r2 == E3 && Col(r, 2) == E3
    ensures MulVec(r, E3) == E3
  {
    Mat3(Vec3(m.cos(theta), -m.sin(theta), 0.0),
         Vec3(m.sin(theta), m.cos(theta), 0.0),
         Vec3(0.0, 0.0, 1.0))
  }

  /** Each legacy matrix is entrywise the same-named rotation of the
      rotation utilities. */
  lemma AgreesWithRotation(m: Math, theta: real)
    ensures RotX(m, theta) == Rotation.RotX(m, theta)
    ensures RotY(m, theta) == Rotation.RotY(m, theta)
    ensures RotZ(m, theta) == Rotation.RotZ(m, theta)
  {
  }

  /** So each is the identity at angle zero. */
  lemma IdentityAtZero(m: Math)
    requires SpecialValues(m)
    ensures RotX(m, 0.0) == Identity && RotY(m, 0.0) == Identity && RotZ(m, 0.0) == Identity
  {
    AgreesWithRotation(m, 0.0);
    Rotation.RotationsAtZero(m);
  }

  /** And each is a proper rotation. */
  lemma AreRotations(m: Math, theta: real)
    requires Pythagorean(m)
    ensures IsRotation(RotX(m, theta)) && IsRotation(RotY(m, theta)) && IsRotation(RotZ(m, theta))
  {
    AgreesWithRotation(m, theta);
    Rotation.RotXIsRotation(m, theta);
    Rotation.RotYIsRotation(m, theta);
    Rotation.RotZIsRotation(m, theta);
  }
}
