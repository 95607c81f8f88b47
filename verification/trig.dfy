/** The transcendental functions the library takes from Python's `math`
    module and numpy (`sin`, `cos`, `sqrt`, `asin`, `atan2` and `pi`). The
    model does not implement them: they are fields of a `MathLib` value that
    every operation needing one of them receives, and a lemma assumes of them only the laws it
    names below. */
module Trig {
  import opened LinAlg

  datatype MathLib = MathLib(
    sin: real -> real,
    cos: real -> real,
    sqrt: real -> real,
    asin: real -> real,
    atan2: (real, real) -> real,
    pi: real)

  /** The one fact the operations themselves rely on: `math.degrees`
      divides by pi, which is positive. */
  type Math = m: MathLib | m.pi > 0.0
    witness MathLib(t => 0.0, t => 1.0, x => x, x => x, (y, x) => 0.0, 3.0)

  /** `math.radians`: multiplication by pi / 180. */
  function Radians(m: Math, deg: real): (r: real)
    ensures r * 180.0 == deg * m.pi
  {
    deg * (m.pi / 180.0)
  }

  /** `math.degrees`: multiplication by 180 / pi. */
  function Degrees(m: Math, rad: real): (r: real)
    ensures r * m.pi == rad * 180.0
  {
    rad * (180.0 / m.pi)
  }

  /** The two conversions are mutually inverse. */
  lemma DegreesRadians(m: Math, deg: real, rad: real)
    ensures Degrees(m, Radians(m, deg)) == deg
    ensures Radians(m, Degrees(m, rad)) == rad
  {
  }

  // ---------------------------------------------------------------------
  // Laws. Each is stated for all arguments; the inverse and
  // angle-addition laws go through a pointwise predicate so that a proof
  // instantiates them at the arguments it needs.

  ghost predicate Pythagorean(m: Math) {
    forall t :: m.sin(t) * m.sin(t) + m.cos(t) * m.cos(t) == 1.0
  }

  ghost predicate SpecialValues(m: Math) {
    m.cos(0.0) == 1.0 && m.sin(0.0) == 0.0 && m.cos(m.pi / 2.0) == 0.0 && m.sin(m.pi / 2.0) == 1.0
  }

  /** The angle-addition formulas at one pair of angles. */
  ghost predicate AddsAt(m: Math, a: real, b: real) {
    m.cos(a + b) == m.cos(a) * m.cos(b) - m.sin(a) * m.sin(b) &&
    m.sin(a + b) == m.sin(a) * m.cos(b) + m.cos(a) * m.sin(b)
  }

  ghost predicate AngleAddition(m: Math) {
    forall a, b :: AddsAt(m, a, b)
  }

  ghost predicate SqrtLaw(m: Math) {
    forall x :: x >= 0.0 ==> m.sqrt(x) >= 0.0 && m.sqrt(x) * m.sqrt(x) == x
  }

  /** `asin` undoes `sin` on [-pi/2, pi/2]. */
  ghost predicate AsinAt(m: Math, t: real) {
    -m.pi / 2.0 <= t <= m.pi / 2.0 ==> m.asin(m.sin(t)) == t
  }

  /** `atan2(k sin t, k cos t)` recovers `t` in (-pi, pi] for `k > 0`. */
  ghost predicate Atan2At(m: Math, k: real, t: real) {
    k > 0.0 && -m.pi < t <= m.pi ==> m.atan2(Times(k, m.sin(t)), Times(k, m.cos(t))) == t
  }

  ghost predicate InverseLaws(m: Math) {
    (forall t :: AsinAt(m, t)) && (forall k, t :: Atan2At(m, k, t))
  }

  // ---------------------------------------------------------------------
  // Consequences of the laws used by the rotation and frame proofs.

  /** The square root of one is one. */
  lemma SqrtOne(m: Math)
    requires SqrtLaw(m)
    ensures m.sqrt(1.0) == 1.0
  {
    var s := m.sqrt(1.0);
    assert s >= 0.0 && s * s == 1.0;
    assert (s - 1.0) * (s + 1.0) == s * s - 1.0;
    assert s + 1.0 > 0.0;
  }

  /** Cosine and sine at -pi/2, from the special values and angle addition
      at (pi/2, -pi/2). */
  lemma MinusQuarterTurn(m: Math)
    requires SpecialValues(m) && AngleAddition(m)
    ensures m.cos(-m.pi / 2.0) == 0.0 && m.sin(-m.pi / 2.0) == -1.0
  {
    var h := m.pi / 2.0;
    assert h + -h == 0.0;
    assert AddsAt(m, h, -h);
    assert m.cos(h + -h) == 1.0 && m.sin(h + -h) == 0.0;
  }

  /** `asin(-1)` is `-pi/2`. */
  lemma AsinMinusOne(m: Math)
    requires SpecialValues(m) && AngleAddition(m) && InverseLaws(m)
    ensures m.asin(-1.0) == -m.pi / 2.0
  {
    MinusQuarterTurn(m);
    assert AsinAt(m, -m.pi / 2.0);
  }
}
