/** Exact linear algebra over fixed-size real vectors and matrices: the
    arithmetic numpy performs for the coordinate-frame library, without
    rounding. */
module LinAlg {

  /** A 3-component vector, used both as a point and as a free vector. */
  datatype Vec3 = Vec3(x: real, y: real, z: real)

  /** A 3x3 matrix stored by rows. */
  datatype Mat3 = Mat3(r0: Vec3, r1: Vec3, r2: Vec3)

  /** A 4-component row of a homogeneous matrix. */
  datatype Vec4 = Vec4(a: real, b: real, c: real, d: real)

  /** A 4x4 homogeneous matrix stored by rows. */
  datatype Mat4 = Mat4(r0: Vec4, r1: Vec4, r2: Vec4, r3: Vec4)

  const Zero: Vec3 := Vec3(0.0, 0.0, 0.0)
  const E1: Vec3 := Vec3(1.0, 0.0, 0.0)
  const E2: Vec3 := Vec3(0.0, 1.0, 0.0)
  const E3: Vec3 := Vec3(0.0, 0.0, 1.0)
  const Identity: Mat3 := Mat3(E1, E2, E3)

  function Add(u: Vec3, v: Vec3): Vec3 {
    Vec3(u.x + v.x, u.y + v.y, u.z + v.z)
  }

  function Sub(u: Vec3, v: Vec3): Vec3 {
    Vec3(u.x - v.x, u.y - v.y, u.z - v.z)
  }

  function Scale(k: real, v: Vec3): Vec3 {
    Vec3(k * v.x, k * v.y, k * v.z)
  }

  /** Component-wise division by a scalar, numpy's `vector / norm`. */
  function Div(v: Vec3, k: real): Vec3
    requires k != 0.0
  {
    Vec3(v.x / k, v.y / k, v.z / k)
  }

  function Abs(x: real): real {
    if x < 0.0 then -x else x
  }

  function Dot(u: Vec3, v: Vec3): real {
    u.x * v.x + u.y * v.y + u.z * v.z
  }

  function Cross(u: Vec3, v: Vec3): Vec3 {
    Vec3(u.y * v.z - u.z * v.y, u.z * v.x - u.x * v.z, u.x * v.y - u.y * v.x)
  }

  function Transpose(m: Mat3): Mat3 {
    Mat3(Vec3(m.r0.x, m.r1.x, m.r2.x), Vec3(m.r0.y, m.r1.y, m.r2.y), Vec3(m.r0.z, m.r1.z, m.r2.z))
  }

  /** Column `m[:, j]`. */
  function Col(m: Mat3, j: nat): Vec3
    requires j < 3
  {
    var t := Transpose(m);
    if j == 0 then t.r0 else if j == 1 then t.r1 else t.r2
  }

  /** The matrix whose columns are `c0`, `c1`, `c2` (numpy's `column_stack`). */
  function FromColumns(c0: Vec3, c1: Vec3, c2: Vec3): Mat3 {
    Transpose(Mat3(c0, c1, c2))
  }

  /** Matrix-vector product `m @ v`: entry `i` is row `i` dotted with `v`,
      written out over scalars. */
  function MulVec(m: Mat3, v: Vec3): Vec3 {
    Vec3(Times(m.r0.x, v.x) + Times(m.r0.y, v.y) + Times(m.r0.z, v.z),
         Times(m.r1.x, v.x) + Times(m.r1.y, v.y) + Times(m.r1.z, v.z),
         Times(m.r2.x, v.x) + Times(m.r2.y, v.y) + Times(m.r2.z, v.z))
  }

  /** Matrix product `a @ b`: entry `(i, j)` is row `i` of `a` dotted with
      column `j` of `b`. The entries are written out over scalars: a product
      of two constant-laden matrices expanded through `Dot` sends the solver
      into a loop over literal vectors. */
  function Mul(a: Mat3, b: Mat3): Mat3 {
    Mat3(Vec3(Times(b.r0.x, a.r0.x) + Times(b.r1.x, a.r0.y) + Times(b.r2.x, a.r0.z),
              Times(b.r0.y, a.r0.x) + Times(b.r1.y, a.r0.y) + Times(b.r2.y, a.r0.z),
              Times(b.r0.z, a.r0.x) + Times(b.r1.z, a.r0.y) + Times(b.r2.z, a.r0.z)),
         Vec3(Times(b.r0.x, a.r1.x) + Times(b.r1.x, a.r1.y) + Times(b.r2.x, a.r1.z),
              Times(b.r0.y, a.r1.x) + Times(b.r1.y, a.r1.y) + Times(b.r2.y, a.r1.z),
              Times(b.r0.z, a.r1.x) + Times(b.r1.z, a.r1.y) + Times(b.r2.z, a.r1.z)),
         Vec3(Times(b.r0.x, a.r2.x) + Times(b.r1.x, a.r2.y) + Times(b.r2.x, a.r2.z),
              Times(b.r0.y, a.r2.x) + Times(b.r1.y, a.r2.y) + Times(b.r2.y, a.r2.z),
              Times(b.r0.z, a.r2.x) + Times(b.r1.z, a.r2.y) + Times(b.r2.z, a.r2.z)))
  }

  function ScaleMat(k: real, m: Mat3): Mat3 {
    Mat3(Scale(k, m.r0), Scale(k, m.r1), Scale(k, m.r2))
  }

  /** Determinant, as the scalar triple product of the rows. */
  function Det(m: Mat3): real {
    Dot(m.r0, Cross(m.r1, m.r2))
  }

  /** Adjugate: the transpose of the cofactor matrix. Its columns are the
      cross products of pairs of rows. */
  function Adj(m: Mat3): Mat3 {
    FromColumns(Cross(m.r1, m.r2), Cross(m.r2, m.r0), Cross(m.r0, m.r1))
  }

  /** Three vectors of unit length, pairwise perpendicular. */
  ghost predicate Orthonormal(u: Vec3, v: Vec3, w: Vec3) {
    Dot(u, u) == 1.0 && Dot(v, v) == 1.0 && Dot(w, w) == 1.0 &&
    Dot(u, v) == 0.0 && Dot(v, w) == 0.0 && Dot(w, u) == 0.0
  }

  /** Columns are unit length and pairwise perpendicular: `mᵀ·m = I`. */
  ghost predicate OrthonormalColumns(m: Mat3) {
    Mul(Transpose(m), m) == Identity
  }

  /** Rows are unit length and pairwise perpendicular: `m·mᵀ = I`. */
  ghost predicate OrthonormalRows(m: Mat3) {
    Mul(m, Transpose(m)) == Identity
  }

  /** A proper rotation: orthogonal with determinant one. */
  ghost predicate IsRotation(m: Mat3) {
    OrthonormalColumns(m) && OrthonormalRows(m) && Det(m) == 1.0
  }

  /** Multiplication as a named function. The solver identifies two products
      of equal factors only when the product is a function application, so
      laws whose conclusions multiply quantities state them with `Times`. */
  function Times(a: real, b: real): real {
    a * b
  }

  // ---------------------------------------------------------------------
  // Unfolding lemmas. The solver pays heavily for every round of function
  // unfolding in a context holding products, so the laws below are built
  // from these one-step facts rather than from the definitions directly.

  lemma ScaleParts(k: real, v: Vec3)
    ensures Scale(k, v).x == Times(k, v.x) && Scale(k, v).y == Times(k, v.y) && Scale(k, v).z == Times(k, v.z)
  {
  }

  lemma ScaleMatRows(k: real, m: Mat3)
    ensures ScaleMat(k, m).r0 == Scale(k, m.r0)
    ensures ScaleMat(k, m).r1 == Scale(k, m.r1)
    ensures ScaleMat(k, m).r2 == Scale(k, m.r2)
  {
  }

  lemma TransposeRows(m: Mat3)
    ensures Transpose(m).r0 == Vec3(m.r0.x, m.r1.x, m.r2.x)
    ensures Transpose(m).r1 == Vec3(m.r0.y, m.r1.y, m.r2.y)
    ensures Transpose(m).r2 == Vec3(m.r0.z, m.r1.z, m.r2.z)
  {
  }

  lemma MulRows(a: Mat3, b: Mat3)
    ensures Mul(a, b).r0 == MulVec(Transpose(b), a.r0)
    ensures Mul(a, b).r1 == MulVec(Transpose(b), a.r1)
    ensures Mul(a, b).r2 == MulVec(Transpose(b), a.r2)
  {
  }

  lemma MulVecParts(m: Mat3, v: Vec3)
    ensures MulVec(m, v).x == Dot(m.r0, v) && MulVec(m, v).y == Dot(m.r1, v) && MulVec(m, v).z == Dot(m.r2, v)
  {
  }

  // ---------------------------------------------------------------------
  // Algebraic laws. A polynomial identity is proved once over plain
  // scalars; the vector and matrix laws only rearrange dot products.

  lemma DotComm(u: Vec3, v: Vec3)
    ensures Dot(u, v) == Dot(v, u)
  {
  }

  /** `(k u) · v == k (u · v)` on plain scalars. */
  lemma DotScaleScalars(k: real, u0: real, u1: real, u2: real, v0: real, v1: real, v2: real)
    ensures (k * u0) * v0 + (k * u1) * v1 + (k * u2) * v2 == k * (u0 * v0 + u1 * v1 + u2 * v2)
  {
  }

  lemma DotScale(k: real, u: Vec3, v: Vec3)
    ensures Dot(Scale(k, u), v) == Times(k, Dot(u, v))
  {
    DotScaleScalars(k, u.x, u.y, u.z, v.x, v.y, v.z);
  }

  lemma TransposeTwice(m: Mat3)
    ensures Transpose(Transpose(m)) == m
  {
  }

  lemma MulVecIdentity(v: Vec3)
    ensures MulVec(Identity, v) == v
  {
  }

  lemma TransposeIdentity()
    ensures Transpose(Identity) == Identity
  {
  }

  lemma MulIdentity(m: Mat3)
    ensures Mul(m, Identity) == m
    ensures Mul(Identity, m) == m
  {
    TransposeIdentity();
    MulRows(m, Identity);
    MulVecIdentity(m.r0);
    MulVecIdentity(m.r1);
    MulVecIdentity(m.r2);
  }

  /** `w · (m u) == (mᵀ w) · u` on plain scalars; `d` and `e` name `m u` and
      `mᵀ w`. */
  lemma AdjointScalars(w0: real, w1: real, w2: real, u0: real, u1: real, u2: real,
                       m00: real, m01: real, m02: real, m10: real, m11: real, m12: real, m20: real, m21: real, m22: real,
                       d0: real, d1: real, d2: real, e0: real, e1: real, e2: real)
    requires d0 == m00 * u0 + m01 * u1 + m02 * u2
    requires d1 == m10 * u0 + m11 * u1 + m12 * u2
    requires d2 == m20 * u0 + m21 * u1 + m22 * u2
    requires e0 == m00 * w0 + m10 * w1 + m20 * w2
    requires e1 == m01 * w0 + m11 * w1 + m21 * w2
    requires e2 == m02 * w0 + m12 * w1 + m22 * w2
    ensures w0 * d0 + w1 * d1 + w2 * d2 == e0 * u0 + e1 * u1 + e2 * u2
  {
  }

  /** The transpose is the adjoint for the dot product. */
  lemma DotMulVec(w: Vec3, m: Mat3, u: Vec3)
    ensures Dot(w, MulVec(m, u)) == Dot(MulVec(Transpose(m), w), u)
  {
    var d, e := MulVec(m, u), MulVec(Transpose(m), w);
    AdjointScalars(w.x, w.y, w.z, u.x, u.y, u.z, m.r0.x, m.r0.y, m.r0.z, m.r1.x, m.r1.y, m.r1.z, m.r2.x, m.r2.y, m.r2.z,
                   d.x, d.y, d.z, e.x, e.y, e.z);
  }

  /** The written-out dot product does not depend on the order of the
      factors. */
  lemma TimesDotComm(u: Vec3, v: Vec3)
    ensures Times(u.x, v.x) + Times(u.y, v.y) + Times(u.z, v.z) == Times(v.x, u.x) + Times(v.y, u.y) + Times(v.z, u.z)
  {
  }

  lemma TransposeOfProduct(a: Mat3, b: Mat3)
    ensures Transpose(Mul(a, b)) == Mul(Transpose(b), Transpose(a))
  {
    var tb := Transpose(b);
    TimesDotComm(a.r0, tb.r0); TimesDotComm(a.r0, tb.r1); TimesDotComm(a.r0, tb.r2);
    TimesDotComm(a.r1, tb.r0); TimesDotComm(a.r1, tb.r1); TimesDotComm(a.r1, tb.r2);
    TimesDotComm(a.r2, tb.r0); TimesDotComm(a.r2, tb.r1); TimesDotComm(a.r2, tb.r2);
  }

  /** `m @ (n @ v) == (m @ n) @ v`. */
  lemma MulVecAssoc(m: Mat3, n: Mat3, v: Vec3)
    ensures MulVec(m, MulVec(n, v)) == MulVec(Mul(m, n), v)
  {
    TransposeTwice(n);
    DotMulVec(m.r0, n, v);
    DotMulVec(m.r1, n, v);
    DotMulVec(m.r2, n, v);
  }

  lemma MulAssoc(a: Mat3, b: Mat3, c: Mat3)
    ensures Mul(Mul(a, b), c) == Mul(a, Mul(b, c))
  {
    var tb, tc := Transpose(b), Transpose(c);
    TransposeOfProduct(b, c);
    MulVecAssoc(tc, tb, a.r0);
    MulVecAssoc(tc, tb, a.r1);
    MulVecAssoc(tc, tb, a.r2);
  }

  lemma TransposeScale(k: real, m: Mat3)
    ensures Transpose(ScaleMat(k, m)) == ScaleMat(k, Transpose(m))
  {
    var t := Transpose(m);
    ScaleMatRows(k, m);
    ScaleMatRows(k, t);
    ScaleParts(k, m.r0); ScaleParts(k, m.r1); ScaleParts(k, m.r2);
    ScaleParts(k, t.r0); ScaleParts(k, t.r1); ScaleParts(k, t.r2);
    TransposeRows(m);
    TransposeRows(ScaleMat(k, m));
  }

  lemma MulVecScale(k: real, m: Mat3, v: Vec3)
    ensures MulVec(ScaleMat(k, m), v) == Scale(k, MulVec(m, v))
  {
    ScaleMatRows(k, m);
    MulVecParts(ScaleMat(k, m), v);
    MulVecParts(m, v);
    ScaleParts(k, MulVec(m, v));
    DotScale(k, m.r0, v);
    DotScale(k, m.r1, v);
    DotScale(k, m.r2, v);
  }

  lemma MulScaleRight(a: Mat3, k: real, b: Mat3)
    ensures Mul(a, ScaleMat(k, b)) == ScaleMat(k, Mul(a, b))
  {
    var tb := Transpose(b);
    TransposeScale(k, b);
    MulRows(a, b);
    MulRows(a, ScaleMat(k, b));
    ScaleMatRows(k, Mul(a, b));
    MulVecScale(k, tb, a.r0);
    MulVecScale(k, tb, a.r1);
    MulVecScale(k, tb, a.r2);
  }

  lemma DetTranspose(m: Mat3)
    ensures Det(Transpose(m)) == Det(m)
  {
  }

  /** The determinant of nine scalars given row by row. */
  function Det9(a: real, b: real, c: real, d: real, e: real, f: real, g: real, h: real, i: real): real {
    a * (e * i - f * h) - b * (d * i - f * g) + c * (d * h - e * g)
  }

  lemma DetAsScalars(m: Mat3)
    ensures Det(m) == Det9(m.r0.x, m.r0.y, m.r0.z, m.r1.x, m.r1.y, m.r1.z, m.r2.x, m.r2.y, m.r2.z)
  {
  }

  /** Multiplicativity of the determinant on plain scalars. */
  lemma DetMulScalars(a00: real, a01: real, a02: real, a10: real, a11: real, a12: real, a20: real, a21: real, a22: real,
                      b00: real, b01: real, b02: real, b10: real, b11: real, b12: real, b20: real, b21: real, b22: real)
    ensures Det9(b00*a00 + b10*a01 + b20*a02, b01*a00 + b11*a01 + b21*a02, b02*a00 + b12*a01 + b22*a02,
                 b00*a10 + b10*a11 + b20*a12, b01*a10 + b11*a11 + b21*a12, b02*a10 + b12*a11 + b22*a12,
                 b00*a20 + b10*a21 + b20*a22, b01*a20 + b11*a21 + b21*a22, b02*a20 + b12*a21 + b22*a22)
         == Det9(a00, a01, a02, a10, a11, a12, a20, a21, a22) * Det9(b00, b01, b02, b10, b11, b12, b20, b21, b22)
  {
  }

  /** Row `u` of a product, `bᵀ u`, with its entries spelled out. */
  lemma ProductRowEntries(u: Vec3, b: Mat3)
    ensures MulVec(Transpose(b), u) == Vec3(b.r0.x * u.x + b.r1.x * u.y + b.r2.x * u.z,
                                            b.r0.y * u.x + b.r1.y * u.y + b.r2.y * u.z,
                                            b.r0.z * u.x + b.r1.z * u.y + b.r2.z * u.z)
  {
  }

  /** The nine entries of `a @ b`, spelled out. */
  lemma MulEntries(a: Mat3, b: Mat3)
    ensures Mul(a, b).r0.x == b.r0.x*a.r0.x + b.r1.x*a.r0.y + b.r2.x*a.r0.z
    ensures Mul(a, b).r0.y == b.r0.y*a.r0.x + b.r1.y*a.r0.y + b.r2.y*a.r0.z
    ensures Mul(a, b).r0.z == b.r0.z*a.r0.x + b.r1.z*a.r0.y + b.r2.z*a.r0.z
    ensures Mul(a, b).r1.x == b.r0.x*a.r1.x + b.r1.x*a.r1.y + b.r2.x*a.r1.z
    ensures Mul(a, b).r1.y == b.r0.y*a.r1.x + b.r1.y*a.r1.y + b.r2.y*a.r1.z
    ensures Mul(a, b).r1.z == b.r0.z*a.r1.x + b.r1.z*a.r1.y + b.r2.z*a.r1.z
    ensures Mul(a, b).r2.x == b.r0.x*a.r2.x + b.r1.x*a.r2.y + b.r2.x*a.r2.z
    ensures Mul(a, b).r2.y == b.r0.y*a.r2.x + b.r1.y*a.r2.y + b.r2.y*a.r2.z
    ensures Mul(a, b).r2.z == b.r0.z*a.r2.x + b.r1.z*a.r2.y + b.r2.z*a.r2.z
  {
    MulRows(a, b);
    ProductRowEntries(a.r0, b);
    ProductRowEntries(a.r1, b);
    ProductRowEntries(a.r2, b);
  }

  /** The determinant is multiplicative. */
  lemma DetMul(a: Mat3, b: Mat3)
    ensures Det(Mul(a, b)) == Times(Det(a), Det(b))
  {
    MulEntries(a, b);
    DetAsScalars(a);
    DetAsScalars(b);
    DetAsScalars(Mul(a, b));
    DetMulScalars(a.r0.x, a.r0.y, a.r0.z, a.r1.x, a.r1.y, a.r1.z, a.r2.x, a.r2.y, a.r2.z,
                  b.r0.x, b.r0.y, b.r0.z, b.r1.x, b.r1.y, b.r1.z, b.r2.x, b.r2.y, b.r2.z);
  }

  /** The scalar triple product is invariant under cyclic shifts. */
  lemma TripleCyclic(u: Vec3, v: Vec3, w: Vec3)
    ensures Dot(u, Cross(v, w)) == Dot(v, Cross(w, u))
  {
  }

  /** The scalar triple product vanishes when a vector repeats. */
  lemma TripleRepeat(u: Vec3, v: Vec3)
    ensures Dot(u, Cross(u, v)) == 0.0
    ensures Dot(u, Cross(v, u)) == 0.0
  {
  }

  /** `m · adj(m) = det(m) · I`. */
  lemma AdjRight(m: Mat3)
    ensures Mul(m, Adj(m)) == ScaleMat(Det(m), Identity)
  {
    var c0, c1, c2 := Cross(m.r1, m.r2), Cross(m.r2, m.r0), Cross(m.r0, m.r1);
    TransposeTwice(Mat3(c0, c1, c2));
    MulRows(m, Adj(m));
    MulVecParts(Mat3(c0, c1, c2), m.r0);
    MulVecParts(Mat3(c0, c1, c2), m.r1);
    MulVecParts(Mat3(c0, c1, c2), m.r2);
    DotComm(c0, m.r0); DotComm(c1, m.r0); DotComm(c2, m.r0);
    DotComm(c0, m.r1); DotComm(c1, m.r1); DotComm(c2, m.r1);
    DotComm(c0, m.r2); DotComm(c1, m.r2); DotComm(c2, m.r2);
    TripleCyclic(m.r0, m.r1, m.r2);
    TripleCyclic(m.r1, m.r2, m.r0);
    TripleRepeat(m.r0, m.r1);
    TripleRepeat(m.r0, m.r2);
    TripleRepeat(m.r1, m.r0);
    TripleRepeat(m.r1, m.r2);
    TripleRepeat(m.r2, m.r0);
    TripleRepeat(m.r2, m.r1);
    ScaleMatRows(Det(m), Identity);
  }

  lemma DetIdentity()
    ensures Det(Identity) == 1.0
  {
  }

  /** A matrix with orthonormal columns has determinant `1` or `-1`. */
  lemma DetSquare(m: Mat3)
    requires OrthonormalColumns(m)
    ensures Times(Det(m), Det(m)) == 1.0
  {
    DetMul(Transpose(m), m);
    DetTranspose(m);
    DetIdentity();
  }

  /** Undoing a scaling by a nonzero factor. */
  lemma ScaleIdentityInverse(d: real)
    requires d != 0.0
    ensures ScaleMat(1.0 / d, ScaleMat(d, Identity)) == Identity
  {
    ScaleMatRows(d, Identity);
    ScaleMatRows(1.0 / d, ScaleMat(d, Identity));
  }

  /** An invertible matrix has `adj(m) / det(m)` as a right inverse. */
  lemma AdjInverse(m: Mat3)
    requires Det(m) != 0.0
    ensures Mul(m, ScaleMat(1.0 / Det(m), Adj(m))) == Identity
  {
    var d := Det(m);
    MulScaleRight(m, 1.0 / d, Adj(m));
    AdjRight(m);
    ScaleIdentityInverse(d);
  }

  /** For a square matrix a left inverse is also a right inverse: if the
      columns are orthonormal, so are the rows. */
  lemma ColumnsToRows(m: Mat3)
    requires OrthonormalColumns(m)
    ensures OrthonormalRows(m)
  {
    var t := Transpose(m);
    DetSquare(m);
    var inv := ScaleMat(1.0 / Det(m), Adj(m));
    AdjInverse(m);
    calc {
      t;
      { MulIdentity(t); }
      Mul(t, Identity);
      Mul(t, Mul(m, inv));
      { MulAssoc(t, m, inv); }
      Mul(Mul(t, m), inv);
      Mul(Identity, inv);
      { MulIdentity(inv); }
      inv;
    }
  }

  /** Orthonormal columns are preserved by products. */
  lemma ProductColumns(a: Mat3, b: Mat3)
    requires OrthonormalColumns(a) && OrthonormalColumns(b)
    ensures OrthonormalColumns(Mul(a, b))
  {
    calc {
      Mul(Transpose(Mul(a, b)), Mul(a, b));
      { TransposeOfProduct(a, b); }
      Mul(Mul(Transpose(b), Transpose(a)), Mul(a, b));
      { MulAssoc(Transpose(b), Transpose(a), Mul(a, b)); }
      Mul(Transpose(b), Mul(Transpose(a), Mul(a, b)));
      { MulAssoc(Transpose(a), a, b); }
      Mul(Transpose(b), Mul(Mul(Transpose(a), a), b));
      { MulIdentity(b); }
      Mul(Transpose(b), b);
    }
  }

  /** Rotations are closed under products. */
  lemma ProductIsRotation(a: Mat3, b: Mat3)
    requires IsRotation(a) && IsRotation(b)
    ensures IsRotation(Mul(a, b))
  {
    ProductColumns(a, b);
    ColumnsToRows(Mul(a, b));
    DetMul(a, b);
  }

  /** A matrix with orthonormal columns and determinant one is a rotation. */
  lemma RotationFromColumns(m: Mat3)
    requires OrthonormalColumns(m) && Det(m) == 1.0
    ensures IsRotation(m)
  {
    ColumnsToRows(m);
  }

  /** The standard basis is orthonormal. */
  lemma BasisOrthonormal()
    ensures Orthonormal(E1, E2, E3)
  {
  }

  lemma IdentityIsRotation()
    ensures IsRotation(Identity)
  {
    TransposeIdentity();
    MulIdentity(Identity);
    DetIdentity();
    RotationFromColumns(Identity);
  }

  /** The Gram matrix of the columns: `mᵀ·m` for `m` with columns `u, v, w`
      holds the pairwise dot products, so orthonormal columns are exactly
      orthonormal vectors. */
  lemma GramOfColumns(u: Vec3, v: Vec3, w: Vec3)
    ensures OrthonormalColumns(FromColumns(u, v, w)) <==> Orthonormal(u, v, w)
  {
    var m := FromColumns(u, v, w);
    TransposeTwice(Mat3(u, v, w));
    MulRows(Transpose(m), m);
    MulVecParts(Mat3(u, v, w), u);
    MulVecParts(Mat3(u, v, w), v);
    MulVecParts(Mat3(u, v, w), w);
    DotComm(u, v); DotComm(v, w); DotComm(w, u);
  }

  /** Multiplying a matrix given by columns transforms each column. */
  lemma MulFromColumns(m: Mat3, u: Vec3, v: Vec3, w: Vec3)
    ensures Mul(m, FromColumns(u, v, w)) == FromColumns(MulVec(m, u), MulVec(m, v), MulVec(m, w))
  {
    TransposeTwice(Mat3(u, v, w));
    MulRows(m, FromColumns(u, v, w));
    MulVecParts(Mat3(u, v, w), m.r0);
    MulVecParts(Mat3(u, v, w), m.r1);
    MulVecParts(Mat3(u, v, w), m.r2);
    MulVecParts(m, u);
    MulVecParts(m, v);
    MulVecParts(m, w);
    DotComm(u, m.r0); DotComm(v, m.r0); DotComm(w, m.r0);
    DotComm(u, m.r1); DotComm(v, m.r1); DotComm(w, m.r1);
    DotComm(u, m.r2); DotComm(v, m.r2); DotComm(w, m.r2);
  }
}
