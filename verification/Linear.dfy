/** Vectors, 3x3 matrices stored by columns, rotations and rigid poses over the reals. */
module Linear {
  import opened Numeric

  datatype Vec = Vec(x: real, y: real, z: real)

  const ZERO := Vec(0.0, 0.0, 0.0)
  const E1 := Vec(1.0, 0.0, 0.0)
  const E2 := Vec(0.0, 1.0, 0.0)
  const E3 := Vec(0.0, 0.0, 1.0)

  function Add(u: Vec, v: Vec): Vec { Vec(u.x + v.x, u.y + v.y, u.z + v.z) }

  function Sub(u: Vec, v: Vec): Vec { Vec(u.x - v.x, u.y - v.y, u.z - v.z) }

  function Scale(k: real, v: Vec): Vec { Vec(k * v.x, k * v.y, k * v.z) }

  function Dot(u: Vec, v: Vec): real { u.x * v.x + u.y * v.y + u.z * v.z }

  function Cross(u: Vec, v: Vec): Vec {
    Vec(u.y * v.z - u.z * v.y, u.z * v.x - u.x * v.z, u.x * v.y - u.y * v.x)
  }

  /** The matrix whose columns are c1, c2, c3. */
  datatype Mat = Mat(c1: Vec, c2: Vec, c3: Vec)

  const IDENTITY := Mat(E1, E2, E3)

  function Apply(a: Mat, v: Vec): Vec {
    Vec(a.c1.x * v.x + a.c2.x * v.y + a.c3.x * v.z,
        a.c1.y * v.x + a.c2.y * v.y + a.c3.y * v.z,
        a.c1.z * v.x + a.c2.z * v.y + a.c3.z * v.z)
  }

  function Mul(a: Mat, b: Mat): Mat { Mat(Apply(a, b.c1), Apply(a, b.c2), Apply(a, b.c3)) }

  function Transpose(a: Mat): Mat {
    Mat(Vec(a.c1.x, a.c2.x, a.c3.x), Vec(a.c1.y, a.c2.y, a.c3.y), Vec(a.c1.z, a.c2.z, a.c3.z))
  }

  function Det(a: Mat): real { Dot(Cross(a.c1, a.c2), a.c3) }

  function Trace(a: Mat): real { a.c1.x + a.c2.y + a.c3.z }

  predicate Orthonormal(a: Mat) {
    && Dot(a.c1, a.c1) == 1.0 && Dot(a.c2, a.c2) == 1.0 && Dot(a.c3, a.c3) == 1.0
    && Dot(a.c1, a.c2) == 0.0 && Dot(a.c2, a.c3) == 0.0 && Dot(a.c3, a.c1) == 0.0
  }

  /** A proper rotation: orthonormal columns and determinant one. */
  predicate Rotation(a: Mat) { Orthonormal(a) && Det(a) == 1.0 }

  // ------------------------------------------------------------ vectors

  lemma SquareZero(x: real)
    requires x * x == 0.0
    ensures x == 0.0
  {
    if x > 0.0 { ProductPositive(x, x, x * x); }
    if x < 0.0 { ProductPositive(-x, -x, x * x); }
  }

  lemma SquareNonneg(x: real)
    ensures x * x >= 0.0
  {
    if x >= 0.0 { MulNonneg(x, x); } else { MulNonneg(-x, -x); }
  }

  lemma NormNonneg(v: Vec)
    ensures Dot(v, v) >= 0.0
  {
    SquareNonneg(v.x);
    SquareNonneg(v.y);
    SquareNonneg(v.z);
  }

  lemma NormZero(v: Vec)
    requires Dot(v, v) == 0.0
    ensures v == ZERO
  {
    SquareNonneg(v.x);
    SquareNonneg(v.y);
    SquareNonneg(v.z);
    SquareZero(v.x);
    SquareZero(v.y);
    SquareZero(v.z);
  }

  lemma DotScale(k: real, u: Vec, v: Vec)
    ensures Dot(Scale(k, u), v) == k * Dot(u, v) == Dot(u, Scale(k, v))
  {
  }

  lemma DotAdd(u: Vec, v: Vec, w: Vec)
    ensures Dot(u, Add(v, w)) == Dot(u, v) + Dot(u, w)
    ensures Dot(u, Sub(v, w)) == Dot(u, v) - Dot(u, w)
  {
  }

  lemma DotSub(u: Vec, v: Vec)
    ensures Dot(Sub(u, v), Sub(u, v)) == Dot(u, u) - 2.0 * Dot(u, v) + Dot(v, v)
  {
  }

  lemma Lagrange(u: Vec, v: Vec)
    ensures Dot(Cross(u, v), Cross(u, v)) == Dot(u, u) * Dot(v, v) - Dot(u, v) * Dot(u, v)
  {
  }

  lemma CrossOrthogonal(u: Vec, v: Vec)
    ensures Dot(Cross(u, v), u) == 0.0 && Dot(Cross(u, v), v) == 0.0
  {
  }

  lemma DetCyclic(a: Mat)
    ensures Dot(Cross(a.c2, a.c3), a.c1) == Det(a) == Dot(Cross(a.c3, a.c1), a.c2)
  {
  }

  lemma AddAssociative(u: Vec, v: Vec, w: Vec)
    ensures Add(Add(u, v), w) == Add(u, Add(v, w))
  {
  }

  lemma Distribute(w: real, u: real, v: real, k: real)
    requires w == u + v
    ensures k * w == k * u + k * v && w * k == u * k + v * k
  {
  }

  /** The vector triple product. */
  lemma TripleProduct(u: Vec, v: Vec, w: Vec)
    ensures Cross(Cross(u, v), w) == Sub(Scale(Dot(u, w), v), Scale(Dot(v, w), u))
  {
    var n := Cross(u, v);
    var d, e := Dot(u, w), Dot(v, w);
    TripleComponent(u.x, u.y, u.z, v.x, v.y, v.z, w.x, w.y, w.z, n.y, n.z, d, e);
    TripleComponent(u.y, u.z, u.x, v.y, v.z, v.x, w.y, w.z, w.x, n.z, n.x, d, e);
    TripleComponent(u.z, u.x, u.y, v.z, v.x, v.y, w.z, w.x, w.y, n.x, n.y, d, e);
    hide Dot;
    CrossComponents(n, w, d, e, u, v);
  }

  lemma CrossComponents(n: Vec, w: Vec, d: real, e: real, u: Vec, v: Vec)
    requires n.y * w.z - n.z * w.y == d * v.x - e * u.x
    requires n.z * w.x - n.x * w.z == d * v.y - e * u.y
    requires n.x * w.y - n.y * w.x == d * v.z - e * u.z
    ensures Cross(n, w) == Sub(Scale(d, v), Scale(e, u))
  {
  }

  lemma TripleComponent(u1: real, u2: real, u3: real, v1: real, v2: real, v3: real,
                        w1: real, w2: real, w3: real, n2: real, n3: real, d: real, e: real)
    requires n2 == u3 * v1 - u1 * v3 && n3 == u1 * v2 - u2 * v1
    requires d == u1 * w1 + u2 * w2 + u3 * w3 && e == v1 * w1 + v2 * w2 + v3 * w3
    ensures n2 * w3 - n3 * w2 == d * v1 - e * u1
  {
    assert n2 * w3 == (u3 * v1 - u1 * v3) * w3;
    assert n3 * w2 == (u1 * v2 - u2 * v1) * w2;
    assert d * v1 == (u1 * w1 + u2 * w2 + u3 * w3) * v1;
    assert e * u1 == (v1 * w1 + v2 * w2 + v3 * w3) * u1;
  }

  // ------------------------------------------------------------ matrices

  lemma ApplyTranspose(a: Mat, v: Vec)
    ensures Apply(Transpose(a), v) == Vec(Dot(a.c1, v), Dot(a.c2, v), Dot(a.c3, v))
  {
  }

  lemma TransposeTwice(a: Mat)
    ensures Transpose(Transpose(a)) == a
  {
  }

  lemma ApplyAdd(a: Mat, u: Vec, v: Vec)
    ensures Apply(a, Add(u, v)) == Add(Apply(a, u), Apply(a, v))
  {
    var t := Transpose(a);
    TransposeTwice(a);
    ApplyTranspose(t, u);
    ApplyTranspose(t, v);
    ApplyTranspose(t, Add(u, v));
    DotAdd(t.c1, u, v);
    DotAdd(t.c2, u, v);
    DotAdd(t.c3, u, v);
    hide Dot, Apply, Transpose;
  }

  lemma ApplyScale(a: Mat, k: real, v: Vec)
    ensures Apply(a, Scale(k, v)) == Scale(k, Apply(a, v))
  {
    var t := Transpose(a);
    TransposeTwice(a);
    ApplyTranspose(t, v);
    ApplyTranspose(t, Scale(k, v));
    DotScale(k, t.c1, v);
    DotScale(k, t.c2, v);
    DotScale(k, t.c3, v);
    hide Dot, Apply, Transpose;
  }

  /** A v is the combination of the columns of A with weights v. */
  function Combine(a: Mat, v: Vec): Vec {
    Add(Add(Scale(v.x, a.c1), Scale(v.y, a.c2)), Scale(v.z, a.c3))
  }

  lemma ApplyIsCombine(a: Mat, v: Vec)
    ensures Apply(a, v) == Combine(a, v)
  {
  }

  lemma ApplyMul(a: Mat, b: Mat, v: Vec)
    ensures Apply(Mul(a, b), v) == Apply(a, Apply(b, v))
  {
    ApplyIsCombine(b, v);
    ApplyIsCombine(Mul(a, b), v);
    ApplyAdd(a, Add(Scale(v.x, b.c1), Scale(v.y, b.c2)), Scale(v.z, b.c3));
    ApplyAdd(a, Scale(v.x, b.c1), Scale(v.y, b.c2));
    ApplyScale(a, v.x, b.c1);
    ApplyScale(a, v.y, b.c2);
    ApplyScale(a, v.z, b.c3);
    hide Add, Scale, Apply;
  }

  lemma MulAssociative(a: Mat, b: Mat, c: Mat)
    ensures Mul(Mul(a, b), c) == Mul(a, Mul(b, c))
  {
    hide Apply;
    ApplyMul(a, b, c.c1);
    ApplyMul(a, b, c.c2);
    ApplyMul(a, b, c.c3);
  }

  lemma ApplyIdentity(v: Vec)
    ensures Apply(IDENTITY, v) == v
  {
  }

  lemma ApplyUnits(a: Mat)
    ensures Apply(a, E1) == a.c1 && Apply(a, E2) == a.c2 && Apply(a, E3) == a.c3
  {
  }

  lemma MulIdentity(a: Mat)
    ensures Mul(a, IDENTITY) == a == Mul(IDENTITY, a)
  {
    ApplyUnits(a);
    ApplyIdentity(a.c1);
    ApplyIdentity(a.c2);
    ApplyIdentity(a.c3);
    hide Apply;
  }

  lemma DotCommutes(u: Vec, v: Vec)
    ensures Dot(u, v) == Dot(v, u)
  {
  }

  lemma GramEntries(a: Mat)
    ensures Mul(Transpose(a), a) == Mat(
      Vec(Dot(a.c1, a.c1), Dot(a.c1, a.c2), Dot(a.c3, a.c1)),
      Vec(Dot(a.c1, a.c2), Dot(a.c2, a.c2), Dot(a.c2, a.c3)),
      Vec(Dot(a.c3, a.c1), Dot(a.c2, a.c3), Dot(a.c3, a.c3)))
  {
    ApplyTranspose(a, a.c1);
    ApplyTranspose(a, a.c2);
    ApplyTranspose(a, a.c3);
    DotCommutes(a.c1, a.c2);
    DotCommutes(a.c2, a.c3);
    DotCommutes(a.c3, a.c1);
    hide Apply, Dot, Transpose;
  }

  // ------------------------------------------------------------ the rotation group

  lemma ThirdColumn(u: Vec, v: Vec, w: Vec)
    requires Dot(u, u) == 1.0 && Dot(v, v) == 1.0 && Dot(w, w) == 1.0 && Dot(u, v) == 0.0
    requires Dot(Cross(u, v), w) == 1.0
    ensures Cross(u, v) == w
  {
    hide Dot, Cross;
    var n := Cross(u, v);
    Lagrange(u, v);
    DotSub(n, w);
    NormZero(Sub(n, w));
    SubZero(n, w);
  }

  lemma SubSelf(v: Vec)
    ensures Sub(v, v) == ZERO
  {
  }

  lemma AddSub(u: Vec, v: Vec)
    ensures Add(u, Sub(v, u)) == v
  {
  }

  lemma AddZero(v: Vec)
    ensures Add(ZERO, v) == v == Add(v, ZERO)
  {
  }

  lemma ApplyZero(a: Mat)
    ensures Apply(a, ZERO) == ZERO
  {
  }

  lemma SubZero(u: Vec, v: Vec)
    requires Sub(u, v) == ZERO
    ensures u == v
  {
  }

  /** Each column of a rotation is the cross product of the other two. */
  lemma RotationColumns(a: Mat)
    requires Rotation(a)
    ensures Cross(a.c1, a.c2) == a.c3 && Cross(a.c2, a.c3) == a.c1 && Cross(a.c3, a.c1) == a.c2
  {
    hide Dot, Cross;
    DetCyclic(a);
    ThirdColumn(a.c1, a.c2, a.c3);
    ThirdColumn(a.c2, a.c3, a.c1);
    ThirdColumn(a.c3, a.c1, a.c2);
  }

  lemma RightHanded(u: Vec, v: Vec)
    requires Dot(u, u) == 1.0 && Dot(v, v) == 1.0 && Dot(u, v) == 0.0
    ensures Rotation(Mat(u, v, Cross(u, v)))
  {
    hide Dot, Cross;
    var n := Cross(u, v);
    Lagrange(u, v);
    CrossOrthogonal(u, v);
    DotCommutes(v, n);
  }

  /** The columns of a rotation span: only zero is orthogonal to all three. */
  lemma ColumnsSpan(a: Mat, w: Vec)
    requires Rotation(a) && Dot(a.c1, w) == 0.0 && Dot(a.c2, w) == 0.0 && Dot(a.c3, w) == 0.0
    ensures w == ZERO
  {
    hide Dot, Cross;
    RotationColumns(a);
    TripleProduct(a.c1, a.c2, w);
    assert Cross(a.c3, w) == ZERO by { SubScaleZero(a.c2, a.c1); }
    Lagrange(a.c3, w);
    DotZero();
    NormZero(w);
  }

  lemma SubScaleZero(u: Vec, v: Vec)
    ensures Sub(Scale(0.0, u), Scale(0.0, v)) == ZERO
  {
  }

  lemma DotZero()
    ensures Dot(ZERO, ZERO) == 0.0
  {
  }

  lemma DotCombine(a: Mat, u: Vec, v: Vec)
    ensures Dot(u, Apply(a, v)) == v.x * Dot(u, a.c1) + v.y * Dot(u, a.c2) + v.z * Dot(u, a.c3)
  {
    ApplyIsCombine(a, v);
    DotAdd(u, Add(Scale(v.x, a.c1), Scale(v.y, a.c2)), Scale(v.z, a.c3));
    DotAdd(u, Scale(v.x, a.c1), Scale(v.y, a.c2));
    DotScale(v.x, a.c1, u);
    DotScale(v.y, a.c2, u);
    DotScale(v.z, a.c3, u);
    DotCommutes(u, Scale(v.x, a.c1));
    DotCommutes(u, Scale(v.y, a.c2));
    DotCommutes(u, Scale(v.z, a.c3));
    DotCommutes(u, a.c1);
    DotCommutes(u, a.c2);
    DotCommutes(u, a.c3);
    hide Dot, Add, Scale, Apply;
  }

  /** A rotation's transpose undoes it. */
  lemma TransposeApply(a: Mat, v: Vec)
    requires Rotation(a)
    ensures Apply(Transpose(a), Apply(a, v)) == v
  {
    hide Dot, Apply;
    DotCombine(a, a.c1, v);
    DotCombine(a, a.c2, v);
    DotCombine(a, a.c3, v);
    DotCommutes(a.c1, a.c2);
    DotCommutes(a.c2, a.c3);
    DotCommutes(a.c3, a.c1);
    ApplyTranspose(a, Apply(a, v));
  }

  /** And a rotation undoes its transpose. */
  lemma ApplyUndoes(a: Mat, v: Vec)
    requires Rotation(a)
    ensures Apply(a, Apply(Transpose(a), v)) == v
  {
    var back := Apply(a, Apply(Transpose(a), v));
    TransposeApply(a, Apply(Transpose(a), v));
    ApplyTranspose(a, back);
    ApplyTranspose(a, v);
    hide Dot, Apply;
    DotAdd(a.c1, back, v);
    DotAdd(a.c2, back, v);
    DotAdd(a.c3, back, v);
    ColumnsSpan(a, Sub(back, v));
    SubZero(back, v);
  }

  lemma MulTranspose(a: Mat)
    requires Rotation(a)
    ensures Mul(a, Transpose(a)) == IDENTITY && Mul(Transpose(a), a) == IDENTITY
  {
    hide Dot, Apply;
    GramEntries(a);
    ApplyUnits(Transpose(a));
    ApplyUndoes(a, E1);
    ApplyUndoes(a, E2);
    ApplyUndoes(a, E3);
  }

  lemma ApplyDot(a: Mat, u: Vec, v: Vec)
    ensures Dot(Apply(a, u), v) == Dot(u, Apply(Transpose(a), v))
  {
    DotCombine(a, v, u);
    ApplyTranspose(a, v);
    DotCommutes(Apply(a, u), v);
    DotCommutes(v, a.c1);
    DotCommutes(v, a.c2);
    DotCommutes(v, a.c3);
    hide Apply;
  }

  /** Rotations keep lengths and angles. */
  lemma RotationKeepsDot(a: Mat, u: Vec, v: Vec)
    requires Rotation(a)
    ensures Dot(Apply(a, u), Apply(a, v)) == Dot(u, v)
  {
    hide *;
    ApplyDot(a, u, Apply(a, v));
    TransposeApply(a, v);
  }

  lemma CrossAdd(u: Vec, v: Vec, w: Vec)
    ensures Cross(Add(u, v), w) == Add(Cross(u, w), Cross(v, w))
  {
  }

  predicate Minor(a: real, b: real, c: real, d: real, e: real) { a * b - c * d == e }

  lemma CrossIs(u: Vec, v: Vec, w: Vec)
    requires Minor(u.y, v.z, u.z, v.y, w.x) && Minor(u.z, v.x, u.x, v.z, w.y) && Minor(u.x, v.y, u.y, v.x, w.z)
    ensures Cross(u, v) == w
  {
  }

  lemma CrossScale(k: real, u: Vec, w: Vec)
    ensures Cross(Scale(k, u), w) == Scale(k, Cross(u, w))
  {
    var m, n := Scale(k, u), Cross(u, w);
    CrossEntries(u, w);
    hide Minor, Cross;
    ScaledMinor(k, u.y, u.z, w.z, w.y, m.y, m.z, n.x);
    ScaledMinor(k, u.z, u.x, w.x, w.z, m.z, m.x, n.y);
    ScaledMinor(k, u.x, u.y, w.y, w.x, m.x, m.y, n.z);
    CrossIs(m, w, Scale(k, n));
  }

  lemma CrossEntries(u: Vec, v: Vec)
    ensures var w := Cross(u, v);
      Minor(u.y, v.z, u.z, v.y, w.x) && Minor(u.z, v.x, u.x, v.z, w.y) && Minor(u.x, v.y, u.y, v.x, w.z)
  {
  }

  lemma ScaledMinor(k: real, p: real, q: real, r: real, s: real, kp: real, kq: real, m: real)
    requires kp == k * p && kq == k * q && Minor(p, r, q, s, m)
    ensures Minor(kp, r, kq, s, k * m)
  {
  }

  lemma CrossFlip(u: Vec, w: Vec)
    ensures Cross(w, u) == Scale(-1.0, Cross(u, w))
  {
  }

  lemma CrossCombine(a: Mat, v: Vec, w: Vec)
    ensures Cross(Combine(a, v), w) ==
      Combine(Mat(Cross(a.c1, w), Cross(a.c2, w), Cross(a.c3, w)), v)
  {
    hide Cross, Add, Scale;
    CrossAdd(Add(Scale(v.x, a.c1), Scale(v.y, a.c2)), Scale(v.z, a.c3), w);
    CrossAdd(Scale(v.x, a.c1), Scale(v.y, a.c2), w);
    CrossScale(v.x, a.c1, w);
    CrossScale(v.y, a.c2, w);
    CrossScale(v.z, a.c3, w);
  }

  lemma CombineCross1(c1: Vec, c2: Vec, c3: Vec, v: Vec)
    ensures Scale(-1.0, Combine(Mat(ZERO, Scale(-1.0, c3), c2), v)) == Combine(Mat(c1, c2, c3), Cross(E1, v))
  {
    UnitCross(v);
    hide Cross;
    CombineComponents(c1.x, c2.x, c3.x, v);
    CombineComponents(c1.y, c2.y, c3.y, v);
    CombineComponents(c1.z, c2.z, c3.z, v);
  }

  lemma CombineCross2(c1: Vec, c2: Vec, c3: Vec, v: Vec)
    ensures Scale(-1.0, Combine(Mat(c3, ZERO, Scale(-1.0, c1)), v)) == Combine(Mat(c1, c2, c3), Cross(E2, v))
  {
    UnitCross(v);
    hide Cross;
    CombineComponents(c1.x, c2.x, c3.x, v);
    CombineComponents(c1.y, c2.y, c3.y, v);
    CombineComponents(c1.z, c2.z, c3.z, v);
  }

  lemma CombineCross3(c1: Vec, c2: Vec, c3: Vec, v: Vec)
    ensures Scale(-1.0, Combine(Mat(Scale(-1.0, c2), c1, ZERO), v)) == Combine(Mat(c1, c2, c3), Cross(E3, v))
  {
    UnitCross(v);
    hide Cross;
    CombineComponents(c1.x, c2.x, c3.x, v);
    CombineComponents(c1.y, c2.y, c3.y, v);
    CombineComponents(c1.z, c2.z, c3.z, v);
  }

  lemma UnitCross(v: Vec)
    ensures Cross(E1, v) == Vec(0.0, -v.z, v.y)
    ensures Cross(E2, v) == Vec(v.z, 0.0, -v.x)
    ensures Cross(E3, v) == Vec(-v.y, v.x, 0.0)
  {
  }

  lemma CombineComponents(p: real, q: real, r: real, v: Vec)
    ensures -1.0 * (v.x * 0.0 + v.y * (-1.0 * r) + v.z * q) == 0.0 * p + -v.z * q + v.y * r
    ensures -1.0 * (v.x * r + v.y * 0.0 + v.z * (-1.0 * p)) == v.z * p + 0.0 * q + -v.x * r
    ensures -1.0 * (v.x * (-1.0 * q) + v.y * p + v.z * 0.0) == -v.y * p + v.x * q + 0.0 * r
  {
  }

  lemma CrossSelf(u: Vec)
    ensures Cross(u, u) == ZERO
  {
  }

  lemma ColumnCross(a: Mat, v: Vec)
    requires Rotation(a)
    ensures Cross(a.c1, Apply(a, v)) == Apply(a, Cross(E1, v))
    ensures Cross(a.c2, Apply(a, v)) == Apply(a, Cross(E2, v))
    ensures Cross(a.c3, Apply(a, v)) == Apply(a, Cross(E3, v))
  {
    hide Cross, Apply, Combine, Scale;
    RotationColumns(a);
    ApplyIsCombine(a, v);
    ApplyIsCombine(a, Cross(E1, v));
    ApplyIsCombine(a, Cross(E2, v));
    ApplyIsCombine(a, Cross(E3, v));
    CombineCross1(a.c1, a.c2, a.c3, v);
    CombineCross2(a.c1, a.c2, a.c3, v);
    CombineCross3(a.c1, a.c2, a.c3, v);
    CrossCombine(a, v, a.c1);
    CrossCombine(a, v, a.c2);
    CrossCombine(a, v, a.c3);
    CrossSelf(a.c1);
    CrossSelf(a.c2);
    CrossSelf(a.c3);
    CrossFlip(a.c1, a.c2);
    CrossFlip(a.c2, a.c3);
    CrossFlip(a.c3, a.c1);
    CrossFlip(Apply(a, v), a.c1);
    CrossFlip(Apply(a, v), a.c2);
    CrossFlip(Apply(a, v), a.c3);
  }

  function CrossRight(v: Vec): Mat { Mat(Cross(E1, v), Cross(E2, v), Cross(E3, v)) }

  lemma CrossRightApplies(u: Vec, v: Vec)
    ensures Apply(CrossRight(v), u) == Cross(u, v)
  {
  }

  /** Rotations keep cross products. */
  lemma RotationKeepsCross(a: Mat, u: Vec, v: Vec)
    requires Rotation(a)
    ensures Cross(Apply(a, u), Apply(a, v)) == Apply(a, Cross(u, v))
  {
    hide Cross, Apply, Combine, Rotation;
    ApplyIsCombine(a, u);
    CrossCombine(a, u, Apply(a, v));
    ColumnCross(a, v);
    ApplyMul(a, CrossRight(v), u);
    ApplyIsCombine(Mul(a, CrossRight(v)), u);
    CrossRightApplies(u, v);
  }

  /** The product of two rotations is a rotation. */
  lemma RotationMul(a: Mat, b: Mat)
    requires Rotation(a) && Rotation(b)
    ensures Rotation(Mul(a, b))
  {
    hide Apply;
    RotationKeepsDot(a, b.c1, b.c1);
    RotationKeepsDot(a, b.c2, b.c2);
    RotationKeepsDot(a, b.c1, b.c2);
    RotationKeepsCross(a, b.c1, b.c2);
    RotationColumns(b);
    hide Dot, Cross;
    RightHanded(Apply(a, b.c1), Apply(a, b.c2));
  }

  function DetExpanded(a: Mat): real {
    a.c1.y * a.c2.z * a.c3.x - a.c1.z * a.c2.y * a.c3.x + a.c1.z * a.c2.x * a.c3.y
    - a.c1.x * a.c2.z * a.c3.y + a.c1.x * a.c2.y * a.c3.z - a.c1.y * a.c2.x * a.c3.z
  }

  lemma DetExpands(a: Mat)
    ensures Det(a) == DetExpanded(a)
  {
  }

  lemma DetTranspose(a: Mat)
    ensures Det(Transpose(a)) == Det(a)
  {
    DetExpands(a);
    DetExpands(Transpose(a));
    hide Det;
  }

  lemma RotationTranspose(a: Mat)
    requires Rotation(a)
    ensures Rotation(Transpose(a))
  {
    MulTranspose(a);
    GramEntries(Transpose(a));
    TransposeTwice(a);
    DetTranspose(a);
    hide Dot, Det, Mul;
  }

  lemma UnitVectors()
    ensures Dot(E1, E1) == 1.0 && Dot(E2, E2) == 1.0 && Dot(E1, E2) == 0.0 && Cross(E1, E2) == E3
  {
    UnitCross(E2);
  }

  lemma IdentityRotation()
    ensures Rotation(IDENTITY)
  {
    UnitVectors();
    hide Dot, Cross;
    RightHanded(E1, E2);
  }

  // ------------------------------------------------------------ rigid poses

  /** A homogeneous transform whose last row is 0 0 0 1. */
  datatype Pose = Pose(rot: Mat, pos: Vec)

  const ORIGIN := Pose(IDENTITY, ZERO)

  function Compose(s: Pose, t: Pose): Pose { Pose(Mul(s.rot, t.rot), Add(Apply(s.rot, t.pos), s.pos)) }

  predicate Rigid(t: Pose) { Rotation(t.rot) }

  lemma ComposeRigid(s: Pose, t: Pose)
    requires Rigid(s) && Rigid(t)
    ensures Rigid(Compose(s, t))
  {
    RotationMul(s.rot, t.rot);
    hide Rotation;
  }

  lemma ComposeAssociative(r: Pose, s: Pose, t: Pose)
    ensures Compose(Compose(r, s), t) == Compose(r, Compose(s, t))
  {
    MulAssociative(r.rot, s.rot, t.rot);
    ApplyMul(r.rot, s.rot, t.pos);
    ApplyAdd(r.rot, Apply(s.rot, t.pos), s.pos);
    AddAssociative(Apply(r.rot, Apply(s.rot, t.pos)), Apply(r.rot, s.pos), r.pos);
    hide Apply, Mul, Add;
  }
}
