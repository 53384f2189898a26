/**
 * kinematics/rotations.py quat_to_rot and control_loop.py _mat_to_quat: the two conversions between
 * quaternions (scalar last) and rotation matrices, and their round trips.
 */
module Quaternions {
  import opened Numeric
  import opened Linear

  datatype Quat = Quat(x: real, y: real, z: real, w: real)

  function Norm2(q: Quat): real { q.x * q.x + q.y * q.y + q.z * q.z + q.w * q.w }

  function ScaleQuat(k: real, q: Quat): Quat { Quat(k * q.x, k * q.y, k * q.z, k * q.w) }

  /** numpy.sqrt where it is defined. */
  ghost predicate SquareRoot(sqrt: real -> real) {
    forall v | v >= 0.0 :: sqrt(v) >= 0.0 && sqrt(v) * sqrt(v) == v
  }

  function SumScaled(s: real, a: real, b: real, c: real, d: real): real { s * (a * b + c * d) }

  function DifferenceScaled(s: real, a: real, b: real, c: real, d: real): real { s * (a * b - c * d) }

  /** The rotation formula of quat_to_rot with scale s. */
  function Quadratic(s: real, q: Quat): Mat {
    var x, y, z, w := q.x, q.y, q.z, q.w;
    Mat(
      Vec(1.0 - SumScaled(s, y, y, z, z), SumScaled(s, x, y, z, w), DifferenceScaled(s, x, z, y, w)),
      Vec(DifferenceScaled(s, x, y, z, w), 1.0 - SumScaled(s, x, x, z, z), SumScaled(s, y, z, x, w)),
      Vec(SumScaled(s, x, z, y, w), DifferenceScaled(s, y, z, x, w), 1.0 - SumScaled(s, x, x, y, y)))
  }

  function QuatToRot(q: Quat): Mat {
    var n := Norm2(q);
    if n < 0.000000000001 then IDENTITY else Quadratic(2.0 / n, q)
  }

  // ------------------------------------------------------------ the symmetric 4x4 form

  /** A symmetric 4x4 matrix: for a unit quaternion, four times the products of its components. */
  datatype Sym = Sym(xx: real, yy: real, zz: real, ww: real,
                     xy: real, xz: real, yz: real, xw: real, yw: real, zw: real)

  /** The rotation formula, linear in the products. */
  function RotOf(p: Sym): Mat {
    Mat(
      Vec(1.0 - (p.yy + p.zz) / 2.0, (p.xy + p.zw) / 2.0, (p.xz - p.yw) / 2.0),
      Vec((p.xy - p.zw) / 2.0, 1.0 - (p.xx + p.zz) / 2.0, (p.yz + p.xw) / 2.0),
      Vec((p.xz + p.yw) / 2.0, (p.yz - p.xw) / 2.0, 1.0 - (p.xx + p.yy) / 2.0))
  }

  /** Its inverse: the combinations of matrix entries that _mat_to_quat reads. */
  function SymOf(a: Mat): Sym {
    Sym(1.0 + a.c1.x - a.c2.y - a.c3.z, 1.0 + a.c2.y - a.c1.x - a.c3.z,
        1.0 + a.c3.z - a.c1.x - a.c2.y, 1.0 + Trace(a),
        a.c1.y + a.c2.x, a.c1.z + a.c3.x, a.c2.z + a.c3.y,
        a.c2.z - a.c3.y, a.c3.x - a.c1.z, a.c1.y - a.c2.x)
  }

  function Weight(p: Sym): real { p.xx + p.yy + p.zz + p.ww }

  lemma SymRoundTrip(a: Mat)
    ensures RotOf(SymOf(a)) == a && Weight(SymOf(a)) == 4.0
  {
  }

  lemma RotRoundTrip(p: Sym)
    requires Weight(p) == 4.0
    ensures SymOf(RotOf(p)) == p
  {
  }

  predicate Vanishes(p: real, q: real, m: real, n: real) { p * q == m * n }

  /** The two-by-two minors with a diagonal entry vanish: here six of them, the others by a cyclic change of axes. */
  predicate Minors(p: Sym) {
    && Vanishes(p.xw, p.xw, p.xx, p.ww) && Vanishes(p.xy, p.xy, p.xx, p.yy)
    && Vanishes(p.xw, p.yw, p.ww, p.xy) && Vanishes(p.xw, p.xy, p.xx, p.yw)
    && Vanishes(p.xw, p.xz, p.xx, p.zw) && Vanishes(p.xy, p.xz, p.xx, p.yz)
  }

  function Turn(p: Sym): Sym { Sym(p.yy, p.zz, p.xx, p.ww, p.yz, p.xy, p.xz, p.yw, p.zw, p.xw) }

  predicate RankOne(p: Sym) { Minors(p) && Minors(Turn(p)) && Minors(Turn(Turn(p))) }

  predicate CrossMinors(p: Sym) { Vanishes(p.xy, p.zw, p.xz, p.yw) && Vanishes(p.xy, p.zw, p.yz, p.xw) }

  // ------------------------------------------------------------ rotations are rank one

  /** The entries r11 .. r33 (row, column) have orthonormal columns. */
  predicate Columns(r11: real, r12: real, r13: real, r21: real, r22: real, r23: real,
    r31: real, r32: real, r33: real)
  {
    && r11 * r11 + r21 * r21 + r31 * r31 == 1.0 && r12 * r12 + r22 * r22 + r32 * r32 == 1.0
    && r13 * r13 + r23 * r23 + r33 * r33 == 1.0
    && r11 * r12 + r21 * r22 + r31 * r32 == 0.0 && r12 * r13 + r22 * r23 + r32 * r33 == 0.0
    && r13 * r11 + r23 * r21 + r33 * r31 == 0.0
  }

  /** Each entry is its own cofactor. */
  predicate OwnCofactors(r11: real, r12: real, r13: real, r21: real, r22: real, r23: real,
    r31: real, r32: real, r33: real)
  {
    && r22 * r33 - r32 * r23 == r11 && r32 * r13 - r12 * r33 == r21 && r12 * r23 - r22 * r13 == r31
    && r23 * r31 - r33 * r21 == r12 && r33 * r11 - r13 * r31 == r22 && r13 * r21 - r23 * r11 == r32
    && r21 * r32 - r31 * r22 == r13 && r31 * r12 - r11 * r32 == r23 && r11 * r22 - r21 * r12 == r33
  }

  predicate Entries(r11: real, r12: real, r13: real, r21: real, r22: real, r23: real,
    r31: real, r32: real, r33: real)
  {
    && Columns(r11, r12, r13, r21, r22, r23, r31, r32, r33)
    && Columns(r11, r21, r31, r12, r22, r32, r13, r23, r33)
    && OwnCofactors(r11, r12, r13, r21, r22, r23, r31, r32, r33)
  }

  lemma RotationEntries(a: Mat)
    requires Rotation(a)
    ensures Entries(a.c1.x, a.c2.x, a.c3.x, a.c1.y, a.c2.y, a.c3.y, a.c1.z, a.c2.z, a.c3.z)
  {
    ColumnEntries(a);
    RotationTranspose(a);
    ColumnEntries(Transpose(a));
    CofactorEntries(a);
    hide Rotation, Columns, OwnCofactors;
  }

  lemma ColumnEntries(a: Mat)
    requires Rotation(a)
    ensures Columns(a.c1.x, a.c2.x, a.c3.x, a.c1.y, a.c2.y, a.c3.y, a.c1.z, a.c2.z, a.c3.z)
  {
    hide Det;
  }

  lemma CofactorEntries(a: Mat)
    requires Rotation(a)
    ensures OwnCofactors(a.c1.x, a.c2.x, a.c3.x, a.c1.y, a.c2.y, a.c3.y, a.c1.z, a.c2.z, a.c3.z)
  {
    RotationColumns(a);
    hide Rotation;
  }

  lemma EntryMinors(r11: real, r12: real, r13: real, r21: real, r22: real, r23: real,
                    r31: real, r32: real, r33: real)
    requires Entries(r11, r12, r13, r21, r22, r23, r31, r32, r33)
    ensures Vanishes(r32 - r23, r32 - r23, 1.0 + r11 - r22 - r33, 1.0 + r11 + r22 + r33)
    ensures Vanishes(r21 + r12, r21 + r12, 1.0 + r11 - r22 - r33, 1.0 + r22 - r11 - r33)
    ensures Vanishes(r32 - r23, r13 - r31, 1.0 + r11 + r22 + r33, r21 + r12)
    ensures Vanishes(r32 - r23, r21 + r12, 1.0 + r11 - r22 - r33, r13 - r31)
    ensures Vanishes(r32 - r23, r31 + r13, 1.0 + r11 - r22 - r33, r21 - r12)
    ensures Vanishes(r21 + r12, r31 + r13, 1.0 + r11 - r22 - r33, r32 + r23)
  {
  }

  lemma RotationMinors(a: Mat)
    requires Rotation(a)
    ensures Minors(SymOf(a))
  {
    var p := SymOf(a);
    RotationEntries(a);
    hide Rotation, Entries, Vanishes;
    EntryMinors(a.c1.x, a.c2.x, a.c3.x, a.c1.y, a.c2.y, a.c3.y, a.c1.z, a.c2.z, a.c3.z);
    assert p.xw == a.c2.z - a.c3.y && p.xx == 1.0 + a.c1.x - a.c2.y - a.c3.z;
    assert p.ww == 1.0 + a.c1.x + a.c2.y + a.c3.z && p.yy == 1.0 + a.c2.y - a.c1.x - a.c3.z;
  }

  function Shift(v: Vec): Vec { Vec(v.y, v.z, v.x) }

  /** The same rotation with the axes renamed cyclically. */
  function Cycle(a: Mat): Mat { Mat(Shift(a.c2), Shift(a.c3), Shift(a.c1)) }

  lemma ShiftKeeps(u: Vec, v: Vec)
    ensures Dot(Shift(u), Shift(v)) == Dot(u, v) && Cross(Shift(u), Shift(v)) == Shift(Cross(u, v))
  {
  }

  lemma CycleRotation(a: Mat)
    requires Rotation(a)
    ensures Rotation(Cycle(a)) && SymOf(Cycle(a)) == Turn(SymOf(a))
  {
    RotationColumns(a);
    hide Dot, Cross;
    ShiftKeeps(a.c2, a.c2);
    ShiftKeeps(a.c3, a.c3);
    ShiftKeeps(a.c2, a.c3);
    RightHanded(Shift(a.c2), Shift(a.c3));
  }

  lemma RotationIsRankOne(a: Mat)
    requires Rotation(a)
    ensures RankOne(SymOf(a))
  {
    hide Minors, Rotation;
    CycleRotation(a);
    CycleRotation(Cycle(a));
    RotationMinors(a);
    RotationMinors(Cycle(a));
    RotationMinors(Cycle(Cycle(a)));
  }

  // ------------------------------------------------------------ rank one forms are rotations

  lemma AllMinors(p: Sym)
    requires RankOne(p)
    ensures Vanishes(p.xy, p.xy, p.xx, p.yy) && Vanishes(p.zw, p.zw, p.zz, p.ww)
    ensures Vanishes(p.xz, p.xz, p.zz, p.xx) && Vanishes(p.yw, p.yw, p.yy, p.ww)
    ensures Vanishes(p.xz, p.yz, p.zz, p.xy) && Vanishes(p.xw, p.xz, p.xx, p.zw)
    ensures Vanishes(p.yw, p.yz, p.yy, p.zw) && Vanishes(p.xw, p.yw, p.ww, p.xy)
    ensures Vanishes(p.yz, p.xy, p.yy, p.xz) && Vanishes(p.xw, p.xy, p.xx, p.yw)
    ensures Vanishes(p.zw, p.yz, p.zz, p.yw) && Vanishes(p.zw, p.xw, p.ww, p.xz)
    ensures Vanishes(p.xy, p.xz, p.xx, p.yz) && Vanishes(p.zw, p.xz, p.zz, p.xw)
    ensures Vanishes(p.yw, p.xy, p.yy, p.xw) && Vanishes(p.yw, p.zw, p.ww, p.yz)
  {
    hide Vanishes;
  }

  lemma NormCore(p: Sym)
    requires Vanishes(p.xy, p.xy, p.xx, p.yy) && Vanishes(p.zw, p.zw, p.zz, p.ww)
    requires Vanishes(p.xz, p.xz, p.zz, p.xx) && Vanishes(p.yw, p.yw, p.yy, p.ww)
    requires Vanishes(p.xy, p.zw, p.xz, p.yw) && Weight(p) == 4.0
    ensures var u := RotOf(p).c1; Dot(u, u) == 1.0
  {
    var k, m, n := p.yy + p.zz, p.xy + p.zw, p.xz - p.yw;
    assert k * k + m * m + n * n == 4.0 * k by {
      assert k * Weight(p) == k * 4.0;
    }
    QuarterNorm(RotOf(p).c1, k, m, n);
  }

  lemma QuarterNorm(u: Vec, k: real, m: real, n: real)
    requires u == Vec(1.0 - k / 2.0, m / 2.0, n / 2.0) && k * k + m * m + n * n == 4.0 * k
    ensures Dot(u, u) == 1.0
  {
  }

  lemma OrthogonalCore(p: Sym)
    requires Vanishes(p.xz, p.yz, p.zz, p.xy) && Vanishes(p.xw, p.xz, p.xx, p.zw)
    requires Vanishes(p.yw, p.yz, p.yy, p.zw) && Vanishes(p.xw, p.yw, p.ww, p.xy) && Weight(p) == 4.0
    ensures Minor(2.0 - (p.yy + p.zz), p.xy - p.zw, p.xy + p.zw, (p.xx + p.zz) - 2.0, -((p.xz - p.yw) * (p.yz + p.xw)))
  {
    assert p.xy * Weight(p) == p.xy * 4.0;
  }

  lemma CrossCoreX(p: Sym)
    requires Vanishes(p.yz, p.xy, p.yy, p.xz) && Vanishes(p.xw, p.xy, p.xx, p.yw)
    requires Vanishes(p.zw, p.yz, p.zz, p.yw) && Vanishes(p.zw, p.xw, p.ww, p.xz) && Weight(p) == 4.0
    ensures Minor(p.xy + p.zw, p.yz + p.xw, p.xz - p.yw, 2.0 - (p.xx + p.zz), 2.0 * (p.xz + p.yw))
  {
    assert p.xz * Weight(p) == p.xz * 4.0;
  }

  lemma CrossCoreY(p: Sym)
    requires Vanishes(p.xy, p.xz, p.xx, p.yz) && Vanishes(p.zw, p.xz, p.zz, p.xw)
    requires Vanishes(p.yw, p.xy, p.yy, p.xw) && Vanishes(p.yw, p.zw, p.ww, p.yz) && Weight(p) == 4.0
    ensures Minor(p.xz - p.yw, p.xy - p.zw, 2.0 - (p.yy + p.zz), p.yz + p.xw, 2.0 * (p.yz - p.xw))
  {
    assert p.yz * Weight(p) == p.yz * 4.0;
  }

  lemma CrossCoreZ(p: Sym)
    requires Vanishes(p.xy, p.xy, p.xx, p.yy) && Vanishes(p.zw, p.zw, p.zz, p.ww) && Weight(p) == 4.0
    ensures Minor(2.0 - (p.yy + p.zz), 2.0 - (p.xx + p.zz), p.xy + p.zw, p.xy - p.zw, 4.0 - 2.0 * (p.xx + p.yy))
  {
    assert p.zz * Weight(p) == p.zz * 4.0;
  }

  lemma HalfMinor(a: real, b: real, c: real, d: real, e: real, k: real, l: real, m: real, n: real, r: real)
    requires a == k / 2.0 && b == l / 2.0 && c == m / 2.0 && d == n / 2.0 && 4.0 * e == r
    requires Minor(k, l, m, n, r)
    ensures Minor(a, b, c, d, e)
  {
  }

  lemma QuarterDot(u: Vec, v: Vec, k: real, l: real, m: real, n: real, r: real, s: real)
    requires u == Vec(k / 2.0, m / 2.0, r / 2.0) && v == Vec(l / 2.0, -n / 2.0, s / 2.0)
    requires Minor(k, l, m, n, -(r * s))
    ensures Dot(u, v) == 0.0
  {
  }

  lemma SymColumns(p: Sym)
    requires RankOne(p) && CrossMinors(p) && Weight(p) == 4.0
    ensures var r := RotOf(p); Dot(r.c1, r.c1) == 1.0 && Dot(r.c1, r.c2) == 0.0
  {
    hide Vanishes, Minor, RankOne, Dot;
    AllMinors(p);
    NormCore(p);
    OrthogonalCore(p);
    QuarterDot(RotOf(p).c1, RotOf(p).c2, 2.0 - (p.yy + p.zz), p.xy - p.zw, p.xy + p.zw, (p.xx + p.zz) - 2.0,
               p.xz - p.yw, p.yz + p.xw);
  }

  lemma SymCross(p: Sym)
    requires RankOne(p) && CrossMinors(p) && Weight(p) == 4.0
    ensures Cross(RotOf(p).c1, RotOf(p).c2) == RotOf(p).c3
  {
    hide Vanishes, Minor, RankOne, Cross;
    AllMinors(p);
    CrossCoreX(p);
    CrossCoreY(p);
    CrossCoreZ(p);
    var u, v, w := RotOf(p).c1, RotOf(p).c2, RotOf(p).c3;
    HalfMinor(u.y, v.z, u.z, v.y, w.x, p.xy + p.zw, p.yz + p.xw, p.xz - p.yw, 2.0 - (p.xx + p.zz), 2.0 * (p.xz + p.yw));
    HalfMinor(u.z, v.x, u.x, v.z, w.y, p.xz - p.yw, p.xy - p.zw, 2.0 - (p.yy + p.zz), p.yz + p.xw, 2.0 * (p.yz - p.xw));
    HalfMinor(u.x, v.y, u.y, v.x, w.z, 2.0 - (p.yy + p.zz), 2.0 - (p.xx + p.zz), p.xy + p.zw, p.xy - p.zw,
              4.0 - 2.0 * (p.xx + p.yy));
    CrossIs(u, v, w);
  }

  lemma RankOneIsRotation(p: Sym)
    requires RankOne(p) && CrossMinors(p) && Weight(p) == 4.0
    ensures Rotation(RotOf(p))
  {
    hide Minors, CrossMinors, Dot, Cross;
    SymColumns(p);
    SymCross(p);
    TurnedColumn(p);
    RightHanded(RotOf(p).c1, RotOf(p).c2);
  }

  /** The second column is the first one of the turned form. */
  lemma TurnedColumn(p: Sym)
    requires RankOne(p) && CrossMinors(p) && Weight(p) == 4.0
    ensures Dot(RotOf(p).c2, RotOf(p).c2) == 1.0
  {
    TurnRot(p);
    hide Vanishes, RotOf, Dot, Weight;
    SymColumns(Turn(p));
    ShiftKeeps(RotOf(p).c2, RotOf(p).c2);
  }

  lemma TurnRot(p: Sym)
    requires CrossMinors(p)
    ensures RotOf(Turn(p)) == Cycle(RotOf(p)) && Weight(Turn(p)) == Weight(p) && Turn(Turn(Turn(p))) == p
    ensures CrossMinors(Turn(p))
  {
  }

  function Term(k: real, a: real, b: real): real { k * (a * b) }

  /** k times the products of a quaternion's components. */
  function Products(k: real, q: Quat): Sym {
    Sym(Term(k, q.x, q.x), Term(k, q.y, q.y), Term(k, q.z, q.z), Term(k, q.w, q.w),
        Term(k, q.x, q.y), Term(k, q.x, q.z), Term(k, q.y, q.z),
        Term(k, q.x, q.w), Term(k, q.y, q.w), Term(k, q.z, q.w))
  }

  lemma TermVanishes(k: real, a: real, b: real, c: real, d: real)
    ensures Vanishes(Term(k, a, b), Term(k, c, d), Term(k, a, c), Term(k, b, d))
  {
  }

  lemma TermCommutes(k: real, a: real, b: real)
    ensures Term(k, a, b) == Term(k, b, a)
  {
  }

  lemma ProductMinors(k: real, q: Quat)
    ensures Minors(Products(k, q)) && CrossMinors(Products(k, q))
  {
    var x, y, z, w := q.x, q.y, q.z, q.w;
    hide Vanishes, Term;
    TermCommutes(k, x, w);
    TermCommutes(k, x, y);
    TermCommutes(k, y, w);
    TermCommutes(k, z, w);
    TermVanishes(k, x, w, x, w);
    TermVanishes(k, x, y, x, y);
    TermVanishes(k, w, x, w, y);
    TermVanishes(k, x, w, x, y);
    TermVanishes(k, x, w, x, z);
    TermVanishes(k, x, y, x, z);
    TermVanishes(k, x, y, z, w);
    TermVanishes(k, y, x, z, w);
  }

  lemma TurnProducts(k: real, q: Quat)
    ensures Turn(Products(k, q)) == Products(k, Quat(q.y, q.z, q.x, q.w))
  {
    TermCommutes(k, q.x, q.y);
    TermCommutes(k, q.x, q.z);
    hide Term;
  }

  lemma ProductsRankOne(k: real, q: Quat)
    ensures RankOne(Products(k, q)) && CrossMinors(Products(k, q))
  {
    hide Minors, CrossMinors, Products, Turn;
    ProductMinors(k, q);
    ProductMinors(k, Quat(q.y, q.z, q.x, q.w));
    ProductMinors(k, Quat(q.z, q.x, q.y, q.w));
    TurnProducts(k, q);
    TurnProducts(k, Quat(q.y, q.z, q.x, q.w));
  }

  lemma WeightOfProducts(k: real, q: Quat)
    ensures Weight(Products(k, q)) == k * Norm2(q)
  {
    var xx, yy, zz, ww := q.x * q.x, q.y * q.y, q.z * q.z, q.w * q.w;
    assert k * (xx + yy + zz + ww) == k * xx + k * yy + k * zz + k * ww;
  }

  lemma HalfTerms(s: real, a: real, b: real, c: real, d: real)
    ensures SumScaled(s, a, b, c, d) == (Term(2.0 * s, a, b) + Term(2.0 * s, c, d)) / 2.0
    ensures DifferenceScaled(s, a, b, c, d) == (Term(2.0 * s, a, b) - Term(2.0 * s, c, d)) / 2.0
  {
  }

  lemma QuadraticOf(s: real, q: Quat)
    ensures Quadratic(s, q) == RotOf(Products(2.0 * s, q))
  {
    var x, y, z, w := q.x, q.y, q.z, q.w;
    hide Term, SumScaled, DifferenceScaled;
    HalfTerms(s, y, y, z, z);
    HalfTerms(s, x, x, z, z);
    HalfTerms(s, x, x, y, y);
    HalfTerms(s, x, y, z, w);
    HalfTerms(s, x, z, y, w);
    HalfTerms(s, y, z, x, w);
  }

  lemma QuadraticIsRotation(s: real, q: Quat)
    requires s * Norm2(q) == 2.0
    ensures Rotation(Quadratic(s, q)) && SymOf(Quadratic(s, q)) == Products(2.0 * s, q)
  {
    hide *;
    QuadraticOf(s, q);
    ProductsRankOne(2.0 * s, q);
    WeightOfProducts(2.0 * s, q);
    Doubled(s, Norm2(q));
    RankOneIsRotation(Products(2.0 * s, q));
    RotRoundTrip(Products(2.0 * s, q));
  }

  lemma Doubled(s: real, n: real)
    requires s * n == 2.0
    ensures (2.0 * s) * n == 4.0
  {
  }

  lemma QuatToRotForm(q: Quat)
    requires Norm2(q) >= 0.000000000001
    ensures var s := 2.0 / Norm2(q); s * Norm2(q) == 2.0 && QuatToRot(q) == Quadratic(s, q)
  {
    hide Norm2, Quadratic;
  }

  /** quat_to_rot returns a proper rotation for every four numbers. */
  lemma QuatToRotIsRotation(q: Quat)
    ensures Rotation(QuatToRot(q))
  {
    hide Rotation, Quadratic, Norm2;
    if Norm2(q) < 0.000000000001 {
      IdentityRotation();
    } else {
      QuatToRotForm(q);
      QuadraticIsRotation(2.0 / Norm2(q), q);
    }
  }

  // ------------------------------------------------------------ matrix to quaternion

  datatype Branch = PivotW | PivotX | PivotY | PivotZ

  /** The branch _mat_to_quat takes. */
  function BranchOf(a: Mat): Branch {
    if Trace(a) > 0.0 then PivotW
    else if a.c1.x > a.c2.y && a.c1.x > a.c3.z then PivotX
    else if a.c2.y > a.c3.z then PivotY
    else PivotZ
  }

  /** What it takes the square root of. */
  function Radicand(a: Mat): real {
    match BranchOf(a)
    case PivotW => Trace(a) + 1.0
    case PivotX => 1.0 + a.c1.x - a.c2.y - a.c3.z
    case PivotY => 1.0 + a.c2.y - a.c1.x - a.c3.z
    case PivotZ => 1.0 + a.c3.z - a.c1.x - a.c2.y
  }

  function Divisor(sqrt: real -> real, a: Mat): real { sqrt(Radicand(a)) * 2.0 }

  /** Whatever the matrix, the branch taken has a radicand of at least one and divides by at least two. */
  lemma DivisorAtLeastTwo(sqrt: real -> real, a: Mat)
    requires SquareRoot(sqrt)
    ensures Radicand(a) >= 1.0 && Divisor(sqrt, a) >= 2.0
    ensures Divisor(sqrt, a) * Divisor(sqrt, a) == 4.0 * Radicand(a)
  {
    var r := sqrt(Radicand(a));
    assert r * r == Radicand(a);
    if r < 1.0 {
      MulLe(r, 1.0, r);
      assert false;
    }
  }

  function FromW(s: real, a: Mat): Quat
    requires s != 0.0
  {
    Quat((a.c2.z - a.c3.y) / s, (a.c3.x - a.c1.z) / s, (a.c1.y - a.c2.x) / s, 0.25 * s)
  }

  function FromX(s: real, a: Mat): Quat
    requires s != 0.0
  {
    Quat(0.25 * s, (a.c2.x + a.c1.y) / s, (a.c3.x + a.c1.z) / s, (a.c2.z - a.c3.y) / s)
  }

  function FromY(s: real, a: Mat): Quat
    requires s != 0.0
  {
    Quat((a.c2.x + a.c1.y) / s, 0.25 * s, (a.c3.y + a.c2.z) / s, (a.c3.x - a.c1.z) / s)
  }

  function FromZ(s: real, a: Mat): Quat
    requires s != 0.0
  {
    Quat((a.c3.x + a.c1.z) / s, (a.c3.y + a.c2.z) / s, 0.25 * s, (a.c1.y - a.c2.x) / s)
  }

  function MatToQuat(sqrt: real -> real, a: Mat): Quat
    requires SquareRoot(sqrt)
  {
    DivisorAtLeastTwo(sqrt, a);
    var s := Divisor(sqrt, a);
    match BranchOf(a)
    case PivotW => FromW(s, a)
    case PivotX => FromX(s, a)
    case PivotY => FromY(s, a)
    case PivotZ => FromZ(s, a)
  }

  /** Dividing a row of a rank-one form by the root of its pivot gives the components' products. */
  lemma PivotPair(s: real, pp: real, pb: real, pc: real, bc: real, b: real, c: real)
    requires s > 0.0 && s * s == 4.0 * pp && Vanishes(pb, pc, pp, bc) && b == pb / s && c == pc / s
    ensures Term(4.0, b, c) == bc
  {
    ProductPositive(s, s, s * s);
    assert b * s == pb && c * s == pc;
    var t := b * c;
    assert t * (s * s) == pb * pc;
    CancelEq(4.0 * t, bc, pp);
  }

  lemma PivotSelf(s: real, pp: real, pb: real, a: real, b: real)
    requires s > 0.0 && s * s == 4.0 * pp && a == 0.25 * s && b == pb / s
    ensures Term(4.0, a, a) == pp && Term(4.0, a, b) == pb && Term(4.0, b, a) == pb
  {
    assert b * s == pb;
  }

  /** The pivot row p1 p2 p3 of a rank-one form determines four components with the form's products. */
  lemma PivotRow(s: real, pp: real, p1: real, p2: real, p3: real, p11: real, p22: real, p33: real,
                 p12: real, p13: real, p23: real, a: real, b1: real, b2: real, b3: real)
    requires s > 0.0 && s * s == 4.0 * pp && a == 0.25 * s && b1 == p1 / s && b2 == p2 / s && b3 == p3 / s
    requires Vanishes(p1, p1, pp, p11) && Vanishes(p2, p2, pp, p22) && Vanishes(p3, p3, pp, p33)
    requires Vanishes(p1, p2, pp, p12) && Vanishes(p1, p3, pp, p13) && Vanishes(p2, p3, pp, p23)
    ensures Term(4.0, a, a) == pp
    ensures Term(4.0, a, b1) == p1 && Term(4.0, a, b2) == p2 && Term(4.0, a, b3) == p3
    ensures Term(4.0, b1, a) == p1 && Term(4.0, b2, a) == p2 && Term(4.0, b3, a) == p3
    ensures Term(4.0, b1, b1) == p11 && Term(4.0, b2, b2) == p22 && Term(4.0, b3, b3) == p33
    ensures Term(4.0, b1, b2) == p12 && Term(4.0, b1, b3) == p13 && Term(4.0, b2, b3) == p23
    ensures Term(4.0, b2, b1) == p12 && Term(4.0, b3, b1) == p13 && Term(4.0, b3, b2) == p23
  {
    hide Vanishes, Term;
    PivotSelf(s, pp, p1, a, b1);
    PivotSelf(s, pp, p2, a, b2);
    PivotSelf(s, pp, p3, a, b3);
    PivotPair(s, pp, p1, p1, p11, b1, b1);
    PivotPair(s, pp, p2, p2, p22, b2, b2);
    PivotPair(s, pp, p3, p3, p33, b3, b3);
    PivotPair(s, pp, p1, p2, p12, b1, b2);
    PivotPair(s, pp, p1, p3, p13, b1, b3);
    PivotPair(s, pp, p2, p3, p23, b2, b3);
    TermCommutes(4.0, b1, b2);
    TermCommutes(4.0, b1, b3);
    TermCommutes(4.0, b2, b3);
  }

  lemma VanishesCommutes(p: real, q: real, m: real, n: real)
    ensures Vanishes(p, q, m, n) ==> Vanishes(p, q, n, m) && Vanishes(q, p, m, n)
  {
  }

  lemma PivotMinors(p: Sym)
    requires RankOne(p)
    ensures Vanishes(p.xw, p.xw, p.ww, p.xx) && Vanishes(p.yw, p.yw, p.ww, p.yy) && Vanishes(p.zw, p.zw, p.ww, p.zz)
    ensures Vanishes(p.xw, p.yw, p.ww, p.xy) && Vanishes(p.xw, p.zw, p.ww, p.xz) && Vanishes(p.yw, p.zw, p.ww, p.yz)
    ensures Vanishes(p.xw, p.xw, p.xx, p.ww) && Vanishes(p.xy, p.xy, p.xx, p.yy) && Vanishes(p.xz, p.xz, p.xx, p.zz)
    ensures Vanishes(p.xw, p.xy, p.xx, p.yw) && Vanishes(p.xw, p.xz, p.xx, p.zw) && Vanishes(p.xy, p.xz, p.xx, p.yz)
    ensures Vanishes(p.yw, p.yw, p.yy, p.ww) && Vanishes(p.xy, p.xy, p.yy, p.xx) && Vanishes(p.yz, p.yz, p.yy, p.zz)
    ensures Vanishes(p.yw, p.xy, p.yy, p.xw) && Vanishes(p.yw, p.yz, p.yy, p.zw) && Vanishes(p.xy, p.yz, p.yy, p.xz)
    ensures Vanishes(p.zw, p.zw, p.zz, p.ww) && Vanishes(p.xz, p.xz, p.zz, p.xx) && Vanishes(p.yz, p.yz, p.zz, p.yy)
    ensures Vanishes(p.zw, p.xz, p.zz, p.xw) && Vanishes(p.zw, p.yz, p.zz, p.yw) && Vanishes(p.xz, p.yz, p.zz, p.xy)
  {
    hide Vanishes;
    VanishesCommutes(p.xw, p.xw, p.xx, p.ww);
    VanishesCommutes(p.yw, p.yw, p.yy, p.ww);
    VanishesCommutes(p.zw, p.zw, p.zz, p.ww);
    VanishesCommutes(p.xy, p.xy, p.xx, p.yy);
    VanishesCommutes(p.yz, p.yz, p.yy, p.zz);
    VanishesCommutes(p.xz, p.xz, p.zz, p.xx);
    VanishesCommutes(p.zw, p.xw, p.ww, p.xz);
    VanishesCommutes(p.yz, p.xy, p.yy, p.xz);
  }

  lemma PivotWProducts(s: real, q: Quat, p: Sym)
    requires RankOne(p) && s > 0.0 && s * s == 4.0 * p.ww && q.w == 0.25 * s
    requires q.x == p.xw / s && q.y == p.yw / s && q.z == p.zw / s
    ensures Products(4.0, q) == p
  {
    hide RankOne, Vanishes, Term;
    PivotMinors(p);
    PivotRow(s, p.ww, p.xw, p.yw, p.zw, p.xx, p.yy, p.zz, p.xy, p.xz, p.yz, q.w, q.x, q.y, q.z);
  }

  lemma PivotXProducts(s: real, q: Quat, p: Sym)
    requires RankOne(p) && s > 0.0 && s * s == 4.0 * p.xx && q.x == 0.25 * s
    requires q.w == p.xw / s && q.y == p.xy / s && q.z == p.xz / s
    ensures Products(4.0, q) == p
  {
    hide RankOne, Vanishes, Term;
    PivotMinors(p);
    PivotRow(s, p.xx, p.xw, p.xy, p.xz, p.ww, p.yy, p.zz, p.yw, p.zw, p.yz, q.x, q.w, q.y, q.z);
  }

  lemma PivotYProducts(s: real, q: Quat, p: Sym)
    requires RankOne(p) && s > 0.0 && s * s == 4.0 * p.yy && q.y == 0.25 * s
    requires q.w == p.yw / s && q.x == p.xy / s && q.z == p.yz / s
    ensures Products(4.0, q) == p
  {
    hide RankOne, Vanishes, Term;
    PivotMinors(p);
    PivotRow(s, p.yy, p.yw, p.xy, p.yz, p.ww, p.xx, p.zz, p.xw, p.zw, p.xz, q.y, q.w, q.x, q.z);
  }

  lemma PivotZProducts(s: real, q: Quat, p: Sym)
    requires RankOne(p) && s > 0.0 && s * s == 4.0 * p.zz && q.z == 0.25 * s
    requires q.w == p.zw / s && q.x == p.xz / s && q.y == p.yz / s
    ensures Products(4.0, q) == p
  {
    hide RankOne, Vanishes, Term;
    PivotMinors(p);
    PivotRow(s, p.zz, p.zw, p.xz, p.yz, p.ww, p.xx, p.yy, p.xw, p.yw, p.xy, q.z, q.w, q.x, q.y);
  }

  lemma FromPivotW(s: real, a: Mat)
    requires RankOne(SymOf(a)) && s > 0.0 && s * s == 4.0 * SymOf(a).ww
    ensures Products(4.0, FromW(s, a)) == SymOf(a)
  {
    hide RankOne, Products;
    PivotWProducts(s, FromW(s, a), SymOf(a));
  }

  lemma FromPivotX(s: real, a: Mat)
    requires RankOne(SymOf(a)) && s > 0.0 && s * s == 4.0 * SymOf(a).xx
    ensures Products(4.0, FromX(s, a)) == SymOf(a)
  {
    hide RankOne, Products;
    PivotXProducts(s, FromX(s, a), SymOf(a));
  }

  lemma FromPivotY(s: real, a: Mat)
    requires RankOne(SymOf(a)) && s > 0.0 && s * s == 4.0 * SymOf(a).yy
    ensures Products(4.0, FromY(s, a)) == SymOf(a)
  {
    hide RankOne, Products;
    PivotYProducts(s, FromY(s, a), SymOf(a));
  }

  lemma FromPivotZ(s: real, a: Mat)
    requires RankOne(SymOf(a)) && s > 0.0 && s * s == 4.0 * SymOf(a).zz
    ensures Products(4.0, FromZ(s, a)) == SymOf(a)
  {
    hide RankOne, Products;
    PivotZProducts(s, FromZ(s, a), SymOf(a));
  }

  /** _mat_to_quat returns the quaternion whose products are the combinations it reads off the matrix. */
  lemma MatToQuatProducts(sqrt: real -> real, a: Mat)
    requires SquareRoot(sqrt) && Rotation(a)
    ensures Products(4.0, MatToQuat(sqrt, a)) == SymOf(a)
  {
    var s := Divisor(sqrt, a);
    hide Rotation, RankOne, Divisor, Products, FromW, FromX, FromY, FromZ;
    DivisorAtLeastTwo(sqrt, a);
    RotationIsRankOne(a);
    match BranchOf(a)
    case PivotW => FromPivotW(s, a);
    case PivotX => FromPivotX(s, a);
    case PivotY => FromPivotY(s, a);
    case PivotZ => FromPivotZ(s, a);
  }

  // ------------------------------------------------------------ round trips

  lemma UnitQuadratic(q: Quat)
    requires Norm2(q) == 1.0
    ensures QuatToRot(q) == Quadratic(2.0, q)
  {
    hide Norm2, Quadratic;
  }

  lemma UnitFromProducts(q: Quat, p: Sym)
    requires Products(4.0, q) == p && Weight(p) == 4.0
    ensures Norm2(q) == 1.0
  {
    hide Norm2, Weight, Products;
    WeightOfProducts(4.0, q);
  }

  /** A matrix survives the trip to a quaternion and back exactly when it is a rotation; the quaternion is unit. */
  lemma RotationRoundTrip(sqrt: real -> real, a: Mat)
    requires SquareRoot(sqrt)
    ensures QuatToRot(MatToQuat(sqrt, a)) == a <==> Rotation(a)
    ensures Rotation(a) ==> Norm2(MatToQuat(sqrt, a)) == 1.0
  {
    hide Rotation, MatToQuat, Norm2, QuatToRot, Quadratic, Products, Weight, RotOf, SymOf;
    var q := MatToQuat(sqrt, a);
    if Rotation(a) {
      MatToQuatProducts(sqrt, a);
      SymRoundTrip(a);
      UnitFromProducts(q, SymOf(a));
      UnitQuadratic(q);
      QuadraticOf(2.0, q);
    }
    QuatToRotIsRotation(q);
  }

  lemma SameSquare(a: real, b: real)
    requires Term(1.0, a, a) == Term(1.0, b, b)
    ensures a == b || a == -b
  {
    assert a * a == b * b;
    if a != b {
      CancelEq(a + b, 0.0, a - b);
    }
  }

  lemma SameSign(p0: real, q0: real, p: real, q: real)
    requires p0 != 0.0 && Term(1.0, q0, q) == Term(1.0, p0, p)
    ensures q0 == p0 ==> q == p
    ensures q0 == -p0 ==> q == -p
  {
    assert q0 * q == p0 * p;
    if q0 == p0 { CancelEq(q, p, p0); }
    if q0 == -p0 { CancelEq(-q, p, p0); }
  }

  /** Quaternions with the same products are equal or opposite. */
  lemma DoubleCover(p: Quat, q: Quat)
    requires Products(1.0, p) == Products(1.0, q)
    ensures q == p || q == ScaleQuat(-1.0, p)
  {
    hide Term;
    SameSquare(q.x, p.x);
    SameSquare(q.y, p.y);
    SameSquare(q.z, p.z);
    SameSquare(q.w, p.w);
    if p.x != 0.0 {
      SameSign(p.x, q.x, p.y, q.y);
      SameSign(p.x, q.x, p.z, q.z);
      SameSign(p.x, q.x, p.w, q.w);
    } else if p.y != 0.0 {
      SameSign(p.y, q.y, p.z, q.z);
      SameSign(p.y, q.y, p.w, q.w);
    } else if p.z != 0.0 {
      SameSign(p.z, q.z, p.w, q.w);
    }
  }

  lemma ScaledTerm(r: real, n: real, s: real, a: real, b: real, c: real, d: real, ra: real, rb: real)
    requires r * r == n && s * n == 2.0 && Term(4.0, a, b) == Term(2.0 * s, c, d) && ra == r * a && rb == r * b
    ensures Term(1.0, ra, rb) == Term(1.0, c, d)
  {
    var t, u := a * b, c * d;
    assert ra * rb == n * t;
    assert 4.0 * t == (2.0 * s) * u;
    assert (4.0 * t) * n == ((2.0 * s) * u) * n == (2.0 * (s * n)) * u;
  }

  /** Scaling by the norm undoes normalisation: r m has the products of q. */
  lemma ScaledProducts(r: real, s: real, m: Quat, q: Quat)
    requires r * r == Norm2(q) && s * Norm2(q) == 2.0 && Products(4.0, m) == Products(2.0 * s, q)
    ensures Products(1.0, ScaleQuat(r, m)) == Products(1.0, q)
  {
    var n, v := Norm2(q), ScaleQuat(r, m);
    hide Term, Norm2;
    ScaledTerm(r, n, s, m.x, m.x, q.x, q.x, v.x, v.x);
    ScaledTerm(r, n, s, m.y, m.y, q.y, q.y, v.y, v.y);
    ScaledTerm(r, n, s, m.z, m.z, q.z, q.z, v.z, v.z);
    ScaledTerm(r, n, s, m.w, m.w, q.w, q.w, v.w, v.w);
    ScaledTerm(r, n, s, m.x, m.y, q.x, q.y, v.x, v.y);
    ScaledTerm(r, n, s, m.x, m.z, q.x, q.z, v.x, v.z);
    ScaledTerm(r, n, s, m.y, m.z, q.y, q.z, v.y, v.z);
    ScaledTerm(r, n, s, m.x, m.w, q.x, q.w, v.x, v.w);
    ScaledTerm(r, n, s, m.y, m.w, q.y, q.w, v.y, v.w);
    ScaledTerm(r, n, s, m.z, m.w, q.z, q.w, v.z, v.w);
  }

  /** Every quaternion at or above the cut-off comes back as plus or minus itself, normalised. */
  lemma QuatRoundTrip(sqrt: real -> real, q: Quat)
    requires SquareRoot(sqrt) && Norm2(q) >= 0.000000000001
    ensures var m, r := MatToQuat(sqrt, QuatToRot(q)), sqrt(Norm2(q));
      && Norm2(m) == 1.0 && r > 0.0
      && (ScaleQuat(r, m) == q || ScaleQuat(r, m) == ScaleQuat(-1.0, q))
  {
    var m, r := MatToQuat(sqrt, QuatToRot(q)), sqrt(Norm2(q));
    assert r >= 0.0 && r * r == Norm2(q);
    hide Rotation, MatToQuat, Norm2, QuatToRot, Quadratic, Products, SquareRoot, ScaleQuat;
    var s := 2.0 / Norm2(q);
    QuatToRotForm(q);
    QuadraticIsRotation(s, q);
    RotationRoundTrip(sqrt, QuatToRot(q));
    MatToQuatProducts(sqrt, QuatToRot(q));
    ScaledProducts(r, s, m, q);
    DoubleCover(q, ScaleQuat(r, m));
  }
}
