/**
 * kinematics/fr3_kinematics.py axis_angle_to_rot and _rot_to_axis_angle: the exponential of a rotation
 * vector by Rodrigues' formula, and the three-branch logarithm.
 */
module AxisAngle {
  import opened Numeric
  import opened Linear
  import opened Quaternions

  /** The library functions the kinematics call. */
  datatype Trig = Trig(sin: real -> real, cos: real -> real, arccos: real -> real, sqrt: real -> real, pi: real)

  ghost predicate Laws(t: Trig) {
    && SquareRoot(t.sqrt)
    && 3.0 < t.pi < 4.0
    && t.cos(0.0) == 1.0 && t.cos(t.pi) == -1.0
    && (forall x :: t.sin(x) * t.sin(x) + t.cos(x) * t.cos(x) == 1.0)
    && (forall x | 0.0 < x < t.pi :: t.sin(x) > 0.0)
    && (forall x | 0.0 <= x <= t.pi :: t.arccos(t.cos(x)) == x)
    && (forall v | -1.0 <= v <= 1.0 :: 0.0 <= t.arccos(v) <= t.pi && t.cos(t.arccos(v)) == v)
  }

  function MatAdd(a: Mat, b: Mat): Mat { Mat(Add(a.c1, b.c1), Add(a.c2, b.c2), Add(a.c3, b.c3)) }

  function MatScale(k: real, a: Mat): Mat { Mat(Scale(k, a.c1), Scale(k, a.c2), Scale(k, a.c3)) }

  /** The matrix of the cross product with k. */
  function Skew(k: Vec): Mat { Mat(Vec(0.0, k.z, -k.y), Vec(-k.z, 0.0, k.x), Vec(k.y, -k.x, 0.0)) }

  function Rodrigues(k: Vec, c: real, s: real): Mat {
    MatAdd(MatAdd(IDENTITY, MatScale(s, Skew(k))), MatScale(1.0 - c, Mul(Skew(k), Skew(k))))
  }

  function Length(t: Trig, v: Vec): (r: real)
    requires Laws(t)
    ensures r >= 0.0 && r * r == Dot(v, v)
  {
    NormNonneg(v);
    t.sqrt(Dot(v, v))
  }

  function Divide(v: Vec, d: real): Vec
    requires d != 0.0
  {
    Vec(v.x / d, v.y / d, v.z / d)
  }

  function AxisAngleToRot(t: Trig, aa: Vec): Mat
    requires Laws(t)
  {
    var theta := Length(t, aa);
    if theta < 0.000000001 then IDENTITY
    else Rodrigues(Divide(aa, theta), t.cos(theta), t.sin(theta))
  }

  // ------------------------------------------------------------ Rodrigues' formula as a rank-one form

  function Times(b: real, x: real): real { b * x }

  /**
   * Four times the products of the quaternion (sin(theta/2) k, cos(theta/2)):
   * a = 2 - 2 cos theta, b = 2 sin theta, g = 2 + 2 cos theta.
   */
  function AxisForm(k: Vec, a: real, b: real, g: real): Sym {
    Sym(Term(a, k.x, k.x), Term(a, k.y, k.y), Term(a, k.z, k.z), g,
        Term(a, k.x, k.y), Term(a, k.x, k.z), Term(a, k.y, k.z), Times(b, k.x), Times(b, k.y), Times(b, k.z))
  }

  predicate Unit(k: Vec) { Dot(k, k) == 1.0 }

  predicate Balanced(a: real, b: real, g: real) { b * b == a * g && a + g == 4.0 }

  lemma CircleBalanced(c: real, s: real)
    requires s * s + c * c == 1.0
    ensures Balanced(2.0 * (1.0 - c), 2.0 * s, 2.0 * (1.0 + c))
  {
  }

  lemma PureScalar(a: real, b: real, g: real, x: real, y: real)
    requires Balanced(a, b, g)
    ensures Vanishes(Times(b, x), Times(b, y), g, Term(a, x, y))
    ensures Vanishes(Times(b, x), Times(b, y), Term(a, x, y), g)
  {
    var t := x * y;
    assert (b * x) * (b * y) == (b * b) * t == (a * g) * t;
  }

  lemma MixedScalar(a: real, b: real, x: real, y: real, z: real)
    ensures Vanishes(Times(b, x), Term(a, y, z), Term(a, x, y), Times(b, z))
    ensures Vanishes(Term(a, x, y), Times(b, z), Term(a, x, z), Times(b, y))
  {
  }

  lemma AxisMinors(k: Vec, a: real, b: real, g: real)
    requires Balanced(a, b, g)
    ensures Minors(AxisForm(k, a, b, g)) && CrossMinors(AxisForm(k, a, b, g))
  {
    hide Vanishes, Term, Times, Balanced;
    PureScalar(a, b, g, k.x, k.x);
    PureScalar(a, b, g, k.x, k.y);
    MixedScalar(a, b, k.x, k.x, k.y);
    MixedScalar(a, b, k.x, k.x, k.z);
    MixedScalar(a, b, k.x, k.y, k.z);
    MixedScalar(a, b, k.y, k.x, k.z);
    TermCommutes(a, k.x, k.y);
    TermVanishes(a, k.x, k.y, k.x, k.y);
    TermVanishes(a, k.x, k.y, k.x, k.z);
  }

  lemma TurnAxisForm(k: Vec, a: real, b: real, g: real)
    ensures Turn(AxisForm(k, a, b, g)) == AxisForm(Shift(k), a, b, g)
  {
    TermCommutes(a, k.x, k.y);
    TermCommutes(a, k.x, k.z);
    hide Term, Times;
  }

  lemma AxisFormRankOne(k: Vec, a: real, b: real, g: real)
    requires Balanced(a, b, g)
    ensures RankOne(AxisForm(k, a, b, g)) && CrossMinors(AxisForm(k, a, b, g))
  {
    hide Minors, CrossMinors, Balanced, AxisForm, Turn;
    AxisMinors(k, a, b, g);
    AxisMinors(Shift(k), a, b, g);
    AxisMinors(Shift(Shift(k)), a, b, g);
    TurnAxisForm(k, a, b, g);
    TurnAxisForm(Shift(k), a, b, g);
  }

  lemma AxisFormWeight(k: Vec, a: real, b: real, g: real)
    requires Unit(k) && a + g == 4.0
    ensures Weight(AxisForm(k, a, b, g)) == 4.0
  {
    var xx, yy, zz := k.x * k.x, k.y * k.y, k.z * k.z;
    assert a * xx + a * yy + a * zz == a * (xx + yy + zz);
  }

  /** The square of a unit axis's cross-product matrix is k kT - 1. */
  lemma SkewSquared(k: Vec)
    requires Unit(k)
    ensures Mul(Skew(k), Skew(k)) == Mat(
      Vec(k.x * k.x - 1.0, k.x * k.y, k.x * k.z), Vec(k.x * k.y, k.y * k.y - 1.0, k.y * k.z),
      Vec(k.x * k.z, k.y * k.z, k.z * k.z - 1.0))
  {
  }

  /** An entry on the diagonal: the summands are 1, s times 0 and d times x x - 1. */
  lemma DiagonalEntry(d: real, s: real, x: real, y: real, z: real, u: real, m: real, su: real, dm: real)
    requires x * x + y * y + z * z == 1.0 && u == 0.0 && m == x * x - 1.0 && su == s * u && dm == d * m
    ensures 1.0 + su + dm == 1.0 - (Term(2.0 * d, y, y) + Term(2.0 * d, z, z)) / 2.0
  {
    var yy, zz := y * y, z * z;
    assert d * -(yy + zz) == -(d * yy + d * zz);
  }

  /** An entry off the diagonal, where the skew part adds z. */
  lemma AddedEntry(d: real, s: real, x: real, y: real, z: real, u: real, m: real, su: real, dm: real)
    requires u == z && m == x * y && su == s * u && dm == d * m
    ensures su + dm == (Term(2.0 * d, x, y) + Times(2.0 * s, z)) / 2.0
  {
  }

  /** And where it takes z away. */
  lemma TakenEntry(d: real, s: real, x: real, y: real, z: real, u: real, m: real, su: real, dm: real)
    requires u == -z && m == x * y && su == s * u && dm == d * m
    ensures su + dm == (Term(2.0 * d, x, y) - Times(2.0 * s, z)) / 2.0
  {
  }

  lemma ScaleEntries(k: real, v: Vec)
    ensures var w := Scale(k, v); w.x == k * v.x && w.y == k * v.y && w.z == k * v.z
  {
  }

  lemma RodriguesColumn1(k: Vec, c: real, s: real)
    requires Unit(k)
    ensures Rodrigues(k, c, s).c1 == RotOf(AxisForm(k, 2.0 * (1.0 - c), 2.0 * s, 2.0 * (1.0 + c))).c1
  {
    SkewSquared(k);
    var d, u, m := 1.0 - c, Skew(k).c1, Mul(Skew(k), Skew(k)).c1;
    hide Term, Times, Mul, Scale;
    var su, dm := Scale(s, u), Scale(d, m);
    ScaleEntries(s, u);
    ScaleEntries(d, m);
    DiagonalEntry(d, s, k.x, k.y, k.z, u.x, m.x, su.x, dm.x);
    AddedEntry(d, s, k.x, k.y, k.z, u.y, m.y, su.y, dm.y);
    TakenEntry(d, s, k.x, k.z, k.y, u.z, m.z, su.z, dm.z);
  }

  lemma RodriguesColumn2(k: Vec, c: real, s: real)
    requires Unit(k)
    ensures Rodrigues(k, c, s).c2 == RotOf(AxisForm(k, 2.0 * (1.0 - c), 2.0 * s, 2.0 * (1.0 + c))).c2
  {
    SkewSquared(k);
    var d, u, m := 1.0 - c, Skew(k).c2, Mul(Skew(k), Skew(k)).c2;
    hide Term, Times, Mul, Scale;
    var su, dm := Scale(s, u), Scale(d, m);
    ScaleEntries(s, u);
    ScaleEntries(d, m);
    TakenEntry(d, s, k.x, k.y, k.z, u.x, m.x, su.x, dm.x);
    DiagonalEntry(d, s, k.y, k.x, k.z, u.y, m.y, su.y, dm.y);
    AddedEntry(d, s, k.y, k.z, k.x, u.z, m.z, su.z, dm.z);
  }

  lemma RodriguesColumn3(k: Vec, c: real, s: real)
    requires Unit(k)
    ensures Rodrigues(k, c, s).c3 == RotOf(AxisForm(k, 2.0 * (1.0 - c), 2.0 * s, 2.0 * (1.0 + c))).c3
  {
    SkewSquared(k);
    var d, u, m := 1.0 - c, Skew(k).c3, Mul(Skew(k), Skew(k)).c3;
    hide Term, Times, Mul, Scale;
    var su, dm := Scale(s, u), Scale(d, m);
    ScaleEntries(s, u);
    ScaleEntries(d, m);
    AddedEntry(d, s, k.x, k.z, k.y, u.x, m.x, su.x, dm.x);
    TakenEntry(d, s, k.y, k.z, k.x, u.y, m.y, su.y, dm.y);
    DiagonalEntry(d, s, k.z, k.x, k.y, u.z, m.z, su.z, dm.z);
  }

  lemma RodriguesForm(k: Vec, c: real, s: real)
    requires Unit(k)
    ensures Rodrigues(k, c, s) == RotOf(AxisForm(k, 2.0 * (1.0 - c), 2.0 * s, 2.0 * (1.0 + c)))
  {
    hide Unit, Rodrigues, RotOf, AxisForm;
    RodriguesColumn1(k, c, s);
    RodriguesColumn2(k, c, s);
    RodriguesColumn3(k, c, s);
  }

  lemma RodriguesRotation(k: Vec, c: real, s: real)
    requires Unit(k) && s * s + c * c == 1.0
    ensures Rotation(Rodrigues(k, c, s))
    ensures SymOf(Rodrigues(k, c, s)) == AxisForm(k, 2.0 * (1.0 - c), 2.0 * s, 2.0 * (1.0 + c))
  {
    var a, b, g := 2.0 * (1.0 - c), 2.0 * s, 2.0 * (1.0 + c);
    hide Unit, Rodrigues, AxisForm, Balanced, Weight, RankOne, CrossMinors, Rotation, RotOf, SymOf;
    CircleBalanced(c, s);
    RodriguesForm(k, c, s);
    AxisFormRankOne(k, a, b, g);
    AxisFormWeight(k, a, b, g);
    RankOneIsRotation(AxisForm(k, a, b, g));
    RotRoundTrip(AxisForm(k, a, b, g));
  }

  // ------------------------------------------------------------ lengths and axes

  lemma RootUnique(x: real, y: real)
    requires x >= 0.0 && y >= 0.0 && x * x == y * y
    ensures x == y
  {
    if x != y {
      CancelEq(x + y, 0.0, x - y);
    }
  }

  lemma DivideScales(v: Vec, d: real)
    requires d != 0.0
    ensures Scale(d, Divide(v, d)) == v && Dot(Divide(v, d), Divide(v, d)) * (d * d) == Dot(v, v)
  {
    var u := Divide(v, d);
    assert d * u.x == v.x && d * u.y == v.y && d * u.z == v.z;
    hide Divide;
    NormScale(d, u);
  }

  lemma NormScale(d: real, u: Vec)
    ensures Dot(Scale(d, u), Scale(d, u)) == Dot(u, u) * (d * d)
  {
    DotScale(d, u, Scale(d, u));
    DotScale(d, u, u);
    hide Dot, Scale;
  }

  /** A nonzero vector is its length times a unit axis. */
  lemma AxisIsUnit(v: Vec, d: real)
    requires d > 0.0 && d * d == Dot(v, v)
    ensures Unit(Divide(v, d)) && Scale(d, Divide(v, d)) == v
  {
    hide Dot, Divide, Scale;
    DivideScales(v, d);
    var n := Dot(Divide(v, d), Divide(v, d));
    ProductPositive(d, d, d * d);
    CancelEq(n, 1.0, d * d);
  }

  lemma LengthOfScaled(t: Trig, d: real, k: Vec)
    requires Laws(t) && Unit(k) && d >= 0.0
    ensures Length(t, Scale(d, k)) == d
  {
    hide Laws, Dot, Scale;
    NormScale(d, k);
    RootUnique(Length(t, Scale(d, k)), d);
  }

  lemma DivideUndoes(d: real, k: Vec)
    requires d > 0.0
    ensures Divide(Scale(d, k), d) == k
  {
    var v := Scale(d, k);
    hide Divide;
    DivideScales(v, d);
    var u := Divide(v, d);
    CancelEq(u.x, k.x, d);
    CancelEq(u.y, k.y, d);
    CancelEq(u.z, k.z, d);
  }

  lemma Pythagoras(t: Trig, x: real)
    requires Laws(t)
    ensures t.sin(x) * t.sin(x) + t.cos(x) * t.cos(x) == 1.0
  {
  }

  /** axis_angle_to_rot returns a proper rotation for every vector. */
  lemma AxisAngleToRotIsRotation(t: Trig, aa: Vec)
    requires Laws(t)
    ensures Rotation(AxisAngleToRot(t, aa))
  {
    hide Rotation, Rodrigues, Unit, Laws, Divide;
    var theta := Length(t, aa);
    Pythagoras(t, theta);
    if theta < 0.000000001 {
      IdentityRotation();
    } else {
      AxisIsUnit(aa, theta);
      RodriguesRotation(Divide(aa, theta), t.cos(theta), t.sin(theta));
    }
  }

  // ------------------------------------------------------------ the logarithm

  /** The rotation angle, from the clipped trace. */
  function AngleOf(t: Trig, r: Mat): real { t.arccos(Clip((Trace(r) - 1.0) / 2.0, -1.0, 1.0)) }

  /** Twice the sine of the angle times the axis. */
  function SkewPart(r: Mat): Vec { Vec(r.c2.z - r.c3.y, r.c3.x - r.c1.z, r.c1.y - r.c2.x) }

  function Column(m: Mat, k: nat): Vec { if k == 0 then m.c1 else if k == 1 then m.c2 else m.c3 }

  /** numpy argmax: the first largest. */
  function ArgMax(d: Vec): (k: nat)
    ensures k < 3
  {
    if d.x >= d.y && d.x >= d.z then 0 else if d.y >= d.z then 1 else 2
  }

  function Entry(d: Vec, k: nat): real { if k == 0 then d.x else if k == 1 then d.y else d.z }

  /** Near pi the axis is read off the largest column of (R + 1) / 2, its sign from the skew part. */
  function AxisNearPi(t: Trig, r: Mat): Vec
    requires Laws(t)
  {
    var m := MatScale(0.5, MatAdd(r, IDENTITY));
    var d := Vec(m.c1.x, m.c2.y, m.c3.z);
    var k := ArgMax(d);
    var ax := t.sqrt(Max(Entry(d, k), 0.0));
    var col := Divide(Column(m, k), if ax > 0.000000001 then ax else 1.0);
    if Dot(col, SkewPart(r)) < 0.0 then Scale(-1.0, col) else col
  }

  function RotToAxisAngle(t: Trig, r: Mat): Vec
    requires Laws(t)
  {
    var angle := AngleOf(t, r);
    if angle < 0.000000001 then ZERO
    else if angle > t.pi - 0.0001 then Scale(angle, AxisNearPi(t, r))
    else Scale(angle, Divide(SkewPart(r), 2.0 * t.sin(angle)))
  }

  lemma SineNonneg(t: Trig, x: real)
    requires Laws(t) && 0.0 <= x <= t.pi
    ensures t.sin(x) >= 0.0 && (t.sin(x) == 0.0 <==> x == 0.0 || x == t.pi)
  {
    Pythagoras(t, x);
    if x == 0.0 || x == t.pi {
      SquareZero(t.sin(x));
    }
  }

  /** log(exp(aa)) = aa for every vector whose length is in the regular range. */
  lemma LogExp(t: Trig, aa: Vec)
    requires Laws(t) && 0.000000001 <= Length(t, aa) <= t.pi - 0.0001
    ensures RotToAxisAngle(t, AxisAngleToRot(t, aa)) == aa
  {
    var theta := Length(t, aa);
    var k, c, s := Divide(aa, theta), t.cos(theta), t.sin(theta);
    assert t.arccos(c) == theta && s > 0.0;
    Pythagoras(t, theta);
    hide Laws, Rotation, Rodrigues, Unit, Divide, Dot;
    AxisIsUnit(aa, theta);
    RodriguesRotation(k, c, s);
    CosineRange(c, s);
    var r := Rodrigues(k, c, s);
    FormReads(r, k, 2.0 * (1.0 - c), 2.0 * s, 2.0 * (1.0 + c));
    DivideUndoes(2.0 * s, k);
    hide AxisForm;
  }

  lemma CosineRange(c: real, s: real)
    requires s * s + c * c == 1.0
    ensures -1.0 <= c <= 1.0
  {
    SquareNonneg(s);
    if c > 1.0 { MulLe(1.0, c, c); assert false; }
    if c < -1.0 { MulLe(1.0, -c, -c); assert false; }
  }

  /** What the logarithm reads off a matrix in axis form. */
  lemma FormReads(r: Mat, k: Vec, a: real, b: real, g: real)
    requires SymOf(r) == AxisForm(k, a, b, g)
    ensures Trace(r) == g - 1.0 && SkewPart(r) == Scale(b, k)
  {
    hide Term;
  }

  // ------------------------------------------------------------ when exp undoes log

  lemma DiagonalNonneg(pp: real, p1: real, p2: real, p3: real, q1: real, q2: real, q3: real)
    requires Vanishes(p1, p1, pp, q1) && Vanishes(p2, p2, pp, q2) && Vanishes(p3, p3, pp, q3)
    requires pp + q1 + q2 + q3 == 4.0
    ensures pp >= 0.0
  {
    SquareNonneg(p1);
    SquareNonneg(p2);
    SquareNonneg(p3);
    SquareNonneg(pp);
    assert pp * (pp + q1 + q2 + q3) == pp * 4.0;
  }

  lemma DiagonalsNonneg(p: Sym)
    requires RankOne(p) && Weight(p) == 4.0
    ensures p.xx >= 0.0 && p.yy >= 0.0 && p.zz >= 0.0 && 0.0 <= p.ww <= 4.0
  {
    hide RankOne, Vanishes;
    PivotMinors(p);
    DiagonalNonneg(p.ww, p.xw, p.yw, p.zw, p.xx, p.yy, p.zz);
    DiagonalNonneg(p.xx, p.xw, p.xy, p.xz, p.ww, p.yy, p.zz);
    DiagonalNonneg(p.yy, p.yw, p.xy, p.yz, p.ww, p.xx, p.zz);
    DiagonalNonneg(p.zz, p.zw, p.xz, p.yz, p.ww, p.xx, p.yy);
  }

  lemma RotationForm(r: Mat)
    requires Rotation(r)
    ensures var p := SymOf(r); RankOne(p) && Weight(p) == 4.0 && RotOf(p) == r && 0.0 <= p.ww <= 4.0
    ensures -1.0 <= Trace(r) <= 3.0
  {
    hide Rotation, RankOne;
    RotationIsRankOne(r);
    SymRoundTrip(r);
    DiagonalsNonneg(SymOf(r));
  }

  /** For a rotation the clip does nothing and the angle's cosine is the one in its trace. */
  lemma AngleOfRotation(t: Trig, r: Mat)
    requires Laws(t) && Rotation(r)
    ensures 0.0 <= AngleOf(t, r) <= t.pi && SymOf(r).ww == 2.0 * (1.0 + t.cos(AngleOf(t, r)))
    ensures t.cos(AngleOf(t, r)) == -1.0 <==> AngleOf(t, r) == t.pi
    ensures t.cos(AngleOf(t, r)) == 1.0 <==> AngleOf(t, r) == 0.0
  {
    hide Rotation, RankOne;
    RotationForm(r);
    var x := AngleOf(t, r);
    assert t.arccos(t.cos(x)) == x;
    assert t.arccos(t.cos(t.pi)) == t.pi;
    assert t.arccos(t.cos(0.0)) == 0.0;
  }

  lemma AxisTerm(a: real, b: real, g: real, p1: real, p2: real, q: real, x: real, y: real)
    requires Balanced(a, b, g) && b > 0.0 && x == p1 / b && y == p2 / b && Vanishes(p1, p2, g, q)
    ensures Term(a, x, y) == q
  {
    ProductPositive(b, b, a * g);
    var t := x * y;
    assert x * b == p1 && y * b == p2;
    assert p1 * p2 == (b * b) * t == (a * g) * t == g * (a * t);
    CancelEq(a * t, q, g);
  }

  /** The axis read off the skew part rebuilds the whole form, and is a unit vector. */
  lemma AxisFromSkew(p: Sym, a: real, b: real)
    requires RankOne(p) && Weight(p) == 4.0 && Balanced(a, b, p.ww) && b > 0.0
    ensures var k := Divide(Vec(p.xw, p.yw, p.zw), b); AxisForm(k, a, b, p.ww) == p && Unit(k)
  {
    hide RankOne, Vanishes, Times, Term, Divide, Balanced, Unit;
    var k := Divide(Vec(p.xw, p.yw, p.zw), b);
    DividedTimes(Vec(p.xw, p.yw, p.zw), b);
    BalancedNonzero(a, b, p.ww);
    PivotMinors(p);
    AxisTerm(a, b, p.ww, p.xw, p.xw, p.xx, k.x, k.x);
    AxisTerm(a, b, p.ww, p.yw, p.yw, p.yy, k.y, k.y);
    AxisTerm(a, b, p.ww, p.zw, p.zw, p.zz, k.z, k.z);
    AxisTerm(a, b, p.ww, p.xw, p.yw, p.xy, k.x, k.y);
    AxisTerm(a, b, p.ww, p.xw, p.zw, p.xz, k.x, k.z);
    AxisTerm(a, b, p.ww, p.yw, p.zw, p.yz, k.y, k.z);
    FormIsUnit(k, a, b, p.ww);
  }

  lemma DividedTimes(v: Vec, b: real)
    requires b > 0.0
    ensures var k := Divide(v, b);
      && Times(b, k.x) == v.x && Times(b, k.y) == v.y && Times(b, k.z) == v.z
      && k.x == v.x / b && k.y == v.y / b && k.z == v.z / b
  {
  }

  lemma BalancedNonzero(a: real, b: real, g: real)
    requires Balanced(a, b, g) && b > 0.0
    ensures a != 0.0
  {
    ProductPositive(b, b, a * g);
  }

  lemma FormIsUnit(k: Vec, a: real, b: real, g: real)
    requires Weight(AxisForm(k, a, b, g)) == 4.0 && Balanced(a, b, g) && a != 0.0
    ensures Unit(k)
  {
    var xx, yy, zz := k.x * k.x, k.y * k.y, k.z * k.z;
    assert a * xx + a * yy + a * zz == a * (xx + yy + zz);
    CancelEq(Dot(k, k), 1.0, a);
  }

  /** The exponential of an angle times a unit axis. */
  lemma ExpOfScaled(t: Trig, x: real, k: Vec)
    requires Laws(t) && Unit(k) && x >= 0.000000001
    ensures AxisAngleToRot(t, Scale(x, k)) == Rodrigues(k, t.cos(x), t.sin(x))
  {
    hide Laws, Unit, Rodrigues, Divide, Scale;
    LengthOfScaled(t, x, k);
    DivideUndoes(x, k);
  }

  /** A rotation by an angle strictly between 0 and pi is its Rodrigues form on the axis in its skew part. */
  lemma RotationAxis(t: Trig, r: Mat)
    requires Laws(t) && Rotation(r) && 0.0 < AngleOf(t, r) < t.pi
    ensures var x := AngleOf(t, r);
      var k := Divide(SkewPart(r), 2.0 * t.sin(x));
      t.sin(x) > 0.0 && Unit(k) && r == Rodrigues(k, t.cos(x), t.sin(x))
  {
    var x := AngleOf(t, r);
    var p, c, s := SymOf(r), t.cos(x), t.sin(x);
    hide Laws, Rotation, RankOne, Rodrigues, Unit, Balanced, Divide, AxisForm, Weight, RotOf;
    SineNonneg(t, x);
    Pythagoras(t, x);
    RotationForm(r);
    AngleOfRotation(t, r);
    CircleBalanced(c, s);
    AxisFromSkew(p, 2.0 * (1.0 - c), 2.0 * s);
    var k := Divide(SkewPart(r), 2.0 * s);
    RodriguesForm(k, c, s);
  }

  /** exp(log(R)) = R for every rotation whose angle is in the regular range. */
  lemma ExpLogRegular(t: Trig, r: Mat)
    requires Laws(t) && Rotation(r) && 0.000000001 <= AngleOf(t, r) <= t.pi - 0.0001
    ensures AxisAngleToRot(t, RotToAxisAngle(t, r)) == r
  {
    var x := AngleOf(t, r);
    RotationAxis(t, r);
    hide Laws, Rotation, Rodrigues, Unit, Divide;
    ExpOfScaled(t, x, Divide(SkewPart(r), 2.0 * t.sin(x)));
  }
}
