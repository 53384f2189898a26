/**
 * kinematics/fr3_kinematics.py _rot_to_axis_angle in its near-pi branch, and the exact condition under
 * which axis_angle_to_rot undoes it.
 */
module RotationLog {
  import opened Numeric
  import opened Linear
  import opened Quaternions
  import opened AxisAngle

  function Axis(k: nat): Vec { if k == 0 then E1 else if k == 1 then E2 else E3 }

  /** The diagonal entry that the near-pi branch picks. */
  function Picked(r: Mat): (k: nat)
    ensures k < 3
  {
    ArgMax(Vec((r.c1.x + 1.0) / 2.0, (r.c2.y + 1.0) / 2.0, (r.c3.z + 1.0) / 2.0))
  }

  function DiagonalEntry(r: Mat, k: nat): real { if k == 0 then r.c1.x else if k == 1 then r.c2.y else r.c3.z }

  lemma EntryIsDot(r: Mat, k: nat)
    requires k < 3
    ensures Dot(Column(r, k), Axis(k)) == DiagonalEntry(r, k) && Unit(Axis(k))
  {
  }

  lemma HalfSum(u: Vec, e: Vec, ax: real)
    requires Unit(u) && Unit(e) && ax > 0.0 && ax * ax == (1.0 + Dot(u, e)) / 2.0
    ensures var col := Divide(Scale(0.5, Add(u, e)), ax); Unit(col) && Dot(col, e) == ax
  {
    var sum := Add(u, e);
    var h := Scale(0.5, sum);
    assert Dot(h, h) == ax * ax && Dot(h, e) == ax * ax by {
      DotAdd(sum, u, e);
      DotAdd(u, u, e);
      DotAdd(e, u, e);
      DotCommutes(sum, u);
      DotCommutes(sum, e);
      DotCommutes(u, e);
      DotScale(0.5, sum, h);
      DotScale(0.5, sum, sum);
      DotScale(0.5, sum, e);
      hide Dot, Scale, Add;
    }
    hide Dot, Scale, Add, Divide;
    AxisIsUnit(h, ax);
    var col := Divide(h, ax);
    DotScale(ax, col, e);
    CancelEq(Dot(col, e), ax, ax);
  }

  lemma ColumnsUnit(r: Mat, k: nat)
    requires Rotation(r) && k < 3
    ensures Unit(Column(r, k))
  {
    hide Dot;
  }

  lemma PickedColumn(r: Mat)
    ensures var m, k := MatScale(0.5, MatAdd(r, IDENTITY)), Picked(r);
      var d := Vec(m.c1.x, m.c2.y, m.c3.z);
      && ArgMax(d) == k && Column(m, k) == Scale(0.5, Add(Column(r, k), Axis(k)))
      && Entry(d, k) == (1.0 + DiagonalEntry(r, k)) / 2.0
  {
  }

  lemma PickedIsLarge(r: Mat)
    requires Trace(r) >= -1.0
    ensures (1.0 + DiagonalEntry(r, Picked(r))) / 2.0 >= 0.3
  {
  }

  lemma SmallSquare(x: real)
    requires 0.0 <= x <= 0.5
    ensures x * x <= 0.25
  {
    MulNonneg(0.5 - x, 0.5 + x);
  }

  lemma RootOfLarge(t: Trig, q: real)
    requires Laws(t) && q >= 0.3
    ensures t.sqrt(q) > 0.5 && t.sqrt(q) * t.sqrt(q) == q
  {
    var ax := t.sqrt(q);
    assert ax >= 0.0 && ax * ax == q;
    hide Laws;
    if ax <= 0.5 { SmallSquare(ax); }
  }

  /** What the near-pi branch computes for a rotation: a unit axis, up to sign half a column plus its basis vector. */
  lemma AxisNearPiParts(t: Trig, r: Mat) returns (k: nat, ax: real)
    requires Laws(t) && Rotation(r)
    ensures k == Picked(r) && k < 3 && ax > 0.0 && ax * ax == (1.0 + DiagonalEntry(r, k)) / 2.0
    ensures var a, col := AxisNearPi(t, r), Divide(Scale(0.5, Add(Column(r, k), Axis(k))), ax);
      && (a == col || a == Scale(-1.0, col)) && Unit(a) && Dot(a, SkewPart(r)) >= 0.0
      && Dot(col, Axis(k)) == ax
  {
    hide Laws, Rotation, RankOne, Dot, Unit, Divide, Scale, Add, MatAdd, MatScale, SkewPart, Trace, Weight, RotOf;
    k := Picked(r);
    RotationForm(r);
    PickedColumn(r);
    PickedIsLarge(r);
    var q := (1.0 + DiagonalEntry(r, k)) / 2.0;
    ax := t.sqrt(q);
    RootOfLarge(t, q);
    ColumnsUnit(r, k);
    EntryIsDot(r, k);
    HalfSum(Column(r, k), Axis(k), ax);
    NegatedAxis(Divide(Scale(0.5, Add(Column(r, k), Axis(k))), ax), SkewPart(r));
  }

  lemma NegatedAxis(u: Vec, v: Vec)
    ensures Dot(Scale(-1.0, u), v) == -Dot(u, v)
    ensures Unit(u) ==> Unit(Scale(-1.0, u))
  {
    DotScale(-1.0, u, v);
    DotScale(-1.0, u, u);
    DotScale(-1.0, u, Scale(-1.0, u));
    hide Dot, Scale;
  }

  // ------------------------------------------------------------ a half turn

  lemma HalfTurnTerms(s: real, pp: real, p1: real, p2: real, q11: real, q22: real, q12: real,
                      a: real, b1: real, b2: real)
    requires s > 0.0 && s * s == 4.0 * pp && a == pp / s && b1 == p1 / s && b2 == p2 / s
    requires Vanishes(p1, p1, pp, q11) && Vanishes(p2, p2, pp, q22) && Vanishes(p1, p2, pp, q12)
    ensures Term(4.0, a, a) == pp && Term(4.0, a, b1) == p1 && Term(4.0, a, b2) == p2
    ensures Term(4.0, b1, a) == p1 && Term(4.0, b2, a) == p2
    ensures Term(4.0, b1, b1) == q11 && Term(4.0, b2, b2) == q22
    ensures Term(4.0, b1, b2) == q12 && Term(4.0, b2, b1) == q12
  {
    VanishesSelf(pp, pp);
    VanishesSelf(pp, p1);
    VanishesSelf(pp, p2);
    hide Vanishes, Term;
    PivotPair(s, pp, pp, pp, pp, a, a);
    PivotPair(s, pp, pp, p1, p1, a, b1);
    PivotPair(s, pp, pp, p2, p2, a, b2);
    PivotPair(s, pp, p1, p1, q11, b1, b1);
    PivotPair(s, pp, p2, p2, q22, b2, b2);
    PivotPair(s, pp, p1, p2, q12, b1, b2);
    TermCommutes(4.0, a, b1);
    TermCommutes(4.0, a, b2);
    TermCommutes(4.0, b1, b2);
  }

  lemma VanishesSelf(pp: real, p: real)
    ensures Vanishes(pp, p, pp, p)
  {
  }

  /** Row k of the symmetric form. */
  function RowOf(p: Sym, k: nat): Vec {
    if k == 0 then Vec(p.xx, p.xy, p.xz) else if k == 1 then Vec(p.xy, p.yy, p.yz) else Vec(p.xz, p.yz, p.zz)
  }

  function Pivot(p: Sym, k: nat): real { if k == 0 then p.xx else if k == 1 then p.yy else p.zz }

  lemma NegatedTerm(k: real, x: real, y: real)
    ensures Term(k, -1.0 * x, -1.0 * y) == Term(k, x, y)
  {
  }

  lemma NegatedForm(k: Vec, a: real, g: real)
    ensures AxisForm(Scale(-1.0, k), a, 0.0, g) == AxisForm(k, a, 0.0, g)
  {
    hide Term;
    NegatedTerm(a, k.x, k.x);
    NegatedTerm(a, k.y, k.y);
    NegatedTerm(a, k.z, k.z);
    NegatedTerm(a, k.x, k.y);
    NegatedTerm(a, k.x, k.z);
    NegatedTerm(a, k.y, k.z);
  }

  /** A rank-one form without a w part is four times the products of any of its normalised rows. */
  lemma RowRebuilds(p: Sym, k: nat, s: real, v: Vec)
    requires RankOne(p) && p.ww == 0.0 && k < 3 && s > 0.0 && s * s == 4.0 * Pivot(p, k)
    requires v == Divide(RowOf(p, k), s)
    ensures AxisForm(v, 4.0, 0.0, 0.0) == p
  {
    NoSkew(p);
    PivotMinors(p);
    hide RankOne, Vanishes, Term;
    if k == 0 {
      HalfTurnTerms(s, p.xx, p.xy, p.xz, p.yy, p.zz, p.yz, v.x, v.y, v.z);
    } else if k == 1 {
      HalfTurnTerms(s, p.yy, p.xy, p.yz, p.xx, p.zz, p.xz, v.y, v.x, v.z);
    } else {
      HalfTurnTerms(s, p.zz, p.xz, p.yz, p.xx, p.yy, p.xy, v.z, v.x, v.y);
    }
  }

  lemma NoSkew(p: Sym)
    requires RankOne(p) && p.ww == 0.0
    ensures p.xw == 0.0 && p.yw == 0.0 && p.zw == 0.0
  {
    PivotMinors(p);
    hide RankOne;
    SquareZero(p.xw);
    SquareZero(p.yw);
    SquareZero(p.zw);
  }

  /** The picked column of a half turn is a row of its form over four. */
  lemma HalfTurnRow(r: Mat, k: nat)
    requires SymOf(r).ww == 0.0 && RankOne(SymOf(r)) && k < 3
    ensures Scale(0.5, Add(Column(r, k), Axis(k))) == Scale(0.25, RowOf(SymOf(r), k))
    ensures Pivot(SymOf(r), k) == 2.0 * (1.0 + DiagonalEntry(r, k))
  {
    NoSkew(SymOf(r));
    hide RankOne;
  }

  lemma DivideQuarter(v: Vec, ax: real)
    requires ax != 0.0
    ensures Divide(Scale(0.25, v), ax) == Divide(v, 4.0 * ax)
  {
    QuarterEntry(v.x, ax);
    QuarterEntry(v.y, ax);
    QuarterEntry(v.z, ax);
  }

  lemma QuarterEntry(x: real, ax: real)
    requires ax != 0.0
    ensures 0.25 * x / ax == x / (4.0 * ax)
  {
    var y := x / (4.0 * ax);
    assert y * (4.0 * ax) == x;
    CancelEq(y, 0.25 * x / ax, ax);
  }

  /** A half turn is rebuilt from the axis the near-pi branch reads off it. */
  lemma HalfTurnRebuilt(t: Trig, r: Mat)
    requires Laws(t) && Rotation(r) && AngleOf(t, r) == t.pi
    ensures Unit(AxisNearPi(t, r)) && Rodrigues(AxisNearPi(t, r), -1.0, 0.0) == r
  {
    hide Laws, Rotation, RankOne, Dot, Unit, Divide, Scale, Add, AxisNearPi, Rodrigues, SkewPart;
    hide RotOf, SymOf, Weight, AxisForm;
    AngleOfRotation(t, r);
    RotationForm(r);
    var k, ax := AxisNearPiParts(t, r);
    var p, a := SymOf(r), AxisNearPi(t, r);
    HalfTurnRow(r, k);
    DivideQuarter(RowOf(p, k), ax);
    var v := Divide(RowOf(p, k), 4.0 * ax);
    assert (4.0 * ax) * (4.0 * ax) == 4.0 * Pivot(p, k);
    RowRebuilds(p, k, 4.0 * ax, v);
    NegatedForm(v, 4.0, 0.0);
    RodriguesForm(a, -1.0, 0.0);
  }

  // ------------------------------------------------------------ just short of a half turn

  lemma DiagonalOfRodrigues(k: Vec, c: real, s: real, j: nat)
    requires Unit(k) && s * s + c * c == 1.0 && j < 3
    ensures var x := Dot(k, Axis(j));
      DiagonalEntry(Rodrigues(k, c, s), j) == c + (1.0 - c) * (x * x)
  {
    hide Rodrigues, Unit, Dot, AxisForm, SymOf, Rotation, DiagonalEntry, Entry;
    RodriguesRotation(k, c, s);
    AxisEntry(k, j);
    DiagonalFromForm(Rodrigues(k, c, s), k, c, s, j);
  }

  lemma AxisEntry(k: Vec, j: nat)
    requires j < 3
    ensures Dot(k, Axis(j)) == Entry(k, j)
  {
  }

  lemma DiagonalFromForm(r: Mat, k: Vec, c: real, s: real, j: nat)
    requires SymOf(r) == AxisForm(k, 2.0 * (1.0 - c), 2.0 * s, 2.0 * (1.0 + c)) && j < 3
    ensures DiagonalEntry(r, j) == c + (1.0 - c) * (Entry(k, j) * Entry(k, j))
  {
    hide Term;
    HalfTerm(c, k.x);
    HalfTerm(c, k.y);
    HalfTerm(c, k.z);
    assert SymOf(r).xx + SymOf(r).ww == 2.0 + 2.0 * r.c1.x;
    assert SymOf(r).yy + SymOf(r).ww == 2.0 + 2.0 * r.c2.y;
    assert SymOf(r).zz + SymOf(r).ww == 2.0 + 2.0 * r.c3.z;
  }

  lemma HalfTerm(c: real, x: real)
    ensures Term(2.0 * (1.0 - c), x, x) == 2.0 * ((1.0 - c) * (x * x))
  {
  }

  lemma SameAxis(a: Vec, b: Vec, c: real, s: real)
    requires Unit(a) && Unit(b) && s * s + c * c == 1.0 && s > 0.0
    requires Rodrigues(a, c, s) == Rodrigues(b, c, s)
    ensures a == b
  {
    hide Unit, Rodrigues, AxisForm, Divide, SymOf, SkewPart, Scale, Rotation;
    RodriguesRotation(a, c, s);
    RodriguesRotation(b, c, s);
    var r := Rodrigues(a, c, s);
    FormReads(r, a, 2.0 * (1.0 - c), 2.0 * s, 2.0 * (1.0 + c));
    FormReads(r, b, 2.0 * (1.0 - c), 2.0 * s, 2.0 * (1.0 + c));
    DivideUndoes(2.0 * s, a);
    DivideUndoes(2.0 * s, b);
  }

  lemma EqualUnits(u: Vec, v: Vec)
    requires Unit(u) && Unit(v) && Dot(u, v) == 1.0
    ensures u == v
  {
    DotSub(u, v);
    hide Dot;
    NormZero(Sub(u, v));
    SubZero(u, v);
  }

  lemma FactorOne(k: real, q: real, kq: real)
    requires k != 0.0 && kq == k * q && kq == k
    ensures q == 1.0
  {
    CancelEq(q, 1.0, k);
  }

  lemma SolveSquare(m: real, q: real, mq: real, d: real)
    requires 0.0 < m < 2.0 && mq == m * q && d == 1.0 - m + mq
    ensures d == 1.0 <==> q == 1.0
    ensures q == (1.0 + d) / 2.0 ==> q == 1.0
  {
    var n := 2.0 - m;
    Distribute(2.0, m, n, q);
    var nq := n * q;
    if d == 1.0 { FactorOne(m, q, mq); }
    if q == (1.0 + d) / 2.0 { FactorOne(n, q, nq); }
  }

  lemma PickedIsLargest(r: Mat, i: nat)
    requires i < 3
    ensures DiagonalEntry(r, i) <= DiagonalEntry(r, Picked(r))
  {
  }

  lemma CauchySchwarz(u: Vec, v: Vec)
    requires Unit(u) && Unit(v)
    ensures Dot(u, v) <= 1.0
  {
    DotSub(u, v);
    NormNonneg(Sub(u, v));
    hide Dot, Sub;
  }

  /** Some column of the rotation is a coordinate axis: it turns about that axis. */
  predicate AboutCoordinateAxis(r: Mat) { r.c1.x == 1.0 || r.c2.y == 1.0 || r.c3.z == 1.0 }

  /** The true axis of a rotation by less than pi, and what the near-pi branch reads instead. */
  lemma NearPiFacts(t: Trig, r: Mat) returns (k: nat, ax: real)
    requires Laws(t) && Rotation(r) && 0.0 < AngleOf(t, r) < t.pi
    ensures k == Picked(r) && k < 3 && ax > 0.0 && t.sin(AngleOf(t, r)) > 0.0
    ensures var c, s := t.cos(AngleOf(t, r)), t.sin(AngleOf(t, r));
      var kk, a := Divide(SkewPart(r), 2.0 * s), AxisNearPi(t, r);
      var col := Divide(Scale(0.5, Add(Column(r, k), Axis(k))), ax);
      && s * s + c * c == 1.0 && Unit(kk) && r == Rodrigues(kk, c, s)
      && ax * ax == (1.0 + DiagonalEntry(r, k)) / 2.0
      && (a == col || a == Scale(-1.0, col)) && Unit(a) && Dot(a, SkewPart(r)) >= 0.0 && Dot(col, Axis(k)) == ax
      && (DiagonalEntry(r, k) == 1.0 <==> Dot(kk, Axis(k)) * Dot(kk, Axis(k)) == 1.0)
      && (Dot(kk, Axis(k)) * Dot(kk, Axis(k)) == (1.0 + DiagonalEntry(r, k)) / 2.0 ==> DiagonalEntry(r, k) == 1.0)
  {
    var x := AngleOf(t, r);
    var c, s := t.cos(x), t.sin(x);
    hide Laws, Rotation, Dot, Unit, Divide, Scale, Add, AxisNearPi, Rodrigues, SkewPart, SymOf;
    AngleOfRotation(t, r);
    RotationAxis(t, r);
    Pythagoras(t, x);
    CosineRange(c, s);
    var kk := Divide(SkewPart(r), 2.0 * s);
    k, ax := AxisNearPiParts(t, r);
    DiagonalOfRodrigues(kk, c, s, k);
    var q := Dot(kk, Axis(k)) * Dot(kk, Axis(k));
    SolveSquare(1.0 - c, q, (1.0 - c) * q, DiagonalEntry(r, k));
  }

  /** A right axis means a coordinate axis: its square component is the picked diagonal's, hence one. */
  lemma RightAxisIsCoordinate(a: Vec, kk: Vec, col: Vec, e: Vec, ax: real, d: real)
    requires a == kk && (a == col || a == Scale(-1.0, col)) && Dot(col, e) == ax && ax * ax == (1.0 + d) / 2.0
    ensures Dot(kk, e) * Dot(kk, e) == (1.0 + d) / 2.0
  {
    NegatedAxis(col, e);
    hide Dot, Scale;
  }

  lemma PickedAxis(r: Mat, k: nat)
    requires Rotation(r) && k == Picked(r) && AboutCoordinateAxis(r)
    ensures DiagonalEntry(r, k) == 1.0 && Column(r, k) == Axis(k)
  {
    PickedIsLargest(r, 0);
    PickedIsLargest(r, 1);
    PickedIsLargest(r, 2);
    assert DiagonalEntry(r, k) >= 1.0;
    hide Rotation, Dot, Unit, Picked, AboutCoordinateAxis, DiagonalEntry;
    EntryIsDot(r, k);
    ColumnsUnit(r, k);
    CauchySchwarz(Column(r, k), Axis(k));
    EqualUnits(Column(r, k), Axis(k));
  }

  /** About a coordinate axis the picked column is that axis, and the sign fix makes it the right one. */
  lemma CoordinateIsRight(e: Vec, kk: Vec, a: Vec, ax: real, b: real)
    requires Unit(e) && Unit(kk) && Unit(a) && b > 0.0 && ax > 0.0 && ax * ax == 1.0
    requires var col := Divide(Scale(0.5, Add(e, e)), ax); a == col || a == Scale(-1.0, col)
    requires Dot(a, Scale(b, kk)) >= 0.0 && Dot(kk, e) * Dot(kk, e) == 1.0
    ensures a == kk
  {
    hide Dot, Unit, Divide, Scale, Add;
    RootUnique(ax, 1.0);
    CoordinateColumn(e);
    SignedAxis(a, kk, e, b);
  }

  /** Between the near-pi threshold and pi, the axis read off is the true one only about a coordinate axis. */
  lemma NearPiAxis(t: Trig, r: Mat)
    requires Laws(t) && Rotation(r) && 0.0 < AngleOf(t, r) < t.pi
    ensures var x := AngleOf(t, r);
      Unit(AxisNearPi(t, r)) &&
      (Rodrigues(AxisNearPi(t, r), t.cos(x), t.sin(x)) == r <==> AboutCoordinateAxis(r))
  {
    var x := AngleOf(t, r);
    var c, s := t.cos(x), t.sin(x);
    hide Laws, Rotation, Dot, Unit, Divide, Scale, Add, AxisNearPi, Rodrigues, SkewPart, AngleOf, Picked;
    var k, ax := NearPiFacts(t, r);
    var kk, a := Divide(SkewPart(r), 2.0 * s), AxisNearPi(t, r);
    var col := Divide(Scale(0.5, Add(Column(r, k), Axis(k))), ax);
    if Rodrigues(a, c, s) == r {
      SameAxis(a, kk, c, s);
      RightAxisIsCoordinate(a, kk, col, Axis(k), ax, DiagonalEntry(r, k));
      assert AboutCoordinateAxis(r);
    }
    hide AboutCoordinateAxis, DiagonalEntry;
    if AboutCoordinateAxis(r) {
      PickedAxis(r, k);
      EntryIsDot(r, k);
      DivideScales(SkewPart(r), 2.0 * s);
      CoordinateIsRight(Axis(k), kk, a, ax, 2.0 * s);
    }
  }

  lemma CoordinateColumn(e: Vec)
    ensures Divide(Scale(0.5, Add(e, e)), 1.0) == e
  {
  }

  lemma OneRoots(d: real)
    requires d * d == 1.0
    ensures d == 1.0 || d == -1.0
  {
    if d != 1.0 {
      var m, n := d - 1.0, d + 1.0;
      assert n * m == 0.0;
      CancelEq(n, 0.0, m);
    }
  }

  lemma SignedAxis(a: Vec, kk: Vec, e: Vec, b: real)
    requires Unit(a) && Unit(kk) && Unit(e) && b > 0.0 && (a == e || a == Scale(-1.0, e))
    requires Dot(kk, e) * Dot(kk, e) == 1.0 && Dot(a, Scale(b, kk)) >= 0.0
    ensures a == kk
  {
    hide Dot, Scale;
    var d := Dot(kk, e);
    OneRoots(d);
    DotScale(b, a, kk);
    DotScale(b, kk, a);
    DotCommutes(a, kk);
    DotCommutes(a, Scale(b, kk));
    DotCommutes(e, kk);
    DotScale(-1.0, e, kk);
    FactorNonneg(b, Dot(kk, a));
    EqualUnits(a, kk);
  }

  // ------------------------------------------------------------ the exact condition

  /** When axis_angle_to_rot undoes _rot_to_axis_angle, in terms of the angle and the diagonal. */
  predicate LogExact(t: Trig, r: Mat) {
    var x := AngleOf(t, r);
    x == 0.0 || (x >= 0.000000001 && (x <= t.pi - 0.0001 || x == t.pi || AboutCoordinateAxis(r)))
  }

  lemma VanishZero(p: real, m: real, n: real)
    requires Vanishes(p, p, m, n) && m == 0.0
    ensures p == 0.0
  {
    SquareZero(p);
  }

  lemma FullWeight(p: Sym)
    requires RankOne(p) && Weight(p) == 4.0 && p.ww == 4.0
    ensures RotOf(p) == IDENTITY
  {
    hide RankOne, Vanishes;
    DiagonalsNonneg(p);
    PivotMinors(p);
    VanishZero(p.xw, p.xx, p.ww);
    VanishZero(p.yw, p.yy, p.ww);
    VanishZero(p.zw, p.zz, p.ww);
    VanishZero(p.xy, p.xx, p.yy);
    VanishZero(p.xz, p.xx, p.zz);
    VanishZero(p.yz, p.yy, p.zz);
  }

  lemma NoTurn(t: Trig, r: Mat)
    requires Laws(t) && Rotation(r)
    ensures AngleOf(t, r) == 0.0 <==> r == IDENTITY
  {
    hide Laws, Rotation, RankOne, RotOf, AngleOf;
    AngleOfRotation(t, r);
    RotationForm(r);
    if SymOf(r).ww == 4.0 {
      FullWeight(SymOf(r));
    }
  }

  /**
   * The rotation comes back exactly when it is the identity, or its angle is in the regular range, or it is
   * a half turn, or it turns about a coordinate axis. In the band (pi - 1e-4, pi) every other rotation is
   * returned with a wrong axis; below 1e-9 every rotation but the identity is lost.
   */
  lemma ExpLogIff(t: Trig, r: Mat)
    requires Laws(t) && Rotation(r)
    ensures AxisAngleToRot(t, RotToAxisAngle(t, r)) == r <==> LogExact(t, r)
  {
    var x := AngleOf(t, r);
    NoTurn(t, r);
    hide Rotation;
    if x < 0.000000001 {
      ExpOfZero(t);
    } else if x <= t.pi - 0.0001 {
      ExpLogRegular(t, r);
    } else {
      NearPiExp(t, r);
    }
  }

  lemma ExpOfZero(t: Trig)
    requires Laws(t)
    ensures AxisAngleToRot(t, ZERO) == IDENTITY
  {
    hide Laws, Dot;
    DotZero();
    SquareZero(Length(t, ZERO));
  }

  lemma NearPiExp(t: Trig, r: Mat)
    requires Laws(t) && Rotation(r) && AngleOf(t, r) > t.pi - 0.0001
    ensures AxisAngleToRot(t, RotToAxisAngle(t, r)) == r <==> LogExact(t, r)
  {
    var x := AngleOf(t, r);
    assert t.pi > 3.0 && t.cos(t.pi) == -1.0;
    hide Laws, Rotation, Rodrigues, Unit, AxisNearPi, AxisAngleToRot, AboutCoordinateAxis;
    AngleOfRotation(t, r);
    if x == t.pi {
      HalfTurnRebuilt(t, r);
      SineNonneg(t, x);
    } else {
      NearPiAxis(t, r);
    }
    ExpOfScaled(t, x, AxisNearPi(t, r));
  }

  // ------------------------------------------------------------ inputs that do not come back

  lemma AngleOfRodrigues(t: Trig, k: Vec, x: real)
    requires Laws(t) && Unit(k) && 0.0 <= x <= t.pi
    ensures var r := Rodrigues(k, t.cos(x), t.sin(x)); Rotation(r) && AngleOf(t, r) == x
  {
    var c, s := t.cos(x), t.sin(x);
    assert t.arccos(c) == x;
    Pythagoras(t, x);
    hide Laws, Unit, Rotation, Rodrigues;
    CosineRange(c, s);
    RodriguesRotation(k, c, s);
    FormReads(Rodrigues(k, c, s), k, 2.0 * (1.0 - c), 2.0 * s, 2.0 * (1.0 + c));
    hide AxisForm, SymOf;
  }

  lemma CosineBelowOne(t: Trig, x: real)
    requires Laws(t) && 0.0 < x <= t.pi
    ensures t.cos(x) < 1.0
  {
    assert t.arccos(t.cos(x)) == x && t.arccos(t.cos(0.0)) == 0.0;
    Pythagoras(t, x);
    hide Laws;
    CosineRange(t.cos(x), t.sin(x));
  }

  lemma TiltedDiagonal(c: real, d: real, q: real, dq: real)
    requires d == 1.0 - c && d > 0.0 && dq == d * q && c + dq == 1.0
    ensures q == 1.0
  {
    FactorOne(d, q, dq);
  }

  lemma NotAboutCoordinateAxis(t: Trig, k: Vec, x: real)
    requires Laws(t) && Unit(k) && 0.0 < x < t.pi
    requires forall j: nat | j < 3 :: Dot(k, Axis(j)) * Dot(k, Axis(j)) != 1.0
    ensures !AboutCoordinateAxis(Rodrigues(k, t.cos(x), t.sin(x)))
  {
    var c, s := t.cos(x), t.sin(x);
    var r := Rodrigues(k, c, s);
    hide Laws, Unit, Dot, Rodrigues;
    CosineBelowOne(t, x);
    Pythagoras(t, x);
    forall j: nat | j < 3 ensures DiagonalEntry(r, j) != 1.0 {
      DiagonalOfRodrigues(k, c, s, j);
      var q := Dot(k, Axis(j)) * Dot(k, Axis(j));
      if DiagonalEntry(r, j) == 1.0 { TiltedDiagonal(c, 1.0 - c, q, (1.0 - c) * q); }
    }
    assert DiagonalEntry(r, 0) != 1.0 && DiagonalEntry(r, 1) != 1.0 && DiagonalEntry(r, 2) != 1.0;
  }

  /** A rotation in the band below a half turn comes back wrong whenever its axis is no coordinate axis. */
  lemma BandRotationIsLost(t: Trig, k: Vec, x: real)
    requires Laws(t) && Unit(k) && t.pi - 0.0001 < x < t.pi
    requires forall j: nat | j < 3 :: Dot(k, Axis(j)) * Dot(k, Axis(j)) != 1.0
    ensures var r := Rodrigues(k, t.cos(x), t.sin(x));
      Rotation(r) && AxisAngleToRot(t, RotToAxisAngle(t, r)) != r
  {
    hide Laws, Unit, Dot, Rotation, Rodrigues, AxisAngleToRot, RotToAxisAngle, AboutCoordinateAxis, AngleOf;
    PiAboveThree(t);
    NotAboutCoordinateAxis(t, k, x);
    AngleOfRodrigues(t, k, x);
    ExpLogIff(t, Rodrigues(k, t.cos(x), t.sin(x)));
  }

  lemma PiAboveThree(t: Trig)
    requires Laws(t)
    ensures t.pi > 3.0
  {
  }

  const SLANTED := Vec(0.6, 0.8, 0.0)

  lemma SlantedAxis()
    ensures Unit(SLANTED)
    ensures Dot(SLANTED, E1) == 0.6 && Dot(SLANTED, E2) == 0.8 && Dot(SLANTED, E3) == 0.0
  {
  }

  /** The rotation about (0.6, 0.8, 0) that stops 0.00005 short of a half turn. */
  function Slanted(t: Trig): Mat { Rodrigues(SLANTED, t.cos(t.pi - 0.00005), t.sin(t.pi - 0.00005)) }

  lemma SlantedIsLost(t: Trig)
    requires Laws(t)
    ensures Rotation(Slanted(t)) && AxisAngleToRot(t, RotToAxisAngle(t, Slanted(t))) != Slanted(t)
  {
    hide Laws, Unit, Dot, Rodrigues, AxisAngleToRot, RotToAxisAngle;
    SlantedAxis();
    forall j: nat | j < 3 ensures Dot(SLANTED, Axis(j)) * Dot(SLANTED, Axis(j)) != 1.0 {
      assert j == 0 || j == 1 || j == 2;
    }
    BandRotationIsLost(t, SLANTED, t.pi - 0.00005);
  }
}
