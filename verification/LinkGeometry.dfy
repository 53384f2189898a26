/**
 * The geometry of the arm: how each joint frame sits on the one before it, and where the end effector is in two
 * poses that together tell the entries of the table apart.
 */
module LinkGeometry {
  import opened Numeric
  import opened Linear
  import opened Quaternions
  import opened AxisAngle
  import opened Kinematics

  // ------------------------------------------------------------ neighbouring frames

  lemma LinkAxes(t: Trig, l: Link, theta: real)
    ensures var g := LinkPose(t, l, theta);
      && Dot(E1, g.rot.c1) == t.cos(theta) && Dot(E3, g.rot.c3) == t.cos(l.alpha)
      && Dot(Cross(E3, g.rot.c3), E1) == t.sin(l.alpha) && Dot(E1, g.rot.c3) == 0.0
      && g.pos == Add(Scale(l.a, E1), Scale(l.d, g.rot.c3))
  {
  }

  lemma LinkTurn(t: Trig, l: Link, theta: real)
    requires Laws(t)
    ensures var g := LinkPose(t, l, theta); Dot(Cross(E1, g.rot.c1), g.rot.c3) == t.sin(theta)
  {
    hide Laws;
    Pythagoras(t, l.alpha);
    LinkTurnCore(t.cos(l.alpha), t.sin(l.alpha), t.cos(theta), t.sin(theta));
  }

  lemma LinkTurnCore(ca: real, sa: real, ct: real, st: real)
    requires sa * sa + ca * ca == 1.0
    ensures var r := LinkRot(ca, sa, ct, st); Dot(Cross(E1, r.c1), r.c3) == st
  {
    var x := Cross(E1, Vec(ct, st * ca, st * sa));
    CrossFirst(ct, st * ca, st * sa);
    assert Dot(x, Vec(0.0, -sa, ca)) == (st * sa) * sa + (st * ca) * ca;
    assert (st * sa) * sa + (st * ca) * ca == st * (sa * sa + ca * ca);
  }

  lemma CrossFirst(x: real, y: real, z: real)
    ensures Cross(E1, Vec(x, y, z)) == Vec(0.0, -z, y)
  {
  }

  /**
   * Frame i stands on frame i - 1 as the table says: its origin is a along the old x axis and d along its own z
   * axis; that z axis is the old one turned by alpha about the old x axis, and its x axis is the old one turned by the
   * joint angle about that z axis.
   */
  lemma FrameGeometry(t: Trig, q: Joints, i: nat)
    requires Laws(t) && 1 <= i <= 8
    ensures var l, theta := Mdh(t)[i - 1], Angles(q)[i - 1];
      var x, z := Frame(t, q, i - 1).rot.c1, Frame(t, q, i - 1).rot.c3;
      var x', z' := Frame(t, q, i).rot.c1, Frame(t, q, i).rot.c3;
      && Frame(t, q, i).pos == Add(Frame(t, q, i - 1).pos, Add(Scale(l.a, x), Scale(l.d, z')))
      && Dot(z, z') == t.cos(l.alpha) && Dot(Cross(z, z'), x) == t.sin(l.alpha) && Dot(x, z') == 0.0
      && Dot(x, x') == t.cos(theta) && Dot(Cross(x, x'), z') == t.sin(theta)
  {
    var l, theta, prev := Mdh(t)[i - 1], Angles(q)[i - 1], Frame(t, q, i - 1);
    var g := LinkPose(t, l, theta);
    LinkAxes(t, l, theta);
    LinkTurn(t, l, theta);
    FrameRigid(t, q, i - 1);
    assert Frame(t, q, i) == Compose(prev, g);
    hide Laws, Frame, LinkPose, Rotation, Dot, Cross, Apply, Add, Scale;
    ApplyUnits(prev.rot);
    TurnedFrame(prev.rot, g.rot);
    ApplyAdd(prev.rot, Scale(l.a, E1), Scale(l.d, g.rot.c3));
    ApplyScale(prev.rot, l.a, E1);
    ApplyScale(prev.rot, l.d, g.rot.c3);
    AddFlips(Apply(prev.rot, g.pos), prev.pos);
  }

  lemma AddFlips(u: Vec, v: Vec)
    ensures Add(u, v) == Add(v, u)
  {
  }

  /** Seen from the base, angles between a frame's axes and its successor's are as seen from the frame. */
  lemma TurnedFrame(r: Mat, g: Mat)
    requires Rotation(r)
    ensures Dot(Apply(r, E3), Apply(r, g.c3)) == Dot(E3, g.c3) && Dot(Apply(r, E1), Apply(r, g.c3)) == Dot(E1, g.c3)
    ensures Dot(Apply(r, E1), Apply(r, g.c1)) == Dot(E1, g.c1)
    ensures Dot(Cross(Apply(r, E3), Apply(r, g.c3)), Apply(r, E1)) == Dot(Cross(E3, g.c3), E1)
    ensures Dot(Cross(Apply(r, E1), Apply(r, g.c1)), Apply(r, g.c3)) == Dot(Cross(E1, g.c1), g.c3)
  {
    hide Rotation, Apply, Dot, Cross;
    RotationKeepsDot(r, E3, g.c3);
    RotationKeepsDot(r, E1, g.c3);
    RotationKeepsDot(r, E1, g.c1);
    RotationKeepsCross(r, E3, g.c3);
    RotationKeepsCross(r, E1, g.c1);
    RotationKeepsDot(r, Cross(E3, g.c3), E1);
    RotationKeepsDot(r, Cross(E1, g.c1), g.c3);
  }

  // ------------------------------------------------------------ four poses

  lemma QuarterTurns(t: Trig)
    requires Laws(t) && Adds(t)
    ensures t.cos(0.0) == 1.0 && t.sin(0.0) == 0.0
    ensures t.cos(t.pi / 2.0) == 0.0 && t.sin(t.pi / 2.0) == 1.0
    ensures t.cos(-t.pi / 2.0) == 0.0 && t.sin(-t.pi / 2.0) == -1.0
  {
    hide Laws, Adds;
    HalfPiLaws(t);
    Pythagoras(t, 0.0);
    SquareZero(t.sin(0.0));
    QuarterOf(t, t.pi / 2.0, -t.pi / 2.0);
  }

  lemma QuarterOf(t: Trig, h: real, n: real)
    requires Laws(t) && Adds(t) && h + h == t.pi && h + n == 0.0 && t.sin(h) > 0.0
    requires t.cos(t.pi) == -1.0 && t.cos(0.0) == 1.0 && t.sin(0.0) == 0.0
    ensures t.cos(h) == 0.0 && t.sin(h) == 1.0 && t.cos(n) == 0.0 && t.sin(n) == -1.0
  {
    hide Laws, Adds;
    AngleSum(t, h, h);
    AngleSum(t, h, n);
    Pythagoras(t, h);
    QuarterCore(t.cos(h), t.sin(h), t.cos(n), t.sin(n));
  }

  lemma HalfPiLaws(t: Trig)
    requires Laws(t)
    ensures t.cos(0.0) == 1.0 && t.cos(t.pi) == -1.0 && t.sin(t.pi / 2.0) > 0.0
  {
    var h := t.pi / 2.0;
    assert 0.0 < h < t.pi;
  }

  lemma QuarterCore(c: real, s: real, cn: real, sn: real)
    requires s * s + c * c == 1.0 && s > 0.0 && c * c - s * s == -1.0
    requires s * cn + c * sn == 0.0 && c * cn - s * sn == 1.0
    ensures c == 0.0 && s == 1.0 && cn == 0.0 && sn == -1.0
  {
    SquareZero(c);
    assert (s - 1.0) * (s + 1.0) == 0.0;
    if s != 1.0 { CancelEq(s + 1.0, 0.0, s - 1.0); }
  }

  const N1 := Vec(-1.0, 0.0, 0.0)
  const N2 := Vec(0.0, -1.0, 0.0)
  const N3 := Vec(0.0, 0.0, -1.0)

  lemma FirstFrame(t: Trig, q: Joints)
    ensures Frame(t, q, 0) == ORIGIN
  {
  }

  lemma Signs()
    ensures Scale(1.0, E1) == E1 && Scale(1.0, E2) == E2 && Scale(1.0, E3) == E3
    ensures Scale(1.0, N1) == N1 && Scale(1.0, N2) == N2 && Scale(1.0, N3) == N3
    ensures Scale(-1.0, E1) == N1 && Scale(-1.0, E2) == N2 && Scale(-1.0, E3) == N3
    ensures Scale(-1.0, N1) == E1 && Scale(-1.0, N2) == E2 && Scale(-1.0, N3) == E3
  {
  }

  lemma ScaleUnits(k: real)
    ensures Scale(k, E1) == Vec(k, 0.0, 0.0) && Scale(k, E2) == Vec(0.0, k, 0.0) && Scale(k, E3) == Vec(0.0, 0.0, k)
    ensures Scale(k, N1) == Vec(-k, 0.0, 0.0) && Scale(k, N2) == Vec(0.0, -k, 0.0) && Scale(k, N3) == Vec(0.0, 0.0, -k)
  {
  }

  lemma Level(a: Mat)
    ensures Mul(a, LinkRot(1.0, 0.0, 1.0, 0.0)) == a
  {
    assert LinkRot(1.0, 0.0, 1.0, 0.0) == IDENTITY;
    hide LinkRot;
    MulIdentity(a);
  }

  /** A quarter turn of alpha with the joint at zero. */
  lemma Straight(a: Mat, s: real)
    requires s == 1.0 || s == -1.0
    ensures Mul(a, LinkRot(0.0, s, 1.0, 0.0)) == Mat(Scale(1.0, a.c1), Scale(s, a.c3), Scale(-s, a.c2))
  {
    assert LinkRot(0.0, s, 1.0, 0.0) == Mat(E1, Vec(0.0, 0.0, s), Vec(0.0, -s, 0.0));
    hide LinkRot;
    AxisColumn(a, 1.0, s, -s);
  }

  /** And with the joint at a right angle. */
  lemma Elbow(a: Mat, s: real, st: real)
    requires (s == 1.0 || s == -1.0) && (st == 1.0 || st == -1.0)
    ensures Mul(a, LinkRot(0.0, s, 0.0, st)) == Mat(Scale(st * s, a.c3), Scale(-st, a.c1), Scale(-s, a.c2))
  {
    assert LinkRot(0.0, s, 0.0, st) == Mat(Vec(0.0, 0.0, st * s), Vec(-st, 0.0, 0.0), Vec(0.0, -s, 0.0));
    hide LinkRot;
    AxisColumn(a, -st, st * s, -s);
  }

  lemma AxisColumn(a: Mat, x: real, z: real, y: real)
    ensures Apply(a, Vec(x, 0.0, 0.0)) == Scale(x, a.c1) && Apply(a, Vec(0.0, 0.0, z)) == Scale(z, a.c3)
    ensures Apply(a, Vec(0.0, y, 0.0)) == Scale(y, a.c2)
  {
  }

  /** One more link, its cosines and sines known. */
  lemma NextRot(t: Trig, q: Joints, n: nat, prev: Mat, ca: real, sa: real, ct: real, st: real, next: Mat)
    requires 1 <= n <= 8 && Frame(t, q, n - 1).rot == prev && next == Mul(prev, LinkRot(ca, sa, ct, st))
    requires t.cos(Alpha(t, n)) == ca && t.sin(Alpha(t, n)) == sa
    requires t.cos(Angles(q)[n - 1]) == ct && t.sin(Angles(q)[n - 1]) == st
    ensures Frame(t, q, n).rot == next
  {
    assert Frame(t, q, n) == Compose(Frame(t, q, n - 1), LinkPose(t, Mdh(t)[n - 1], Angles(q)[n - 1]));
    hide Frame, Mul, LinkRot;
  }

  function Alpha(t: Trig, n: nat): real
    requires 1 <= n <= 8
  {
    Mdh(t)[n - 1].alpha
  }

  /** On which side of the old z axis the new one is, for the six links whose axes are at right angles. */
  function Side(n: nat): real { if n == 2 || n == 5 then -1.0 else 1.0 }

  lemma AlphaAt(t: Trig, n: nat)
    requires Laws(t) && Adds(t) && 1 <= n <= 8
    ensures t.cos(Alpha(t, n)) == if n == 1 || n == 8 then 1.0 else 0.0
    ensures t.sin(Alpha(t, n)) == if n == 1 || n == 8 then 0.0 else Side(n)
  {
    AlphaIs(t, n);
    QuarterTurns(t);
    hide Laws, Adds;
  }

  lemma AngleAt(t: Trig, theta: real, st: real)
    requires Laws(t) && Adds(t) && (st == 0.0 || st == 1.0 || st == -1.0)
    requires theta == if st == 0.0 then 0.0 else if st == 1.0 then t.pi / 2.0 else -t.pi / 2.0
    ensures t.sin(theta) == st && t.cos(theta) == if st == 0.0 then 1.0 else 0.0
  {
    QuarterTurns(t);
    hide Laws, Adds;
  }

  lemma LevelFrame(t: Trig, q: Joints, n: nat)
    requires Laws(t) && Adds(t) && (n == 1 || n == 8) && Angles(q)[n - 1] == 0.0
    ensures Frame(t, q, n).rot == Frame(t, q, n - 1).rot
  {
    hide Laws, Adds, Frame, LinkRot, Mul, Alpha;
    AlphaAt(t, n);
    AngleAt(t, 0.0, 0.0);
    Level(Frame(t, q, n - 1).rot);
    NextRot(t, q, n, Frame(t, q, n - 1).rot, 1.0, 0.0, 1.0, 0.0, Frame(t, q, n - 1).rot);
  }

  lemma StraightFrame(t: Trig, q: Joints, n: nat)
    requires Laws(t) && Adds(t) && 2 <= n <= 7 && Angles(q)[n - 1] == 0.0
    ensures var a, s := Frame(t, q, n - 1).rot, Side(n);
      Frame(t, q, n).rot == Mat(Scale(1.0, a.c1), Scale(s, a.c3), Scale(-s, a.c2))
  {
    hide Laws, Adds, Frame, LinkRot, Mul, Alpha, Scale;
    AlphaAt(t, n);
    AngleAt(t, 0.0, 0.0);
    var a, s := Frame(t, q, n - 1).rot, Side(n);
    Straight(a, s);
    NextRot(t, q, n, a, 0.0, s, 1.0, 0.0, Mat(Scale(1.0, a.c1), Scale(s, a.c3), Scale(-s, a.c2)));
  }

  lemma BentFrame(t: Trig, q: Joints, n: nat, st: real)
    requires Laws(t) && Adds(t) && 2 <= n <= 7 && (st == 1.0 || st == -1.0)
    requires Angles(q)[n - 1] == if st == 1.0 then t.pi / 2.0 else -t.pi / 2.0
    ensures var a, s := Frame(t, q, n - 1).rot, Side(n);
      Frame(t, q, n).rot == Mat(Scale(if st == 1.0 then s else -s, a.c3), Scale(-st, a.c1), Scale(-s, a.c2))
  {
    hide Laws, Adds, Frame, LinkRot, Mul, Alpha, Scale;
    AlphaAt(t, n);
    AngleAt(t, Angles(q)[n - 1], st);
    var a, s := Frame(t, q, n - 1).rot, Side(n);
    Elbow(a, s, st);
    NextRot(t, q, n, a, 0.0, s, 0.0, st, Mat(Scale(st * s, a.c3), Scale(-st, a.c1), Scale(-s, a.c2)));
  }

  /** The flange from the axes that carry the lengths of the arm. */
  function ReachOf(z1: Vec, z3: Vec, x3: Vec, x4: Vec, z5: Vec, x6: Vec, z8: Vec): Vec {
    var shoulder := Scale(0.333, z1);
    var elbow := Add(Add(shoulder, Scale(0.316, z3)), Scale(0.0825, x3));
    var wrist := Add(elbow, Add(Scale(-0.0825, x4), Scale(0.384, z5)));
    Add(Add(wrist, Scale(0.088, x6)), Scale(0.107, z8))
  }

  /**
   * For every joint vector: the flange is the base moved by the arm's lengths along the axes of its frames, each z
   * axis is parallel to the one before it or at a right angle to it, and on which side.
   */
  lemma ArmGeometry(t: Trig, q: Joints)
    requires Laws(t) && Adds(t)
    ensures Frame(t, q, 8).pos ==
      ReachOf(Frame(t, q, 1).rot.c3, Frame(t, q, 3).rot.c3, Frame(t, q, 3).rot.c1, Frame(t, q, 4).rot.c1,
              Frame(t, q, 5).rot.c3, Frame(t, q, 6).rot.c1, Frame(t, q, 8).rot.c3)
    ensures forall i: nat | 1 <= i <= 8 ::
      var x, z, z' := Frame(t, q, i - 1).rot.c1, Frame(t, q, i - 1).rot.c3, Frame(t, q, i).rot.c3;
      && Dot(z, z') == (if i == 1 || i == 8 then 1.0 else 0.0)
      && Dot(Cross(z, z'), x) == (if i == 1 || i == 8 then 0.0 else if i == 2 || i == 5 then -1.0 else 1.0)
  {
    hide Laws, Adds, Frame, Dot, Cross;
    FlangeReach(t, q);
    forall i: nat | 1 <= i <= 8
      ensures var x, z, z' := Frame(t, q, i - 1).rot.c1, Frame(t, q, i - 1).rot.c3, Frame(t, q, i).rot.c3;
        && Dot(z, z') == (if i == 1 || i == 8 then 1.0 else 0.0)
        && Dot(Cross(z, z'), x) == (if i == 1 || i == 8 then 0.0 else if i == 2 || i == 5 then -1.0 else 1.0)
    {
      FrameGeometry(t, q, i);
      AlphaAt(t, i);
    }
  }

  lemma AlphaIs(t: Trig, n: nat)
    requires 1 <= n <= 8
    ensures Alpha(t, n) ==
      if n == 1 || n == 8 then 0.0 else if n == 2 || n == 5 then -t.pi / 2.0 else t.pi / 2.0
  {
  }

  /** An origin moved by a along x and by d along z, where one or both are zero. */
  lemma Moved(u: Vec, a: real, x: Vec, d: real, z: Vec)
    ensures var w := Add(u, Add(Scale(a, x), Scale(d, z)));
      && (a == 0.0 && d == 0.0 ==> w == u) && (a == 0.0 ==> w == Add(u, Scale(d, z)))
      && (d == 0.0 ==> w == Add(u, Scale(a, x)))
  {
  }

  lemma NextOrigin(t: Trig, q: Joints, i: nat, a: real, d: real)
    requires Laws(t) && 1 <= i <= 8 && Mdh(t)[i - 1].a == a && Mdh(t)[i - 1].d == d
    ensures var u, x, z := Frame(t, q, i - 1).pos, Frame(t, q, i - 1).rot.c1, Frame(t, q, i).rot.c3;
      var w := Frame(t, q, i).pos;
      && w == Add(u, Add(Scale(a, x), Scale(d, z)))
      && (a == 0.0 && d == 0.0 ==> w == u) && (a == 0.0 ==> w == Add(u, Scale(d, z)))
      && (d == 0.0 ==> w == Add(u, Scale(a, x)))
  {
    hide Laws, Frame, Dot, Cross, Mdh, Add, Scale;
    FrameGeometry(t, q, i);
    Moved(Frame(t, q, i - 1).pos, a, Frame(t, q, i - 1).rot.c1, d, Frame(t, q, i).rot.c3);
  }

  lemma FlangeReach(t: Trig, q: Joints)
    requires Laws(t)
    ensures Frame(t, q, 8).pos ==
      ReachOf(Frame(t, q, 1).rot.c3, Frame(t, q, 3).rot.c3, Frame(t, q, 3).rot.c1, Frame(t, q, 4).rot.c1,
              Frame(t, q, 5).rot.c3, Frame(t, q, 6).rot.c1, Frame(t, q, 8).rot.c3)
  {
    hide Laws, Frame, Add, Scale;
    FirstFrame(t, q);
    NextOrigin(t, q, 1, 0.0, 0.333);
    AddZeroLeft(Scale(0.333, Frame(t, q, 1).rot.c3));
    NextOrigin(t, q, 2, 0.0, 0.0);
    NextOrigin(t, q, 3, 0.0, 0.316);
    NextOrigin(t, q, 4, 0.0825, 0.0);
    NextOrigin(t, q, 5, -0.0825, 0.384);
    NextOrigin(t, q, 6, 0.0, 0.0);
    NextOrigin(t, q, 7, 0.088, 0.0);
    NextOrigin(t, q, 8, 0.0, 0.107);
  }

  lemma AddZeroLeft(v: Vec)
    ensures Add(ZERO, v) == v
  {
  }

  lemma EeIsFlange(t: Trig, q: Joints)
    ensures EePose(t, ORIGIN, q) == Frame(t, q, 8)
  {
    hide Frame, Mul, Apply;
    var g := Frame(t, q, 8);
    MulIdentity(g.rot);
    ApplyZero(g.rot);
    AddZero(g.pos);
  }

  lemma UprightTurns1(t: Trig, q: Joints)
    requires Laws(t) && Adds(t)
    requires q[0] == 0.0 && q[1] == 0.0 && q[2] == 0.0 && q[3] == 0.0
    ensures Frame(t, q, 1).rot == Mat(E1, E2, E3)
    ensures Frame(t, q, 2).rot == Mat(E1, N3, E2)
    ensures Frame(t, q, 3).rot == Mat(E1, E2, E3)
    ensures Frame(t, q, 4).rot == Mat(E1, E3, N2)
  {
    hide Laws, Adds, Frame, Scale;
    Signs();
    FirstFrame(t, q);
    LevelFrame(t, q, 1);
    StraightFrame(t, q, 2);
    StraightFrame(t, q, 3);
    StraightFrame(t, q, 4);
  }

  lemma UprightTurns2(t: Trig, q: Joints)
    requires Laws(t) && Adds(t) && Frame(t, q, 4).rot == Mat(E1, E3, N2)
    requires q[4] == 0.0 && q[5] == 0.0 && q[6] == 0.0
    ensures Frame(t, q, 5).rot == Mat(E1, E2, E3)
    ensures Frame(t, q, 6).rot == Mat(E1, E3, N2)
    ensures Frame(t, q, 7).rot == Mat(E1, N2, N3)
    ensures Frame(t, q, 8).rot == Mat(E1, N2, N3)
  {
    hide Laws, Adds, Frame, Scale;
    Signs();
    StraightFrame(t, q, 5);
    StraightFrame(t, q, 6);
    StraightFrame(t, q, 7);
    LevelFrame(t, q, 8);
  }

  /** The end effector with all joints at zero. */
  lemma UprightPose(t: Trig, q: Joints)
    requires Laws(t) && Adds(t) && q[0] == 0.0 && q[1] == 0.0 && q[2] == 0.0 && q[3] == 0.0
    requires q[4] == 0.0 && q[5] == 0.0 && q[6] == 0.0
    ensures EePose(t, ORIGIN, q) == Pose(Mat(E1, N2, N3), Vec(0.088, 0.0, 0.926))
  {
    hide Laws, Adds, Frame, EePose, ReachOf;
    UprightTurns1(t, q);
    UprightTurns2(t, q);
    FlangeReach(t, q);
    UprightReach();
    EeIsFlange(t, q);
  }

  lemma UprightReach()
    ensures ReachOf(E3, E3, E1, E1, E3, E1, N3) == Vec(0.088, 0.0, 0.926)
  {
    hide Scale, Add;
    Reached(0.0, 0.0, 0.333);
    Reached(0.0, 0.333, 0.316);
    Reached(0.0, 0.649, 0.0825);
    Outstretched(-0.0825, 0.384);
    SumXZ(0.0825, 0.649, -0.0825, 0.384);
    Reached(0.0, 1.033, 0.088);
    Reached(0.088, 1.033, 0.107);
  }

  /** A length along an axis, from a point in the plane of the arm. */
  lemma Reached(x: real, z: real, k: real)
    ensures Scale(k, E3) == Vec(0.0, 0.0, k)
    ensures Add(Vec(x, 0.0, z), Scale(k, E1)) == Vec(x + k, 0.0, z)
    ensures Add(Vec(x, 0.0, z), Scale(k, E3)) == Vec(x, 0.0, z + k)
    ensures Add(Vec(x, 0.0, z), Scale(k, N3)) == Vec(x, 0.0, z - k)
  {
    ScaleUnits(k);
    hide Scale;
  }

  lemma Outstretched(k: real, l: real)
    ensures Add(Scale(k, E1), Scale(l, E3)) == Vec(k, 0.0, l)
    ensures Add(Scale(k, N3), Scale(l, E1)) == Vec(l, 0.0, -k)
  {
    ScaleUnits(k);
    ScaleUnits(l);
    hide Scale;
  }

  lemma SumXZ(x: real, z: real, x': real, z': real)
    ensures Add(Vec(x, 0.0, z), Vec(x', 0.0, z')) == Vec(x + x', 0.0, z + z')
  {
  }

  lemma ElbowedTurns1(t: Trig, q: Joints)
    requires Laws(t) && Adds(t)
    requires q[0] == 0.0 && q[1] == 0.0 && q[2] == 0.0 && q[3] == -t.pi / 2.0
    ensures Frame(t, q, 1).rot == Mat(E1, E2, E3)
    ensures Frame(t, q, 2).rot == Mat(E1, N3, E2)
    ensures Frame(t, q, 3).rot == Mat(E1, E2, E3)
    ensures Frame(t, q, 4).rot == Mat(N3, E1, N2)
  {
    hide Laws, Adds, Frame, Scale;
    Signs();
    FirstFrame(t, q);
    LevelFrame(t, q, 1);
    StraightFrame(t, q, 2);
    StraightFrame(t, q, 3);
    BentFrame(t, q, 4, -1.0);
  }

  lemma ElbowedTurns2(t: Trig, q: Joints)
    requires Laws(t) && Adds(t) && Frame(t, q, 4).rot == Mat(N3, E1, N2)
    requires q[4] == 0.0 && q[5] == t.pi / 2.0 && q[6] == 0.0
    ensures Frame(t, q, 5).rot == Mat(N3, E2, E1)
    ensures Frame(t, q, 6).rot == Mat(E1, E3, N2)
    ensures Frame(t, q, 7).rot == Mat(E1, N2, N3)
    ensures Frame(t, q, 8).rot == Mat(E1, N2, N3)
  {
    hide Laws, Adds, Frame, Scale;
    Signs();
    StraightFrame(t, q, 5);
    BentFrame(t, q, 6, 1.0);
    StraightFrame(t, q, 7);
    LevelFrame(t, q, 8);
  }

  /** The end effector with the elbow and the wrist at right angles. */
  lemma ElbowedPose(t: Trig, q: Joints)
    requires Laws(t) && Adds(t) && q[0] == 0.0 && q[1] == 0.0 && q[2] == 0.0 && q[3] == -t.pi / 2.0
    requires q[4] == 0.0 && q[5] == t.pi / 2.0 && q[6] == 0.0
    ensures EePose(t, ORIGIN, q) == Pose(Mat(E1, N2, N3), Vec(0.5545, 0.0, 0.6245))
  {
    hide Laws, Adds, Frame, EePose, ReachOf;
    ElbowedTurns1(t, q);
    ElbowedTurns2(t, q);
    FlangeReach(t, q);
    ElbowedReach();
    EeIsFlange(t, q);
  }

  lemma ElbowedReach()
    ensures ReachOf(E3, E3, E1, N3, E1, E1, N3) == Vec(0.5545, 0.0, 0.6245)
  {
    hide Scale, Add;
    Reached(0.0, 0.0, 0.333);
    Reached(0.0, 0.333, 0.316);
    Reached(0.0, 0.649, 0.0825);
    Outstretched(-0.0825, 0.384);
    SumXZ(0.0825, 0.649, 0.384, 0.0825);
    Reached(0.4665, 0.7315, 0.088);
    Reached(0.5545, 0.7315, 0.107);
  }
}
