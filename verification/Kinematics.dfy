/**
 * kinematics/fr3_kinematics.py: forward kinematics as a product of Craig-convention link transforms, the
 * frames behind the analytic Jacobian, and the clipped damped-least-squares inverse.
 */
module Kinematics {
  import opened Numeric
  import opened Linear
  import opened Quaternions
  import opened AxisAngle

  datatype Link = Link(a: real, d: real, alpha: real)

  /** The FR3 table; the last row is the flange. */
  function Mdh(t: Trig): (links: seq<Link>)
    ensures |links| == 8
  {
    [ Link(0.0, 0.333, 0.0),
      Link(0.0, 0.0, -t.pi / 2.0),
      Link(0.0, 0.316, t.pi / 2.0),
      Link(0.0825, 0.0, t.pi / 2.0),
      Link(-0.0825, 0.384, -t.pi / 2.0),
      Link(0.0, 0.0, t.pi / 2.0),
      Link(0.088, 0.0, t.pi / 2.0),
      Link(0.0, 0.107, 0.0) ]
  }

  function LinkRot(ca: real, sa: real, ct: real, st: real): Mat {
    Mat(Vec(ct, st * ca, st * sa), Vec(-st, ct * ca, ct * sa), Vec(0.0, -sa, ca))
  }

  function LinkPose(t: Trig, l: Link, theta: real): Pose {
    var ca, sa := t.cos(l.alpha), t.sin(l.alpha);
    Pose(LinkRot(ca, sa, t.cos(theta), t.sin(theta)), Vec(l.a, -l.d * sa, l.d * ca))
  }

  type Joints = q: seq<real> | |q| == 7 witness [0.0, 0.0, 0.0, 0.0, 0.0, 0.0, 0.0]

  /** The joint angles with the fixed flange angle appended. */
  function Angles(q: Joints): seq<real> { q + [0.0] }

  /** The frame of link n: the product of the first n link transforms. */
  function Frame(t: Trig, q: Joints, n: nat): Pose
    requires n <= 8
  {
    if n == 0 then ORIGIN
    else Compose(Frame(t, q, n - 1), LinkPose(t, Mdh(t)[n - 1], Angles(q)[n - 1]))
  }

  /** The end-effector pose; tool is the calibrated flange-to-EE transform. */
  function EePose(t: Trig, tool: Pose, q: Joints): Pose { Compose(Frame(t, q, 8), tool) }

  method Fk(t: Trig, tool: Pose, q: Joints) returns (pose: Pose)
    ensures pose == EePose(t, tool, q)
  {
    pose := ORIGIN;
    var theta := q + [0.0];
    for i := 0 to 8
      invariant pose == Frame(t, q, i)
    {
      pose := Compose(pose, LinkPose(t, Mdh(t)[i], theta[i]));
    }
    pose := Compose(pose, tool);
  }

  method FkWithFrames(t: Trig, tool: Pose, q: Joints) returns (pose: Pose, axes: seq<Vec>, origins: seq<Vec>)
    ensures pose == EePose(t, tool, q)
    ensures |axes| == 7 && |origins| == 7
    ensures forall i | 0 <= i < 7 :: axes[i] == Frame(t, q, i + 1).rot.c3 && origins[i] == Frame(t, q, i + 1).pos
  {
    pose := ORIGIN;
    axes, origins := [], [];
    var theta := q + [0.0];
    for i := 0 to 8
      invariant pose == Frame(t, q, i)
      invariant |axes| == |origins| == if i < 7 then i else 7
      invariant forall j | 0 <= j < |axes| ::
        axes[j] == Frame(t, q, j + 1).rot.c3 && origins[j] == Frame(t, q, j + 1).pos
    {
      var next := Compose(pose, LinkPose(t, Mdh(t)[i], theta[i]));
      if i < 7 {
        axes := axes + [next.rot.c3];
        origins := origins + [next.pos];
      }
      pose := next;
    }
    pose := Compose(pose, tool);
  }

  // ------------------------------------------------------------ rigidity

  lemma LinkRigid(t: Trig, l: Link, theta: real)
    requires Laws(t)
    ensures Rigid(LinkPose(t, l, theta))
  {
    hide Laws, LinkRot, Rotation;
    Pythagoras(t, theta);
    Pythagoras(t, l.alpha);
    LinkColumns(t.cos(l.alpha), t.sin(l.alpha), t.cos(theta), t.sin(theta));
  }

  lemma LinkColumns(ca: real, sa: real, ct: real, st: real)
    requires sa * sa + ca * ca == 1.0 && st * st + ct * ct == 1.0
    ensures Rotation(LinkRot(ca, sa, ct, st))
  {
    var u, v, w := Vec(ct, st * ca, st * sa), Vec(-st, ct * ca, ct * sa), Vec(0.0, -sa, ca);
    LinkNorm(ca, sa, ct, st);
    LinkNorm(ca, sa, -st, ct);
    LinkOrthogonal(ca, sa, ct, st);
    LinkNormal(ca, sa, ct, st);
    hide Dot, Cross;
    RightHanded(u, v);
  }

  lemma LinkNorm(ca: real, sa: real, ct: real, st: real)
    requires sa * sa + ca * ca == 1.0 && st * st + ct * ct == 1.0
    ensures var u := Vec(ct, st * ca, st * sa); Dot(u, u) == 1.0
  {
    var k := st * st;
    assert (st * ca) * (st * ca) + (st * sa) * (st * sa) == k * (sa * sa + ca * ca) == k;
  }

  lemma LinkOrthogonal(ca: real, sa: real, ct: real, st: real)
    requires sa * sa + ca * ca == 1.0
    ensures Dot(Vec(ct, st * ca, st * sa), Vec(-st, ct * ca, ct * sa)) == 0.0
  {
    var k := st * ct;
    assert (st * ca) * (ct * ca) + (st * sa) * (ct * sa) == k * (sa * sa + ca * ca) == k;
  }

  lemma LinkNormal(ca: real, sa: real, ct: real, st: real)
    requires st * st + ct * ct == 1.0
    ensures Cross(Vec(ct, st * ca, st * sa), Vec(-st, ct * ca, ct * sa)) == Vec(0.0, -sa, ca)
  {
    assert (st * ca) * (ct * sa) - (st * sa) * (ct * ca) == 0.0;
    assert (st * sa) * -st - ct * (ct * sa) == -sa * (st * st + ct * ct) == -sa;
    assert ct * (ct * ca) - (st * ca) * -st == ca * (st * st + ct * ct) == ca;
  }

  lemma {:induction false} FrameRigid(t: Trig, q: Joints, n: nat)
    requires Laws(t) && n <= 8
    ensures Rigid(Frame(t, q, n))
  {
    hide Laws, Rigid, LinkPose, Compose;
    if n == 0 {
      OriginRigid();
    } else {
      FrameRigid(t, q, n - 1);
      LinkRigid(t, Mdh(t)[n - 1], Angles(q)[n - 1]);
      ComposeRigid(Frame(t, q, n - 1), LinkPose(t, Mdh(t)[n - 1], Angles(q)[n - 1]));
    }
  }

  lemma OriginRigid()
    ensures Rigid(ORIGIN)
  {
    IdentityRotation();
  }

  /** Forward kinematics is a rigid transform for every joint vector. */
  lemma EePoseRigid(t: Trig, tool: Pose, q: Joints)
    requires Laws(t) && Rigid(tool)
    ensures Rigid(EePose(t, tool, q))
  {
    hide Laws, Rigid, Compose, Frame;
    FrameRigid(t, q, 8);
    ComposeRigid(Frame(t, q, 8), tool);
  }

  // ------------------------------------------------------------ what moving one joint does

  /** The addition theorems. */
  ghost predicate Adds(t: Trig) {
    && (forall x, y :: t.cos(x + y) == t.cos(x) * t.cos(y) - t.sin(x) * t.sin(y))
    && (forall x, y :: t.sin(x + y) == t.sin(x) * t.cos(y) + t.cos(x) * t.sin(y))
  }

  /** A turn about the z axis. */
  function Spin(c: real, s: real): Pose { Pose(Mat(Vec(c, s, 0.0), Vec(-s, c, 0.0), E3), ZERO) }

  /** The rigid motion that turns about the axis z through the point o. */
  function Screw(z: Vec, o: Vec, c: real, s: real): Pose {
    var rod := Rodrigues(z, c, s);
    Pose(rod, Sub(o, Apply(rod, o)))
  }

  lemma ApplySkew(k: Vec, v: Vec)
    ensures Apply(Skew(k), v) == Cross(k, v)
  {
  }

  lemma ScaleAdd(k: real, u: Vec, v: Vec)
    ensures Scale(k, Add(u, v)) == Add(Scale(k, u), Scale(k, v))
  {
  }

  lemma ScaleScale(k: real, l: real, v: Vec)
    ensures Scale(k, Scale(l, v)) == Scale(l, Scale(k, v))
  {
  }

  lemma AddsRegroup(u1: Vec, u2: Vec, u3: Vec, v1: Vec, v2: Vec, v3: Vec)
    ensures Add(Add(Add(u1, v1), Add(u2, v2)), Add(u3, v3)) == Add(Add(Add(u1, u2), u3), Add(Add(v1, v2), v3))
  {
  }

  lemma ApplyMatAdd(a: Mat, b: Mat, v: Vec)
    ensures Apply(MatAdd(a, b), v) == Add(Apply(a, v), Apply(b, v))
  {
    hide Add, Scale, Apply;
    ApplyIsCombine(MatAdd(a, b), v);
    ApplyIsCombine(a, v);
    ApplyIsCombine(b, v);
    ScaleAdd(v.x, a.c1, b.c1);
    ScaleAdd(v.y, a.c2, b.c2);
    ScaleAdd(v.z, a.c3, b.c3);
    AddsRegroup(Scale(v.x, a.c1), Scale(v.y, a.c2), Scale(v.z, a.c3),
                Scale(v.x, b.c1), Scale(v.y, b.c2), Scale(v.z, b.c3));
  }

  lemma ApplyMatScale(x: real, a: Mat, v: Vec)
    ensures Apply(MatScale(x, a), v) == Scale(x, Apply(a, v))
  {
    hide Add, Scale, Apply;
    ApplyIsCombine(MatScale(x, a), v);
    ApplyIsCombine(a, v);
    ScaleScale(v.x, x, a.c1);
    ScaleScale(v.y, x, a.c2);
    ScaleScale(v.z, x, a.c3);
    ScaleAdd(x, Add(Scale(v.x, a.c1), Scale(v.y, a.c2)), Scale(v.z, a.c3));
    ScaleAdd(x, Scale(v.x, a.c1), Scale(v.y, a.c2));
  }

  /** Rodrigues' formula acting on a vector. */
  lemma ApplyRodrigues(k: Vec, c: real, s: real, v: Vec)
    ensures Apply(Rodrigues(k, c, s), v) ==
      Add(Add(v, Scale(s, Cross(k, v))), Scale(1.0 - c, Cross(k, Cross(k, v))))
  {
    hide Apply, Cross, Skew, Mul;
    var k2 := Mul(Skew(k), Skew(k));
    ApplyMatAdd(MatAdd(IDENTITY, MatScale(s, Skew(k))), MatScale(1.0 - c, k2), v);
    ApplyMatAdd(IDENTITY, MatScale(s, Skew(k)), v);
    ApplyMatScale(s, Skew(k), v);
    ApplyMatScale(1.0 - c, k2, v);
    ApplyIdentity(v);
    ApplySkew(k, v);
    ApplySkew(k, Cross(k, v));
    ApplyMul(Skew(k), Skew(k), v);
    hide MatAdd, MatScale, Add, Scale;
  }

  /** Conjugation: turning about A k is turning about k, seen through A. */
  lemma RodriguesConjugate(a: Mat, k: Vec, c: real, s: real, v: Vec)
    requires Rotation(a)
    ensures Apply(Rodrigues(Apply(a, k), c, s), Apply(a, v)) == Apply(a, Apply(Rodrigues(k, c, s), v))
  {
    hide Apply, Cross, Rodrigues, Rotation, Add, Scale;
    ApplyRodrigues(Apply(a, k), c, s, Apply(a, v));
    ApplyRodrigues(k, c, s, v);
    RotationKeepsCross(a, k, v);
    RotationKeepsCross(a, k, Cross(k, v));
    ApplyAdd(a, Add(v, Scale(s, Cross(k, v))), Scale(1.0 - c, Cross(k, Cross(k, v))));
    ApplyAdd(a, v, Scale(s, Cross(k, v)));
    ApplyScale(a, s, Cross(k, v));
    ApplyScale(a, 1.0 - c, Cross(k, Cross(k, v)));
  }

  lemma SpinRow(c: real, s: real, v: Vec)
    ensures Apply(Spin(c, s).rot, v) == Vec(c * v.x - s * v.y, s * v.x + c * v.y, v.z)
  {
  }

  lemma SpinApplies(c: real, s: real, v: Vec)
    ensures Apply(Rodrigues(E3, c, s), v) == Apply(Spin(c, s).rot, v)
  {
    hide Rodrigues, Cross, Apply;
    ApplyRodrigues(E3, c, s, v);
    UnitCross(v);
    UnitCross(Cross(E3, v));
    SpinRow(c, s, v);
  }

  /** Turning a frame about its own z axis is the screw about that axis in the base frame. */
  lemma SpinIsScrew(g: Pose, c: real, s: real)
    requires Rigid(g)
    ensures Compose(Screw(g.rot.c3, g.pos, c, s), g) == Compose(g, Spin(c, s))
  {
    hide Rodrigues, Rotation, Apply, Add, Sub;
    ApplyUnits(g.rot);
    ApplyUnits(Spin(c, s).rot);
    SpinApplies(c, s, E1);
    SpinApplies(c, s, E2);
    SpinApplies(c, s, E3);
    RodriguesConjugate(g.rot, E3, c, s, E1);
    RodriguesConjugate(g.rot, E3, c, s, E2);
    RodriguesConjugate(g.rot, E3, c, s, E3);
    var rod := Rodrigues(g.rot.c3, c, s);
    AddSub(Apply(rod, g.pos), g.pos);
    ApplyZero(g.rot);
    AddZero(g.pos);
  }

  /** Advancing a link's angle is a spin appended to it. */
  lemma LinkAdvances(t: Trig, l: Link, theta: real, delta: real)
    requires Adds(t)
    ensures LinkPose(t, l, theta + delta) == Compose(LinkPose(t, l, theta), Spin(t.cos(delta), t.sin(delta)))
  {
    hide Adds, LinkRot, Compose, Spin;
    AngleSum(t, theta, delta);
    LinkRotAdvances(t.cos(l.alpha), t.sin(l.alpha), t.cos(theta), t.sin(theta), t.cos(delta), t.sin(delta),
                    t.cos(theta + delta), t.sin(theta + delta));
    ComposeSpin(LinkPose(t, l, theta), t.cos(delta), t.sin(delta));
  }

  lemma ComposeSpin(g: Pose, c: real, s: real)
    ensures Compose(g, Spin(c, s)) == Pose(Mul(g.rot, Spin(c, s).rot), g.pos)
  {
    hide Apply, Mul;
    ApplyZero(g.rot);
    AddZero(g.pos);
  }

  lemma AngleSum(t: Trig, x: real, y: real)
    requires Adds(t)
    ensures t.cos(x + y) == t.cos(x) * t.cos(y) - t.sin(x) * t.sin(y)
    ensures t.sin(x + y) == t.sin(x) * t.cos(y) + t.cos(x) * t.sin(y)
  {
  }

  lemma LinkRotAdvances(ca: real, sa: real, ct: real, st: real, c: real, s: real, cn: real, sn: real)
    requires cn == ct * c - st * s && sn == st * c + ct * s
    ensures LinkRot(ca, sa, cn, sn) == Mul(LinkRot(ca, sa, ct, st), Spin(c, s).rot)
  {
    TurnedColumn1(ca, sa, ct, st, c, s, cn, sn);
    TurnedColumn2(ca, sa, ct, st, c, s, cn, sn);
    ApplyUnits(LinkRot(ca, sa, ct, st));
    hide Apply;
  }

  lemma TurnedColumn1(ca: real, sa: real, ct: real, st: real, c: real, s: real, cn: real, sn: real)
    requires cn == ct * c - st * s && sn == st * c + ct * s
    ensures Apply(LinkRot(ca, sa, ct, st), Vec(c, s, 0.0)) == Vec(cn, sn * ca, sn * sa)
  {
    Distribute(sn, st * c, ct * s, ca);
    Distribute(sn, st * c, ct * s, sa);
  }

  lemma TurnedColumn2(ca: real, sa: real, ct: real, st: real, c: real, s: real, cn: real, sn: real)
    requires cn == ct * c - st * s && sn == st * c + ct * s
    ensures Apply(LinkRot(ca, sa, ct, st), Vec(-s, c, 0.0)) == Vec(-sn, cn * ca, cn * sa)
  {
    Distribute(cn, ct * c, -(st * s), ca);
    Distribute(cn, ct * c, -(st * s), sa);
  }

  /** q with joint i advanced by delta. */
  function Advanced(q: Joints, i: nat, delta: real): Joints
    requires i < 7
  {
    q[i := q[i] + delta]
  }

  /** The screw of joint i: the turn about the z axis of its frame, through that frame's origin. */
  function JointScrew(t: Trig, q: Joints, i: nat, delta: real): Pose
    requires i < 7
  {
    var g := Frame(t, q, i + 1);
    Screw(g.rot.c3, g.pos, t.cos(delta), t.sin(delta))
  }

  lemma {:induction false} FrameBefore(t: Trig, q: Joints, i: nat, delta: real, n: nat)
    requires i < 7 && n <= i
    ensures Frame(t, Advanced(q, i, delta), n) == Frame(t, q, n)
  {
    if n > 0 {
      hide LinkPose, Compose, Mdh;
      FrameBefore(t, q, i, delta, n - 1);
    }
  }

  lemma {:induction false} FrameAfter(t: Trig, q: Joints, i: nat, delta: real, n: nat)
    requires Laws(t) && Adds(t) && i < 7 && i < n <= 8
    ensures Frame(t, Advanced(q, i, delta), n) == Compose(JointScrew(t, q, i, delta), Frame(t, q, n))
    decreases n
  {
    hide Laws, Adds, Rigid, LinkPose, Compose, Mdh, Screw, Spin;
    var l, moved := Mdh(t)[n - 1], Advanced(q, i, delta);
    var theta := Angles(q)[n - 1];
    if n == i + 1 {
      FrameBefore(t, q, i, delta, i);
      LinkAdvances(t, l, theta, delta);
      FrameRigid(t, q, n);
      SpinIsScrew(Frame(t, q, n), t.cos(delta), t.sin(delta));
      ComposeAssociative(Frame(t, q, i), LinkPose(t, l, theta), Spin(t.cos(delta), t.sin(delta)));
    } else {
      FrameAfter(t, q, i, delta, n - 1);
      assert Angles(moved)[n - 1] == theta;
      ComposeAssociative(JointScrew(t, q, i, delta), Frame(t, q, n - 1), LinkPose(t, l, theta));
    }
  }

  /**
   * Moving joint i by any angle delta moves the end effector by the turn of delta about the axis that
   * _fk_with_frames reports for that joint, through the origin it reports.
   */
  lemma MovingOneJoint(t: Trig, tool: Pose, q: Joints, i: nat, delta: real)
    requires Laws(t) && Adds(t) && i < 7
    ensures var axis, origin := Frame(t, q, i + 1).rot.c3, Frame(t, q, i + 1).pos;
      var ee, turn := EePose(t, tool, q), Rodrigues(axis, t.cos(delta), t.sin(delta));
      EePose(t, tool, Advanced(q, i, delta)) ==
        Pose(Mul(turn, ee.rot), Add(origin, Apply(turn, Sub(ee.pos, origin))))
  {
    hide Laws, Adds, Frame, Rodrigues, Mul, Apply, Add, Sub;
    FrameAfter(t, q, i, delta, 8);
    ComposeAssociative(JointScrew(t, q, i, delta), Frame(t, q, 8), tool);
    var origin, ee := Frame(t, q, i + 1).pos, EePose(t, tool, q);
    var turn := Rodrigues(Frame(t, q, i + 1).rot.c3, t.cos(delta), t.sin(delta));
    ApplySub(turn, ee.pos, origin);
    SubRegroup(Apply(turn, ee.pos), origin, Apply(turn, origin));
  }

  lemma ApplySub(a: Mat, u: Vec, v: Vec)
    ensures Apply(a, Sub(u, v)) == Sub(Apply(a, u), Apply(a, v))
  {
    hide Apply;
    SubAsAdd(u, v);
    SubAsAdd(Apply(a, u), Apply(a, v));
    ApplyAdd(a, u, Scale(-1.0, v));
    ApplyScale(a, -1.0, v);
  }

  lemma SubAsAdd(u: Vec, v: Vec)
    ensures Sub(u, v) == Add(u, Scale(-1.0, v))
  {
  }

  lemma SubRegroup(u: Vec, v: Vec, w: Vec)
    ensures Add(u, Sub(v, w)) == Add(v, Sub(u, w))
  {
  }
}
