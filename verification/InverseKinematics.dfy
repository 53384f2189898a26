/**
 * kinematics/fr3_kinematics.py: the analytic Jacobian, the clipped damped-least-squares loop, and the
 * end-effector delta step. The linear solve is a parameter.
 */
module InverseKinematics {
  import opened Numeric
  import opened Linear
  import opened Quaternions
  import opened AxisAngle
  import opened RotationLog
  import opened Kinematics
  import opened Limits

  /** A Jacobian column or a pose error: three linear and three angular components. */
  datatype Twist = Twist(linear: Vec, angular: Vec)

  function JacobianColumn(t: Trig, tool: Pose, q: Joints, i: nat): Twist
    requires i < 7
  {
    var axis, origin := Frame(t, q, i + 1).rot.c3, Frame(t, q, i + 1).pos;
    Twist(Cross(axis, Sub(EePose(t, tool, q).pos, origin)), axis)
  }

  function Jacobian(t: Trig, tool: Pose, q: Joints): (j: seq<Twist>)
    ensures |j| == 7
  {
    seq(7, i requires 0 <= i < 7 => JacobianColumn(t, tool, q, i))
  }

  method JacobianAnalytic(t: Trig, tool: Pose, q: Joints) returns (j: seq<Twist>, ee: Pose)
    ensures j == Jacobian(t, tool, q) && ee == EePose(t, tool, q)
  {
    var axes, origins;
    ee, axes, origins := FkWithFrames(t, tool, q);
    j := seq(7, i => Twist(ZERO, ZERO));
    for i := 0 to 7
      invariant |j| == 7
      invariant forall k | 0 <= k < i :: j[k] == JacobianColumn(t, tool, q, k)
    {
      j := j[i := Twist(Cross(axes[i], Sub(ee.pos, origins[i])), axes[i])];
    }
  }

  /** A column of the Jacobian gives the exact finite motion of its joint, not only its rate. */
  lemma JacobianMovesEndEffector(t: Trig, tool: Pose, q: Joints, i: nat, delta: real)
    requires Laws(t) && Adds(t) && i < 7
    ensures var ee, moved, col := EePose(t, tool, q), EePose(t, tool, Advanced(q, i, delta)), Jacobian(t, tool, q)[i];
      && moved.pos == Add(ee.pos, Add(Scale(t.sin(delta), col.linear),
                                      Scale(1.0 - t.cos(delta), Cross(col.angular, col.linear))))
      && moved.rot == Mul(Rodrigues(col.angular, t.cos(delta), t.sin(delta)), ee.rot)
  {
    hide Laws, Adds, Frame, Rodrigues, Mul, Apply, Cross, Add, Sub, Scale, EePose;
    MovingOneJoint(t, tool, q, i, delta);
    var axis, origin := Frame(t, q, i + 1).rot.c3, Frame(t, q, i + 1).pos;
    var arm := Sub(EePose(t, tool, q).pos, origin);
    ApplyRodrigues(axis, t.cos(delta), t.sin(delta), arm);
    AddRegroup(origin, EePose(t, tool, q).pos, Scale(t.sin(delta), Cross(axis, arm)),
               Scale(1.0 - t.cos(delta), Cross(axis, Cross(axis, arm))));
  }

  lemma AddRegroup(o: Vec, p: Vec, u: Vec, v: Vec)
    ensures Add(o, Add(Add(Sub(p, o), u), v)) == Add(p, Add(u, v))
  {
  }

  // ------------------------------------------------------------ the clipped iteration

  /** J^T (J J^T + damping I)^-1 e, for the Jacobian and pose error of the moment. */
  type Solver = (seq<Twist>, Twist) -> Joints

  function PoseError(t: Trig, target: Pose, ee: Pose): Twist
    requires Laws(t)
  {
    Twist(Sub(target.pos, ee.pos), RotToAxisAngle(t, Mul(target.rot, Transpose(ee.rot))))
  }

  function TwistLength(t: Trig, e: Twist): real
    requires Laws(t)
  {
    t.sqrt(Dot(e.linear, e.linear) + Dot(e.angular, e.angular))
  }

  function ClippedStep(q: Joints, dq: Joints): (r: Joints)
  {
    seq(7, i requires 0 <= i < 7 && |q| == 7 && |dq| == 7 => Clip(q[i] + dq[i], FR3_Q_LOWER[i], FR3_Q_UPPER[i]))
  }

  predicate Converged(t: Trig, tool: Pose, target: Pose, q: Joints, tol: real)
    requires Laws(t)
  {
    TwistLength(t, PoseError(t, target, EePose(t, tool, q))) < tol
  }

  function IkRun(t: Trig, tool: Pose, solve: Solver, target: Pose, q: Joints, iters: nat, tol: real): Joints
    requires Laws(t)
    decreases iters
  {
    if iters == 0 || Converged(t, tool, target, q, tol) then q
    else
      var dq := solve(Jacobian(t, tool, q), PoseError(t, target, EePose(t, tool, q)));
      IkRun(t, tool, solve, target, ClippedStep(q, dq), iters - 1, tol)
  }

  method Ik(t: Trig, tool: Pose, solve: Solver, target: Pose, seed: Joints, iters: nat, tol: real) returns (q: Joints)
    requires Laws(t)
    ensures q == IkRun(t, tool, solve, target, seed, iters, tol)
  {
    q := seed;
    for n := 0 to iters
      invariant IkRun(t, tool, solve, target, q, iters - n, tol) == IkRun(t, tool, solve, target, seed, iters, tol)
    {
      var j, ee := JacobianAnalytic(t, tool, q);
      var e := PoseError(t, target, ee);
      if TwistLength(t, e) < tol {
        break;
      }
      var dq := solve(j, e);
      q := ClippedStep(q, dq);
    }
  }

  predicate InLimits(q: Joints) {
    forall i | 0 <= i < 7 :: FR3_Q_LOWER[i] <= q[i] <= FR3_Q_UPPER[i]
  }

  lemma ClippedInLimits(q: Joints, dq: Joints)
    ensures InLimits(ClippedStep(q, dq))
  {
    forall i | 0 <= i < 7 ensures FR3_Q_LOWER[i] <= ClippedStep(q, dq)[i] <= FR3_Q_UPPER[i] {
      LimitsOrdered(i);
    }
  }

  /** No other value in the range is nearer to x. */
  ghost predicate Nearest(r: real, x: real, lo: real, hi: real) {
    lo <= r <= hi && forall y | lo <= y <= hi :: Distance(r, x) <= Distance(y, x)
  }

  function Distance(y: real, x: real): real { Abs(y - x) }

  /** Every joint of r is the angle inside its limits nearest to the old joint plus its correction. */
  ghost predicate Corrected(q: Joints, dq: Joints, r: Joints) {
    forall i | 0 <= i < 7 :: Nearest(r[i], q[i] + dq[i], FR3_Q_LOWER[i], FR3_Q_UPPER[i])
  }

  lemma StepCorrects(q: Joints, dq: Joints)
    ensures Corrected(q, dq, ClippedStep(q, dq))
  {
    var r := ClippedStep(q, dq);
    forall i | 0 <= i < 7 ensures Nearest(r[i], q[i] + dq[i], FR3_Q_LOWER[i], FR3_Q_UPPER[i]) {
      LimitsOrdered(i);
      ClipNearest(q[i] + dq[i], FR3_Q_LOWER[i], FR3_Q_UPPER[i]);
    }
  }

  lemma ClipNearest(x: real, lo: real, hi: real)
    requires lo <= hi
    ensures Nearest(Clip(x, lo, hi), x, lo, hi)
  {
  }

  /** The six components of the pose error are shorter than tol. */
  predicate Close(t: Trig, tool: Pose, target: Pose, q: Joints, tol: real)
    requires Laws(t)
  {
    var e := PoseError(t, target, EePose(t, tool, q));
    tol > 0.0 && SquaredLength(e) < tol * tol
  }

  function SquaredLength(e: Twist): real {
    var u, w := e.linear, e.angular;
    u.x * u.x + u.y * u.y + u.z * u.z + w.x * w.x + w.y * w.y + w.z * w.z
  }

  lemma ConvergedIff(t: Trig, tool: Pose, target: Pose, q: Joints, tol: real)
    requires Laws(t)
    ensures Converged(t, tool, target, q, tol) <==> Close(t, tool, target, q, tol)
  {
    hide Laws, PoseError, EePose, TwistLength, SquaredLength;
    LengthBelow(t, PoseError(t, target, EePose(t, tool, q)), tol);
  }

  lemma LengthBelow(t: Trig, e: Twist, tol: real)
    requires Laws(t)
    ensures TwistLength(t, e) < tol <==> tol > 0.0 && SquaredLength(e) < tol * tol
  {
    hide Laws, Dot, SquaredLength;
    var s := SquaredLength(e);
    SquaredIsDots(e);
    NormNonneg(e.linear);
    NormNonneg(e.angular);
    RootOf(t, s);
    RootBelow(t.sqrt(s), s, tol);
  }

  lemma SquaredIsDots(e: Twist)
    ensures Dot(e.linear, e.linear) + Dot(e.angular, e.angular) == SquaredLength(e)
  {
  }

  lemma RootOf(t: Trig, s: real)
    requires Laws(t) && s >= 0.0
    ensures t.sqrt(s) >= 0.0 && t.sqrt(s) * t.sqrt(s) == s
  {
  }

  lemma RootBelow(r: real, s: real, tol: real)
    requires r >= 0.0 && r * r == s
    ensures r < tol <==> tol > 0.0 && s < tol * tol
  {
    if tol > 0.0 {
      if r < tol {
        MulNonneg(r, tol - r);
        MulPositive(tol, tol - r);
      } else {
        MulNonneg(r, r - tol);
        MulNonneg(tol, r - tol);
      }
    }
  }

  /** The iterates of the loop: each but the last is not close yet, and corrected into the next by the solver. */
  ghost predicate Iterates(t: Trig, tool: Pose, solve: Solver, target: Pose, tol: real, path: seq<Joints>)
    requires Laws(t)
  {
    forall k | 0 <= k < |path| - 1 ::
      && !Close(t, tool, target, path[k], tol)
      && Corrected(path[k], solve(Jacobian(t, tool, path[k]), PoseError(t, target, EePose(t, tool, path[k]))),
                   path[k + 1])
  }

  /** The loop ends where the pose is close, or after exactly iters corrections. */
  lemma {:induction false} IkPath(t: Trig, tool: Pose, solve: Solver, target: Pose, seed: Joints, iters: nat, tol: real)
    returns (path: seq<Joints>)
    requires Laws(t)
    ensures path != [] && path[0] == seed && |path| - 1 <= iters && Iterates(t, tool, solve, target, tol, path)
    ensures var last := path[|path| - 1];
      && last == IkRun(t, tool, solve, target, seed, iters, tol)
      && (Close(t, tool, target, last, tol) || |path| - 1 == iters)
    decreases iters
  {
    hide Laws, EePose, Jacobian, PoseError, Converged, Close, Corrected, ClippedStep;
    ConvergedIff(t, tool, target, seed, tol);
    if iters == 0 || Converged(t, tool, target, seed, tol) {
      path := [seed];
    } else {
      var dq := solve(Jacobian(t, tool, seed), PoseError(t, target, EePose(t, tool, seed)));
      var next := ClippedStep(seed, dq);
      StepCorrects(seed, dq);
      var rest := IkPath(t, tool, solve, target, next, iters - 1, tol);
      path := [seed] + rest;
    }
  }

  /**
   * The error points from the pose to the target: added to the position it gives the target's, and turning the pose
   * by it gives the target's rotation exactly when the relative rotation survives the logarithm.
   */
  lemma ErrorLeadsToTarget(t: Trig, target: Pose, ee: Pose)
    requires Laws(t) && Rigid(target) && Rigid(ee)
    ensures var e := PoseError(t, target, ee);
      && Add(ee.pos, e.linear) == target.pos
      && (Mul(AxisAngleToRot(t, e.angular), ee.rot) == target.rot <==> LogExact(t, Mul(target.rot, Transpose(ee.rot))))
  {
    hide Laws, Rotation, AxisAngleToRot, RotToAxisAngle, Mul, Transpose, Add, Sub, LogExact;
    var relative := Mul(target.rot, Transpose(ee.rot));
    RotationTranspose(ee.rot);
    RotationMul(target.rot, Transpose(ee.rot));
    ExpLogIff(t, relative);
    AddSub(ee.pos, target.pos);
    CancelRotation(AxisAngleToRot(t, RotToAxisAngle(t, relative)), target.rot, ee.rot);
  }

  /** Whatever the solver returns and however long it runs, the result is the untouched seed or inside the limits. */
  lemma {:induction false} IkRange(t: Trig, tool: Pose, solve: Solver, target: Pose, seed: Joints, iters: nat,
                                   tol: real)
    requires Laws(t)
    ensures var q := IkRun(t, tool, solve, target, seed, iters, tol);
      && (q == seed || InLimits(q))
      && (q == seed <== iters == 0 || Converged(t, tool, target, seed, tol))
    decreases iters
  {
    hide Laws, Converged, EePose, InLimits, ClippedStep, PoseError, Jacobian;
    if iters > 0 && !Converged(t, tool, target, seed, tol) {
      var dq := solve(Jacobian(t, tool, seed), PoseError(t, target, EePose(t, tool, seed)));
      ClippedInLimits(seed, dq);
      IkRange(t, tool, solve, target, ClippedStep(seed, dq), iters - 1, tol);
    }
  }

  lemma IkStaysInLimits(t: Trig, tool: Pose, solve: Solver, target: Pose, seed: Joints, iters: nat, tol: real)
    requires Laws(t) && InLimits(seed)
    ensures InLimits(IkRun(t, tool, solve, target, seed, iters, tol))
  {
    IkRange(t, tool, solve, target, seed, iters, tol);
    hide Laws, InLimits, IkRun;
  }

  lemma IdentityAngle(t: Trig)
    requires Laws(t)
    ensures RotToAxisAngle(t, IDENTITY) == ZERO
  {
    hide Rotation;
    IdentityRotation();
    NoTurn(t, IDENTITY);
  }

  lemma RootZero(t: Trig)
    requires Laws(t)
    ensures t.sqrt(0.0) == 0.0
  {
    assert t.sqrt(0.0) * t.sqrt(0.0) == 0.0;
    hide Laws;
    SquareZero(t.sqrt(0.0));
  }

  /** The error of a pose to itself is zero. */
  lemma NoError(t: Trig, pose: Pose)
    requires Laws(t) && Rigid(pose)
    ensures PoseError(t, pose, pose) == Twist(ZERO, ZERO) && TwistLength(t, Twist(ZERO, ZERO)) == 0.0
  {
    hide Laws, Rotation, RotToAxisAngle, Dot, Mul, Transpose, Sub;
    MulTranspose(pose.rot);
    IdentityAngle(t);
    DotZero();
    RootZero(t);
    SubSelf(pose.pos);
  }

  /** Asked for the pose it already has, the inverse returns the joints unchanged. */
  lemma IkAtTarget(t: Trig, tool: Pose, solve: Solver, q: Joints, iters: nat, tol: real)
    requires Laws(t) && Rigid(tool) && tol > 0.0
    ensures IkRun(t, tool, solve, EePose(t, tool, q), q, iters, tol) == q
  {
    EePoseRigid(t, tool, q);
    hide Laws, Rigid, PoseError, TwistLength, EePose;
    NoError(t, EePose(t, tool, q));
  }

  // ------------------------------------------------------------ the end-effector delta step

  /** ee_step_to_joint's target: a normalised tool-frame delta applied to the measured pose. */
  function EeTarget(t: Trig, ee: Pose, dpos: Vec, drot: Vec, posMax: real, rotMax: real): Pose
    requires Laws(t)
  {
    Pose(Mul(AxisAngleToRot(t, Apply(ee.rot, Scale(rotMax, drot))), ee.rot),
         Add(ee.pos, Apply(ee.rot, Scale(posMax, dpos))))
  }

  const IK_ITERS := 30
  const IK_TOL := 0.00001

  function GripperOpening(value: real): real { Clip((value + 1.0) / 2.0, 0.0, 1.0) }

  method EeStepToJoint(t: Trig, tool: Pose, solve: Solver, dpos: Vec, drot: Vec, grip: real, qMeas: Joints,
                       posMax: real, rotMax: real) returns (out: seq<real>)
    requires Laws(t)
    ensures |out| == 8 && out[7] == GripperOpening(grip)
    ensures var target := EeTarget(t, EePose(t, tool, qMeas), dpos, drot, posMax, rotMax);
      out[..7] == IkRun(t, tool, solve, target, qMeas, IK_ITERS, IK_TOL)
  {
    var ee := Fk(t, tool, qMeas);
    var target := EeTarget(t, ee, dpos, drot, posMax, rotMax);
    var q := Ik(t, tool, solve, target, qMeas, IK_ITERS, IK_TOL);
    out := q + [Clip((grip + 1.0) / 2.0, 0.0, 1.0)];
  }

  /** Every delta gives a target with a proper rotation part. */
  lemma EeTargetRigid(t: Trig, ee: Pose, dpos: Vec, drot: Vec, posMax: real, rotMax: real)
    requires Laws(t) && Rigid(ee)
    ensures Rigid(EeTarget(t, ee, dpos, drot, posMax, rotMax))
  {
    hide Laws, Rotation, AxisAngleToRot, Mul;
    var v := Apply(ee.rot, Scale(rotMax, drot));
    AxisAngleToRotIsRotation(t, v);
    RotationMul(AxisAngleToRot(t, v), ee.rot);
  }

  lemma ScaleInverse(k: real, v: Vec)
    requires k != 0.0
    ensures Scale(k, Divide(v, k)) == v
  {
  }

  /** The training label of a commanded pose, relative to the measured one. */
  function DeltaLabel(t: Trig, ee: Pose, cmd: Pose, posMax: real, rotMax: real): (Vec, Vec)
    requires Laws(t) && posMax != 0.0 && rotMax != 0.0
  {
    (Divide(Apply(Transpose(ee.rot), Sub(cmd.pos, ee.pos)), posMax),
     Divide(Apply(Transpose(ee.rot), RotToAxisAngle(t, Mul(cmd.rot, Transpose(ee.rot)))), rotMax))
  }

  /**
   * The label's target always has the commanded position, and is the commanded pose exactly when the
   * relative rotation survives the logarithm.
   */
  lemma EeTargetRecoversCommand(t: Trig, ee: Pose, cmd: Pose, posMax: real, rotMax: real)
    requires Laws(t) && Rigid(ee) && Rigid(cmd) && posMax != 0.0 && rotMax != 0.0
    ensures var delta := DeltaLabel(t, ee, cmd, posMax, rotMax);
      var target := EeTarget(t, ee, delta.0, delta.1, posMax, rotMax);
      && target.pos == cmd.pos
      && (target == cmd <==> LogExact(t, Mul(cmd.rot, Transpose(ee.rot))))
  {
    hide Laws, Rotation, AxisAngleToRot, RotToAxisAngle, Mul, Apply, Transpose, Scale, Divide, Add, Sub, LogExact;
    var relative := Mul(cmd.rot, Transpose(ee.rot));
    RotationTranspose(ee.rot);
    RotationMul(cmd.rot, Transpose(ee.rot));
    ExpLogIff(t, relative);
    ScaleInverse(posMax, Apply(Transpose(ee.rot), Sub(cmd.pos, ee.pos)));
    ScaleInverse(rotMax, Apply(Transpose(ee.rot), RotToAxisAngle(t, relative)));
    ApplyUndoes(ee.rot, Sub(cmd.pos, ee.pos));
    ApplyUndoes(ee.rot, RotToAxisAngle(t, relative));
    AddSub(ee.pos, cmd.pos);
    CancelRotation(AxisAngleToRot(t, RotToAxisAngle(t, relative)), cmd.rot, ee.rot);
  }

  /** From the origin toward the slanted near-half-turn, the label rebuilds another pose than the one commanded. */
  lemma LabelLosesCommand(t: Trig, posMax: real, rotMax: real)
    requires Laws(t) && posMax != 0.0 && rotMax != 0.0
    ensures var cmd := Pose(Slanted(t), ZERO);
      var delta := DeltaLabel(t, ORIGIN, cmd, posMax, rotMax);
      && Rigid(ORIGIN) && Rigid(cmd)
      && EeTarget(t, ORIGIN, delta.0, delta.1, posMax, rotMax) != cmd
  {
    hide Laws, Rotation, AxisAngleToRot, RotToAxisAngle, Slanted, LogExact, Mul, EeTarget, DeltaLabel;
    SlantedIsLost(t);
    ExpLogIff(t, Slanted(t));
    IdentityRotation();
    MulIdentity(Slanted(t));
    EeTargetRecoversCommand(t, ORIGIN, Pose(Slanted(t), ZERO), posMax, rotMax);
  }

  /** A R = B exactly when A = B R^T. */
  lemma CancelRotation(a: Mat, b: Mat, r: Mat)
    requires Rotation(r)
    ensures Mul(a, r) == b <==> a == Mul(b, Transpose(r))
  {
    hide Rotation, Mul, Transpose;
    MulTranspose(r);
    MulAssociative(a, r, Transpose(r));
    MulAssociative(b, Transpose(r), r);
    MulIdentity(a);
    MulIdentity(b);
  }

  /** A zero delta leaves the robot exactly where it is measured, inside the limits or not. */
  lemma ZeroDeltaHolds(t: Trig, tool: Pose, solve: Solver, q: Joints, posMax: real, rotMax: real)
    requires Laws(t) && Rigid(tool)
    ensures IkRun(t, tool, solve, EeTarget(t, EePose(t, tool, q), ZERO, ZERO, posMax, rotMax), q, IK_ITERS, IK_TOL) == q
  {
    hide Laws, Rigid, EePose, AxisAngleToRot, Mul, Apply, Scale, Add, IkRun;
    var ee := EePose(t, tool, q);
    ScaleZero(posMax);
    ScaleZero(rotMax);
    ApplyZero(ee.rot);
    ExpOfZero(t);
    MulIdentity(ee.rot);
    AddZero(ee.pos);
    IkAtTarget(t, tool, solve, q, IK_ITERS, IK_TOL);
  }

  lemma ScaleZero(k: real)
    ensures Scale(k, ZERO) == ZERO
  {
  }

  /** A base-frame turn about the rotated axis is a tool-frame turn about the axis. */
  lemma ToolFrameTurn(t: Trig, r: Mat, v: Vec)
    requires Laws(t) && Rotation(r)
    ensures Mul(AxisAngleToRot(t, Apply(r, v)), r) == Mul(r, AxisAngleToRot(t, v))
  {
    hide Laws, Rotation, Apply, Rodrigues, Divide, Dot;
    RotationKeepsDot(r, v, v);
    var len := Length(t, v);
    assert Length(t, Apply(r, v)) == len;
    if len < 0.000000001 {
      MulIdentity(r);
      hide Mul;
    } else {
      var k, c, s := Divide(v, len), t.cos(len), t.sin(len);
      DivideApply(r, v, len);
      TurnColumns(r, k, c, s);
      hide Mul;
    }
  }

  lemma DivideApply(r: Mat, v: Vec, d: real)
    requires d > 0.0
    ensures Divide(Apply(r, v), d) == Apply(r, Divide(v, d))
  {
    hide Apply, Divide;
    DivideScales(v, d);
    ApplyScale(r, d, Divide(v, d));
    DivideUndoes(d, Apply(r, Divide(v, d)));
  }

  lemma TurnColumns(r: Mat, k: Vec, c: real, s: real)
    requires Rotation(r)
    ensures Mul(Rodrigues(Apply(r, k), c, s), r) == Mul(r, Rodrigues(k, c, s))
  {
    hide Rotation, Apply, Rodrigues;
    ApplyUnits(r);
    ApplyUnits(Rodrigues(k, c, s));
    RodriguesConjugate(r, k, c, s, E1);
    RodriguesConjugate(r, k, c, s, E2);
    RodriguesConjugate(r, k, c, s, E3);
  }
}
