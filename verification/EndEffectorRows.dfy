/** schema/apply.py: where end-effector rows lead, and what they must hold. */
module EndEffectorRows {
  import opened Numeric
  import opened Outcomes
  import opened Linear
  import opened Quaternions
  import opened AxisAngle
  import opened RotationLog
  import opened Rot6d
  import opened Kinematics
  import opened InverseKinematics
  import opened ActionSpace

  /**
   * The columns of a rotation are read exactly if there are as many as it needs; a rotation vector of fewer than three
   * is taken as no turn if it is shorter than 1e-9.
   */
  lemma RotationReadIff(t: Trig, repr: Repr, cols: seq<real>)
    requires Laws(t)
    ensures RotationOf(t, repr, cols).Ok? <==> match repr
      case Quaternion => |cols| == 4
      case SixD => |cols| == 6
      case RotVec => |cols| == 3 || (|cols| < 3 && Squares(cols) < 0.000000001 * 0.000000001)
      case NoRotation => false
    ensures repr.RotVec? && |cols| < 3 && RotationOf(t, repr, cols).Ok? ==> RotationOf(t, repr, cols).value == IDENTITY
  {
    if repr.RotVec? && |cols| < 3 { ShortVector(t, cols); }
    hide Laws, QuatToRot, Rot6dToRot, AxisAngleToRot, Length, Padded, Squares;
  }

  function Squares(cols: seq<real>): real {
    if cols == [] then 0.0 else Squares(cols[..|cols| - 1]) + cols[|cols| - 1] * cols[|cols| - 1]
  }

  lemma ShortVector(t: Trig, cols: seq<real>)
    requires Laws(t) && |cols| < 3
    ensures Length(t, Padded(cols)) < 0.000000001 <==> Squares(cols) < 0.000000001 * 0.000000001
  {
    hide Laws, Dot, Padded, Squares;
    PaddedSquares(cols);
    RootBelow(Length(t, Padded(cols)), Squares(cols), 0.000000001);
  }

  lemma PaddedSquares(cols: seq<real>)
    requires |cols| < 3
    ensures Dot(Padded(cols), Padded(cols)) == Squares(cols)
  {
    if |cols| == 2 { assert cols[..1][..0] == []; }
  }

  /** An absolute row that names a rigid pose asks for exactly that pose, wherever the robot is. */
  lemma NamedPoseIsGoal(t: Trig, ee: Pose, spec: Spec, row: seq<real>, named: Pose)
    requires Laws(t) && spec.kind.EeAbsolute? && Rigid(named) && Names(t, spec, row, named)
    ensures Goal(t, ee, spec, row) == Ok(named)
  {
    FittingColumns(spec, row);
    NamedRotation(t, spec, row, named);
    hide Laws, Rotation, RotationOf, LogExact, MatToQuat, RotToAxisAngle;
  }

  /** A delta row that names no turn moves the goal along the tool's axes, by its first three numbers scaled. */
  lemma DeltaRowTranslates(t: Trig, ee: Pose, spec: Spec, row: seq<real>)
    requires Laws(t) && Rigid(ee) && spec.kind.EeDelta? && Fits(spec, row)
    requires Names(t, spec, row, Pose(IDENTITY, ToVec(row[..3])))
    ensures Goal(t, ee, spec, row) ==
      Ok(Pose(ee.rot, Add(ee.pos, Apply(ee.rot, Scale(spec.posScale, ToVec(row[..3]))))))
  {
    hide Laws, Rotation, RotationOf, LogExact, MatToQuat, RotToAxisAngle, Mul, Apply, Scale, Add, AxisAngleToRot;
    FittingColumns(spec, row);
    IdentityRotation();
    NamedRotation(t, spec, row, Pose(IDENTITY, ToVec(row[..3])));
    MulIdentity(ee.rot);
    if spec.repr.RotVec? {
      NoTurnVector(t, ee, spec.rotScale, ToVec(row[3..6]));
    }
  }

  lemma NoTurnVector(t: Trig, ee: Pose, scale: real, v: Vec)
    requires Laws(t) && v == RotToAxisAngle(t, IDENTITY)
    ensures Mul(AxisAngleToRot(t, Apply(ee.rot, Scale(scale, v))), ee.rot) == ee.rot
  {
    IdentityAngle(t);
    hide Laws, RotToAxisAngle, Mul, Apply, Scale, AxisAngleToRot;
    ScaleZero(scale);
    ApplyZero(ee.rot);
    ExpOfZero(t);
    MulIdentity(ee.rot);
  }

  /**
   * The joints of an end-effector row are where the clipped iteration toward its goal ends that starts at the measured
   * joints: at a pose whose error is below 1e-5, or after thirty corrections.
   */
  lemma JointsSeekGoal(t: Trig, tool: Pose, solve: Solver, spec: Spec, row: seq<real>, q: Joints)
    returns (path: seq<Joints>)
    requires Laws(t) && EndEffector(spec) && Goal(t, EePose(t, tool, q), spec, row).Ok?
    ensures var goal := Goal(t, EePose(t, tool, q), spec, row).value;
      && path != [] && path[0] == q && |path| <= 31 && Iterates(t, tool, solve, goal, 0.00001, path)
      && JointsFor(t, tool, solve, spec, row, q) == Ok(path[|path| - 1])
      && (Close(t, tool, goal, path[|path| - 1], 0.00001) || |path| == 31)
  {
    hide Laws, EePose, Goal, Iterates, Close, IkRun;
    path := IkPath(t, tool, solve, Goal(t, EePose(t, tool, q), spec, row).value, q, IK_ITERS, IK_TOL);
  }

  /** An end-effector row without a goal has no joints. */
  lemma NoGoalNoJoints(t: Trig, tool: Pose, solve: Solver, spec: Spec, row: seq<real>, q: Joints)
    requires Laws(t) && EndEffector(spec)
    ensures JointsFor(t, tool, solve, spec, row, q).Err? <==> Goal(t, EePose(t, tool, q), spec, row).Err?
  {
    hide Laws, EePose, Goal, IkRun;
  }
}
