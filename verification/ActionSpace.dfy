/** schema/apply.py: one row of a policy's action chunk to seven joint angles and a gripper opening. */
module ActionSpace {
  import opened Numeric
  import opened Outcomes
  import opened Linear
  import opened Quaternions
  import opened AxisAngle
  import opened RotationLog
  import opened Rot6d
  import opened Kinematics
  import opened InverseKinematics

  datatype Kind = JointAbsolute | JointDelta | EeAbsolute | EeDelta

  datatype Repr = RotVec | Quaternion | SixD | NoRotation

  datatype Spec = Spec(kind: Kind, dim: nat, hasGripper: bool, signedGripper: bool, repr: Repr,
                       posScale: real, rotScale: real, jointScale: real)

  function RotDim(repr: Repr): nat {
    match repr case RotVec => 3 case Quaternion => 4 case SixD => 6 case NoRotation => 0
  }

  // ------------------------------------------------------------ rows of any length, as numpy reads them

  /** row[a:b] */
  function Slice(row: seq<real>, a: nat, b: nat): seq<real>
    requires a <= b
  {
    if |row| <= a then [] else if |row| <= b then row[a..] else row[a..b]
  }

  /** row[i], negative indices counting from the end. */
  function Item(row: seq<real>, i: int): Option<real> {
    if 0 <= i < |row| then Some(row[i]) else if -|row| <= i < 0 then Some(row[|row| + i]) else None
  }

  /** A row of n numbers where numpy broadcasts v to that length. */
  function Spread(v: seq<real>, n: nat): (r: Option<seq<real>>)
    ensures r.Some? ==> |r.value| == n
  {
    if |v| == n then Some(v) else if |v| == 1 then Some(seq(n, _ => v[0])) else None
  }

  function ToVec(v: seq<real>): Vec
    requires |v| == 3
  {
    Vec(v[0], v[1], v[2])
  }

  /** A vector of up to three numbers, for its length. */
  function Padded(v: seq<real>): Vec {
    Vec(if |v| > 0 then v[0] else 0.0, if |v| > 1 then v[1] else 0.0, if |v| > 2 then v[2] else 0.0)
  }

  function GripperTo01(value: real, signed: bool): real {
    if signed then Clip((value + 1.0) / 2.0, 0.0, 1.0) else Clip(value, 0.0, 1.0)
  }

  function GripperOf(spec: Spec, row: seq<real>): Option<real> {
    if !spec.hasGripper then Some(0.0)
    else match Item(row, spec.dim - 1) case None => None case Some(v) => Some(GripperTo01(v, spec.signedGripper))
  }

  /** _rotation_matrix: the wrong number of columns raises, except a rotation vector too short to turn anything. */
  function RotationOf(t: Trig, repr: Repr, cols: seq<real>): Result<Mat>
    requires Laws(t)
  {
    match repr
    case Quaternion => if |cols| == 4 then Ok(QuatToRot(Quat(cols[0], cols[1], cols[2], cols[3]))) else Err
    case SixD => if |cols| == 6 then Ok(Rot6dToRot(t, ToVec(cols[..3]), ToVec(cols[3..]))) else Err
    case RotVec =>
      if |cols| == 3 then Ok(AxisAngleToRot(t, ToVec(cols)))
      else if |cols| < 3 && Length(t, Padded(cols)) < 0.000000001 then Ok(IDENTITY)
      else Err
    case NoRotation => Err
  }

  function Columns(spec: Spec, row: seq<real>): seq<real> { Slice(row, 3, 3 + RotDim(spec.repr)) }

  predicate EndEffector(spec: Spec) { spec.kind.EeAbsolute? || spec.kind.EeDelta? }

  /** The pose an end-effector row asks for, from the measured pose ee. */
  function Goal(t: Trig, ee: Pose, spec: Spec, row: seq<real>): Result<Pose>
    requires Laws(t) && EndEffector(spec)
  {
    if spec.kind.EeDelta? && spec.repr.RotVec? then
      if |row| < 6 then Err
      else Ok(EeTarget(t, ee, ToVec(row[..3]), ToVec(row[3..6]), spec.posScale, spec.rotScale))
    else
      match RotationOf(t, spec.repr, Columns(spec, row))
      case Err => Err
      case Ok(r) =>
        if spec.kind.EeAbsolute? then
          match Spread(Slice(row, 0, 3), 3) case None => Err case Some(pos) => Ok(Pose(r, ToVec(pos)))
        else if |row| < 3 then Err
        else Ok(Pose(Mul(r, ee.rot), Add(ee.pos, Apply(ee.rot, Scale(spec.posScale, ToVec(row[..3]))))))
  }

  /** The joints a row asks for. */
  function JointsFor(t: Trig, tool: Pose, solve: Solver, spec: Spec, row: seq<real>, qMeas: Joints): Result<seq<real>>
    requires Laws(t)
  {
    match spec.kind
    case JointAbsolute => (match Spread(Slice(row, 0, 7), 7) case None => Err case Some(q) => Ok(q))
    case JointDelta =>
      (match Spread(Slice(row, 0, 7), 7) case None => Err case Some(d) => Ok(Offset(qMeas, d, spec.jointScale)))
    case _ =>
      match Goal(t, EePose(t, tool, qMeas), spec, row)
      case Err => Err
      case Ok(goal) => Ok(IkRun(t, tool, solve, goal, qMeas, IK_ITERS, IK_TOL))
  }

  function Offset(q: Joints, d: seq<real>, scale: real): (r: seq<real>)
    requires |d| == 7
    ensures |r| == 7
  {
    seq(7, i requires 0 <= i < 7 && |q| == 7 && |d| == 7 => q[i] + d[i] * scale)
  }

  method RowToJointTarget(t: Trig, tool: Pose, solve: Solver, spec: Spec, row: seq<real>, qMeas: Joints)
    returns (r: Result<seq<real>>)
    requires Laws(t)
    ensures r.Err? <==> GripperOf(spec, row).None? || JointsFor(t, tool, solve, spec, row, qMeas).Err?
    ensures r.Ok? ==> |r.value| == 8 && JointsFor(t, tool, solve, spec, row, qMeas) == Ok(r.value[..7])
    ensures r.Ok? ==> GripperOf(spec, row) == Some(r.value[7])
  {
    var gripper := 0.0;
    if spec.hasGripper {
      var raw := Item(row, spec.dim - 1);
      if raw.None? {
        return Err;
      }
      gripper := GripperTo01(raw.value, spec.signedGripper);
    }
    var q: Joints;
    match spec.kind {
      case JointAbsolute =>
        var given := Spread(Slice(row, 0, 7), 7);
        if given.None? {
          return Err;
        }
        q := given.value;
      case JointDelta =>
        var given := Spread(Slice(row, 0, 7), 7);
        if given.None? {
          return Err;
        }
        q := Offset(qMeas, given.value, spec.jointScale);
      case EeAbsolute =>
        var ok;
        ok, q := EeAbsoluteJoints(t, tool, solve, spec, row, qMeas);
        if !ok {
          return Err;
        }
      case EeDelta =>
        var ok;
        ok, q := EeDeltaJoints(t, tool, solve, spec, row, qMeas);
        if !ok {
          return Err;
        }
    }
    r := Ok(q + [gripper]);
  }

  method EeAbsoluteJoints(t: Trig, tool: Pose, solve: Solver, spec: Spec, row: seq<real>, qMeas: Joints)
    returns (ok: bool, q: Joints)
    requires Laws(t) && spec.kind.EeAbsolute?
    ensures JointsFor(t, tool, solve, spec, row, qMeas) == if ok then Ok(q) else Err
  {
    q := qMeas;
    var rot := RotationOf(t, spec.repr, Columns(spec, row));
    var pos := Spread(Slice(row, 0, 3), 3);
    ok := rot.Ok? && pos.Some?;
    if ok {
      q := Ik(t, tool, solve, Pose(rot.value, ToVec(pos.value)), qMeas, IK_ITERS, IK_TOL);
    }
  }

  method EeDeltaJoints(t: Trig, tool: Pose, solve: Solver, spec: Spec, row: seq<real>, qMeas: Joints)
    returns (ok: bool, q: Joints)
    requires Laws(t) && spec.kind.EeDelta?
    ensures JointsFor(t, tool, solve, spec, row, qMeas) == if ok then Ok(q) else Err
  {
    q := qMeas;
    if spec.repr.RotVec? {
      ok := |row| >= 6;
      if ok {
        var out := EeStepToJoint(t, tool, solve, ToVec(row[..3]), ToVec(row[3..6]), 0.0, qMeas,
                                 spec.posScale, spec.rotScale);
        q := out[..7];
      }
      return;
    }
    var ee := Fk(t, tool, qMeas);
    var rot := RotationOf(t, spec.repr, Columns(spec, row));
    ok := rot.Ok? && |row| >= 3;
    if ok {
      var goal := Pose(Mul(rot.value, ee.rot), Add(ee.pos, Apply(ee.rot, Scale(spec.posScale, ToVec(row[..3])))));
      q := Ik(t, tool, solve, goal, qMeas, IK_ITERS, IK_TOL);
    }
  }

  // ------------------------------------------------------------ what end-effector goals are

  /** The row has the columns its confirmed format names. */
  predicate Fits(spec: Spec, row: seq<real>) { |row| >= 3 + RotDim(spec.repr) }

  lemma FittingColumns(spec: Spec, row: seq<real>)
    requires Fits(spec, row)
    ensures Columns(spec, row) == row[3..3 + RotDim(spec.repr)] && |Columns(spec, row)| == RotDim(spec.repr)
    ensures Slice(row, 0, 3) == row[..3]
  {
  }

  /** Six columns span a plane, above the floors of the Gram-Schmidt steps. */
  ghost predicate Independent(t: Trig, cols: seq<real>)
    requires Laws(t)
  {
    |cols| == 6 &&
    Length(t, ToVec(cols[..3])) >= FLOOR &&
    Length(t, Orthogonal(Normalized(t, ToVec(cols[..3])), ToVec(cols[3..]))) >= FLOOR
  }

  lemma RotationOfProper(t: Trig, repr: Repr, cols: seq<real>)
    requires Laws(t) && RotationOf(t, repr, cols).Ok?
    ensures Rotation(RotationOf(t, repr, cols).value) <==> (repr.SixD? ==> Independent(t, cols))
  {
    hide Laws, Rotation, Rot6dToRot, AxisAngleToRot, QuatToRot, Length, Orthogonal, Normalized;
    match repr
    case Quaternion => QuatToRotIsRotation(Quat(cols[0], cols[1], cols[2], cols[3]));
    case SixD => Rot6dIsRotationIff(t, ToVec(cols[..3]), ToVec(cols[3..]));
    case RotVec =>
      IdentityRotation();
      if |cols| == 3 { AxisAngleToRotIsRotation(t, ToVec(cols)); }
  }

  /** A R is a rotation exactly when A is. */
  lemma RotationFactor(a: Mat, r: Mat)
    requires Rotation(r)
    ensures Rotation(Mul(a, r)) <==> Rotation(a)
  {
    hide Rotation, Mul, Transpose;
    if Rotation(a) { RotationMul(a, r); }
    if Rotation(Mul(a, r)) {
      RotationTranspose(r);
      RotationMul(Mul(a, r), Transpose(r));
      CancelRotation(a, Mul(a, r), r);
    }
  }

  /** Every end-effector goal has a proper rotation part, except from six dependent rotation columns. */
  lemma GoalRigidIff(t: Trig, ee: Pose, spec: Spec, row: seq<real>)
    requires Laws(t) && Rigid(ee) && EndEffector(spec) && Goal(t, ee, spec, row).Ok?
    ensures Rigid(Goal(t, ee, spec, row).value) <==> (spec.repr.SixD? ==> Independent(t, Columns(spec, row)))
  {
    hide Laws, Rotation, Independent, Mul, EeTarget, RotationOf;
    if spec.kind.EeDelta? && spec.repr.RotVec? {
      EeTargetRigid(t, ee, ToVec(row[..3]), ToVec(row[3..6]), spec.posScale, spec.rotScale);
    } else {
      RotationOfProper(t, spec.repr, Columns(spec, row));
      RotationFactor(RotationOf(t, spec.repr, Columns(spec, row)).value, ee.rot);
    }
  }

  /** A row with the columns of its format is always read, whatever the numbers, if the format has a rotation. */
  lemma FittingRowsAreRead(t: Trig, ee: Pose, spec: Spec, row: seq<real>)
    requires Laws(t) && EndEffector(spec) && Fits(spec, row)
    ensures Goal(t, ee, spec, row).Err? <==> spec.repr.NoRotation?
  {
    FittingColumns(spec, row);
    hide Laws, QuatToRot, Rot6dToRot, AxisAngleToRot, EeTarget, Mul, Length;
  }

  /** The row names the pose ee, in any of the representations; a rotation vector must survive the logarithm. */
  ghost predicate Names(t: Trig, spec: Spec, row: seq<real>, ee: Pose)
    requires Laws(t)
  {
    Fits(spec, row) && ToVec(row[..3]) == ee.pos &&
    match spec.repr
    case Quaternion =>
      SquareRoot(t.sqrt) && Quat(row[3], row[4], row[5], row[6]) == MatToQuat(t.sqrt, ee.rot)
    case SixD => ToVec(row[3..6]) == ee.rot.c1 && ToVec(row[6..9]) == ee.rot.c2
    case RotVec => ToVec(row[3..6]) == RotToAxisAngle(t, ee.rot) && LogExact(t, ee.rot)
    case NoRotation => false
  }

  lemma NamedRotation(t: Trig, spec: Spec, row: seq<real>, ee: Pose)
    requires Laws(t) && Rigid(ee) && Names(t, spec, row, ee)
    ensures RotationOf(t, spec.repr, Columns(spec, row)) == Ok(ee.rot)
  {
    hide Laws, Rotation, MatToQuat, QuatToRot, Rot6dToRot, AxisAngleToRot, RotToAxisAngle, LogExact, SquareRoot, Length;
    FittingColumns(spec, row);
    var cols := Columns(spec, row);
    match spec.repr
    case Quaternion => RotationRoundTrip(t.sqrt, ee.rot);
    case SixD =>
      assert cols[..3] == row[3..6] && cols[3..] == row[6..9];
      Rot6dRoundTrip(t, ee.rot);
    case RotVec => ExpLogIff(t, ee.rot);
  }

  /** A row that names the present pose moves nothing. */
  lemma PresentPoseHolds(t: Trig, tool: Pose, solve: Solver, spec: Spec, row: seq<real>, q: Joints)
    requires Laws(t) && Rigid(tool) && spec.kind.EeAbsolute? && Names(t, spec, row, EePose(t, tool, q))
    ensures JointsFor(t, tool, solve, spec, row, q) == Ok(q)
  {
    var ee := EePose(t, tool, q);
    hide Laws, Rotation, EePose, IkRun, RotationOf;
    EePoseRigid(t, tool, q);
    NamedRotation(t, spec, row, ee);
    FittingColumns(spec, row);
    IkAtTarget(t, tool, solve, q, IK_ITERS, IK_TOL);
  }

  /**
   * The same rotation delta given as a rotation vector is applied in the tool frame, given as a quaternion or
   * six columns in the base frame: the two goals agree exactly when the delta commutes with the measured rotation.
   */
  lemma DeltaFramesAgreeIff(t: Trig, ee: Pose, vec: Spec, vecRow: seq<real>, other: Spec, otherRow: seq<real>)
    requires Laws(t) && Rigid(ee) && vec.kind.EeDelta? && other.kind.EeDelta? && vec.posScale == other.posScale
    requires |vecRow| >= 6 && |otherRow| >= 3 && vec.repr.RotVec? && !other.repr.RotVec?
    requires vecRow[..3] == otherRow[..3]
    requires RotationOf(t, other.repr, Columns(other, otherRow))
          == Ok(AxisAngleToRot(t, Scale(vec.rotScale, ToVec(vecRow[3..6]))))
    ensures var delta := AxisAngleToRot(t, Scale(vec.rotScale, ToVec(vecRow[3..6])));
      Goal(t, ee, vec, vecRow) == Goal(t, ee, other, otherRow) <==> Mul(delta, ee.rot) == Mul(ee.rot, delta)
  {
    hide Laws, Rotation, AxisAngleToRot, Mul, Apply, Scale, RotationOf;
    ToolFrameTurn(t, ee.rot, Scale(vec.rotScale, ToVec(vecRow[3..6])));
  }

  // ------------------------------------------------------------ an input on which the two frames differ

  /** A quarter turn about the z axis. */
  const QUARTER := LinkRot(1.0, 0.0, 0.0, 1.0)

  lemma QuarterRotation()
    ensures Rotation(QUARTER)
  {
    LinkColumns(1.0, 0.0, 0.0, 1.0);
  }

  lemma SineOfOne(t: Trig)
    requires Laws(t)
    ensures t.sin(1.0) > 0.0
  {
  }

  lemma UnitScaled(v: Vec)
    ensures Divide(v, 1.0) == v && Scale(1.0, v) == v
  {
  }

  /** One radian about the x axis. */
  lemma Tilt(t: Trig)
    requires Laws(t)
    ensures AxisAngleToRot(t, E1) == Rodrigues(E1, t.cos(1.0), t.sin(1.0))
  {
    hide Laws, Rodrigues, Divide, Scale, Dot, Cross;
    UnitVectors();
    UnitScaled(E1);
    ExpOfScaled(t, 1.0, E1);
  }

  lemma TiltedThird(c: real, s: real)
    ensures Rodrigues(E1, c, s).c3 == Vec(0.0, -s, c)
  {
    hide Rodrigues, Cross, Apply;
    ApplyUnits(Rodrigues(E1, c, s));
    ApplyRodrigues(E1, c, s, E3);
    UnitCross(E3);
    UnitCross(Cross(E1, E3));
  }

  lemma TurnedThird(a: Mat)
    ensures Mul(a, QUARTER).c3 == a.c3 && Mul(QUARTER, a).c3 == Vec(-a.c3.y, a.c3.x, a.c3.z)
  {
    ApplyUnits(a);
    QuarterApplies(a.c3);
    hide Apply;
  }

  lemma QuarterApplies(v: Vec)
    ensures Apply(QUARTER, v) == Vec(-v.y, v.x, v.z) && QUARTER.c3 == E3
  {
  }

  lemma TiltAndQuarter(t: Trig)
    requires Laws(t)
    ensures Mul(AxisAngleToRot(t, E1), QUARTER) != Mul(QUARTER, AxisAngleToRot(t, E1))
  {
    hide Laws, Rodrigues, AxisAngleToRot, Mul;
    SineOfOne(t);
    Tilt(t);
    TiltedThird(t.cos(1.0), t.sin(1.0));
    TurnedThird(AxisAngleToRot(t, E1));
  }

  const VEC_SPEC := Spec(EeDelta, 6, false, false, RotVec, 1.0, 1.0, 1.0)

  const SIX_SPEC := Spec(EeDelta, 9, false, false, SixD, 1.0, 1.0, 1.0)

  const VEC_ROW: seq<real> := [0.0, 0.0, 0.0, 1.0, 0.0, 0.0]

  function SixRow(r: Mat): seq<real> { [0.0, 0.0, 0.0, r.c1.x, r.c1.y, r.c1.z, r.c2.x, r.c2.y, r.c2.z] }

  lemma VecRowRead(t: Trig)
    requires Laws(t)
    ensures RotationOf(t, RotVec, Columns(VEC_SPEC, VEC_ROW)) == Ok(AxisAngleToRot(t, E1)) && ToVec(VEC_ROW[3..6]) == E1
  {
    hide Laws, AxisAngleToRot, Length;
    assert Columns(VEC_SPEC, VEC_ROW) == [1.0, 0.0, 0.0];
  }

  lemma SixRowRead(t: Trig, r: Mat)
    requires Laws(t) && Rotation(r)
    ensures RotationOf(t, SixD, Columns(SIX_SPEC, SixRow(r))) == Ok(r)
  {
    hide Laws, Rotation, Rot6dToRot;
    var cols := [r.c1.x, r.c1.y, r.c1.z, r.c2.x, r.c2.y, r.c2.z];
    assert Columns(SIX_SPEC, SixRow(r)) == cols;
    assert ToVec(cols[..3]) == r.c1 && ToVec(cols[3..]) == r.c2;
    Rot6dRoundTrip(t, r);
  }

  /** From a tool that does not commute with one radian about x, the goal depends on how that delta is written. */
  lemma FramesDifferAt(t: Trig, ee: Pose, delta: Mat)
    requires Laws(t) && Rigid(ee) && delta == AxisAngleToRot(t, E1) && Mul(delta, ee.rot) != Mul(ee.rot, delta)
    ensures RotationOf(t, RotVec, Columns(VEC_SPEC, VEC_ROW)) == Ok(delta)
    ensures RotationOf(t, SixD, Columns(SIX_SPEC, SixRow(delta))) == Ok(delta)
    ensures Goal(t, ee, VEC_SPEC, VEC_ROW) != Goal(t, ee, SIX_SPEC, SixRow(delta))
  {
    RowsSharePosition(delta);
    hide Laws, Rotation, AxisAngleToRot, Mul, Goal, RotationOf, Columns, SixRow, ToVec, Scale;
    AxisAngleToRotIsRotation(t, E1);
    VecRowRead(t);
    SixRowRead(t, delta);
    UnitScaled(E1);
    DeltaFramesAgreeIff(t, ee, VEC_SPEC, VEC_ROW, SIX_SPEC, SixRow(delta));
  }

  lemma RowsSharePosition(r: Mat)
    ensures |SixRow(r)| == 9 && VEC_ROW[..3] == SixRow(r)[..3]
  {
  }

  /** A delta of one radian about x, from a tool turned a quarter about z: the goal depends on how it is written. */
  lemma DeltaFramesDiffer(t: Trig, pos: Vec)
    requires Laws(t)
    ensures var delta, ee := AxisAngleToRot(t, E1), Pose(QUARTER, pos);
      && RotationOf(t, RotVec, Columns(VEC_SPEC, VEC_ROW)) == Ok(delta)
      && RotationOf(t, SixD, Columns(SIX_SPEC, SixRow(delta))) == Ok(delta)
      && Goal(t, ee, VEC_SPEC, VEC_ROW) != Goal(t, ee, SIX_SPEC, SixRow(delta))
    ensures Rigid(Pose(QUARTER, pos))
  {
    hide Laws, Rotation, AxisAngleToRot, Mul, Goal, RotationOf, Columns, SixRow, LinkRot;
    QuarterRotation();
    TiltAndQuarter(t);
    FramesDifferAt(t, Pose(QUARTER, pos), AxisAngleToRot(t, E1));
  }
}
