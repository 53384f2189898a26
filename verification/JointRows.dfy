/** schema/apply.py: what joint rows and the gripper column mean. */
module JointRows {
  import opened Numeric
  import opened Outcomes
  import opened Linear
  import opened AxisAngle
  import opened Kinematics
  import opened InverseKinematics
  import opened ActionSpace

  predicate JointKind(spec: Spec) { spec.kind.JointAbsolute? || spec.kind.JointDelta? }

  /** A joint row raises exactly where numpy can neither take seven numbers from it nor repeat a single one. */
  lemma JointRowReadIff(t: Trig, tool: Pose, solve: Solver, spec: Spec, row: seq<real>, q: Joints)
    requires Laws(t) && JointKind(spec)
    ensures JointsFor(t, tool, solve, spec, row, q).Ok? <==> |row| >= 7 || |row| == 1
  {
    hide Laws;
  }

  /** An absolute row asks for its own first seven numbers, or its single one for every joint, wherever the robot is. */
  lemma AbsoluteRow(t: Trig, tool: Pose, solve: Solver, spec: Spec, row: seq<real>, q: Joints)
    requires Laws(t) && spec.kind.JointAbsolute? && (|row| >= 7 || |row| == 1)
    ensures var r := JointsFor(t, tool, solve, spec, row, q);
      r.Ok? && |r.value| == 7 && forall i | 0 <= i < 7 :: r.value[i] == if |row| == 1 then row[0] else row[i]
  {
    hide Laws;
  }

  /** A delta row moves every joint by its own number times the scale. */
  lemma DeltaRow(t: Trig, tool: Pose, solve: Solver, spec: Spec, row: seq<real>, q: Joints)
    requires Laws(t) && spec.kind.JointDelta? && (|row| >= 7 || |row| == 1)
    ensures var r := JointsFor(t, tool, solve, spec, row, q);
      r.Ok? && |r.value| == 7 && forall i | 0 <= i < 7 ::
        r.value[i] - q[i] == (if |row| == 1 then row[0] else row[i]) * spec.jointScale
  {
    hide Laws;
  }

  /** A row of zeros moves nothing. */
  lemma ZeroDeltaRow(t: Trig, tool: Pose, solve: Solver, spec: Spec, row: seq<real>, q: Joints)
    requires Laws(t) && spec.kind.JointDelta? && |row| >= 7 && forall i | 0 <= i < 7 :: row[i] == 0.0
    ensures JointsFor(t, tool, solve, spec, row, q) == Ok(q)
  {
    DeltaRow(t, tool, solve, spec, row, q);
    hide JointsFor;
    var r := JointsFor(t, tool, solve, spec, row, q).value;
    forall i | 0 <= i < 7 ensures r[i] == q[i] { }
    assert r == q;
  }

  /** One number moves one joint. */
  lemma SingleDeltaRow(t: Trig, tool: Pose, solve: Solver, spec: Spec, row: seq<real>, q: Joints, i: nat)
    requires Laws(t) && spec.kind.JointDelta? && |row| >= 7 && i < 7
    requires forall k | 0 <= k < 7 && k != i :: row[k] == 0.0
    ensures JointsFor(t, tool, solve, spec, row, q) == Ok(q[i := q[i] + row[i] * spec.jointScale])
  {
    DeltaRow(t, tool, solve, spec, row, q);
    hide JointsFor;
    var r, want := JointsFor(t, tool, solve, spec, row, q).value, q[i := q[i] + row[i] * spec.jointScale];
    forall k | 0 <= k < 7 ensures r[k] == want[k] { }
    assert r == want;
  }

  function Sum(a: seq<real>, b: seq<real>): (r: seq<real>)
    requires |a| == |b|
    ensures |r| == |a| && forall i | 0 <= i < |a| :: r[i] == a[i] + b[i]
  {
    seq(|a|, i requires 0 <= i < |a| && |a| == |b| => a[i] + b[i])
  }

  /** One delta after another, from where the first one leads, is their sum. */
  lemma DeltaRowsAdd(t: Trig, tool: Pose, solve: Solver, spec: Spec, a: seq<real>, b: seq<real>, q: Joints)
    requires Laws(t) && spec.kind.JointDelta? && |a| == |b| == 7
    ensures var first := JointsFor(t, tool, solve, spec, a, q);
      && first.Ok? && |first.value| == 7
      && JointsFor(t, tool, solve, spec, b, first.value) == JointsFor(t, tool, solve, spec, Sum(a, b), q)
  {
    DeltaRow(t, tool, solve, spec, a, q);
    var mid: Joints := JointsFor(t, tool, solve, spec, a, q).value;
    DeltaRow(t, tool, solve, spec, b, mid);
    DeltaRow(t, tool, solve, spec, Sum(a, b), q);
    hide JointsFor;
    var x := JointsFor(t, tool, solve, spec, b, mid).value;
    var y := JointsFor(t, tool, solve, spec, Sum(a, b), q).value;
    forall i | 0 <= i < 7 ensures x[i] == y[i] {
      Distribute(a[i] + b[i], a[i], b[i], spec.jointScale);
    }
    assert x == y;
  }

  // ------------------------------------------------------------ the gripper column

  lemma GripperScale(signed: bool, v: real, w: real)
    requires v <= w
    ensures 0.0 <= GripperTo01(v, signed) <= GripperTo01(w, signed) <= 1.0
    ensures signed ==> GripperTo01(-1.0, true) == 0.0 && GripperTo01(0.0, true) == 0.5 && GripperTo01(1.0, true) == 1.0
    ensures signed && -1.0 <= v <= w <= 1.0 ==> GripperTo01(w, true) - GripperTo01(v, true) == (w - v) / 2.0
    ensures !signed && 0.0 <= v <= 1.0 ==> GripperTo01(v, false) == v
  {
  }

  /** The opening comes from the last column of the format, and is missing exactly where the row has none there. */
  lemma GripperColumn(spec: Spec, row: seq<real>)
    ensures !spec.hasGripper ==> GripperOf(spec, row) == Some(0.0)
    ensures spec.hasGripper && 1 <= spec.dim <= |row| ==>
      GripperOf(spec, row) == Some(GripperTo01(row[spec.dim - 1], spec.signedGripper))
    ensures spec.hasGripper && spec.dim == 0 && row != [] ==>
      GripperOf(spec, row) == Some(GripperTo01(row[|row| - 1], spec.signedGripper))
    ensures GripperOf(spec, row).None? <==> spec.hasGripper && (spec.dim > |row| || row == [])
  {
  }

  /** The end-effector step opens the gripper as the signed convention does. */
  lemma EeGripper(v: real)
    ensures GripperOpening(v) == GripperTo01(v, true)
  {
  }
}
