/**
 * What the robot is told to track, over any history: the value of the last writer of its target, and enough servo
 * ticks later the command is there.
 */
module RuntimeTargets {
  import opened Numeric
  import opened ReferenceFilter
  import opened FilterContainment
  import opened FilterNoOvershoot
  import opened FilterSettles
  import opened Limits
  import opened Runtime
  import Smoothing

  // ------------------------------------------------------------ who writes, and what

  predicate NoFault(es: seq<Event>, k: nat) { forall j | 0 <= j < k && j < |es| :: !es[j].Fault? }

  predicate NoHalt(es: seq<Event>, k: nat) { forall j | 0 <= j < k && j < |es| :: !es[j].Halt? }

  /** A policy tick writes the target; so does a stop that finds the control loop alive. */
  predicate Writes(es: seq<Event>, k: nat) {
    k < |es| && (es[k].PolicyTick? || (es[k].Stop? && NoFault(es, k)))
  }

  ghost predicate LastWriter(es: seq<Event>, k: nat) {
    Writes(es, k) && forall j: nat | k < j :: !Writes(es, j)
  }

  /** A servo tick reads the joints while the loop runs. */
  predicate Reads(es: seq<Event>, k: nat) {
    k < |es| && es[k].ServoTick? && NoFault(es, k) && NoHalt(es, k)
  }

  ghost predicate LastReader(es: seq<Event>, k: nat) {
    Reads(es, k) && forall j: nat | k < j :: !Reads(es, j)
  }

  /** x is the angle of joint i read last, or q[i] if none was. */
  ghost predicate IsMeasured(x: real, q: seq<real>, es: seq<Event>, i: nat)
    requires |q| == N_JOINTS && AllShaped(es) && i < N_JOINTS
  {
    && ((forall k: nat :: !Reads(es, k)) ==> x == q[i])
    && (forall k: nat | LastReader(es, k) :: x == es[k].meas[i])
  }

  /** The angles that the rows of the policy ticks give joint i. */
  function Rows(es: seq<Event>, i: nat): seq<real>
    requires i < N_JOINTS
  {
    if es == [] then []
    else
      var init, e := Rows(es[..|es| - 1], i), es[|es| - 1];
      if e.PolicyTick? && |e.row| == N_JOINTS then init + [e.row[i]] else init
  }

  predicate Nearer(x: real, y: real, to: real) { Abs(x - to) <= Abs(y - to) }

  /** The joint limits of the FR3, 0.05 inside. */
  function Lowest(i: nat): real
    requires i < N_JOINTS
  {
    [-2.7437, -1.7837, -2.9007, -3.0421, -2.8065, 0.5445, -3.0159][i] + 0.05
  }

  function Highest(i: nat): real
    requires i < N_JOINTS
  {
    [2.7437, 1.7837, 2.9007, -0.1518, 2.8065, 4.5169, 3.0159][i] - 0.05
  }

  /** The angle inside the safe limits and within a step of the measured joint that is nearest to the smoothed one. */
  ghost predicate IsSafeAngle(x: real, meas: real, smoothed: real, maxStep: real, i: nat)
    requires i < N_JOINTS
  {
    && Lowest(i) <= x <= Highest(i)
    && (forall y | Admissible(y, meas, maxStep, Lowest(i), Highest(i)) ::
          Admissible(x, meas, maxStep, Lowest(i), Highest(i)) && Nearer(x, y, smoothed))
    && ((forall y :: !Admissible(y, meas, maxStep, Lowest(i), Highest(i))) ==>
          forall y | Lowest(i) <= y <= Highest(i) :: Nearer(x, y, meas))
  }

  /** x is what the last writer of joint i's target wrote: the latched angle, a policy tick's or a stop's. */
  ghost predicate IsLastWritten(c: Settings, x: real, q: seq<real>, qD: seq<real>, ema: seq<real>, es: seq<Event>,
                                i: nat)
    requires |q| == |qD| == |ema| == N_JOINTS && AllShaped(es) && i < N_JOINTS
  {
    && ((forall k: nat :: !Writes(es, k)) ==> x == qD[i])
    && (forall k: nat | LastWriter(es, k) && es[k].PolicyTick? ::
          IsSafeAngle(x, es[k].meas[i], Smoothing.BlendRun(c.alpha, ema[i], Rows(es[..k + 1], i)), c.maxStep, i))
    && (forall k: nat | LastWriter(es, k) && es[k].Stop? :: IsMeasured(x, q, es[..k], i))
  }

  // ------------------------------------------------------------ one more event

  lemma Prefix(es: seq<Event>, k: nat)
    requires es != [] && k < |es| - 1
    ensures var init := es[..|es| - 1];
      && Writes(init, k) == Writes(es, k) && Reads(init, k) == Reads(es, k)
      && init[..k] == es[..k] && init[..k + 1] == es[..k + 1] && init[k] == es[k]
  {
  }

  lemma LimitsAre(i: nat)
    requires i < N_JOINTS
    ensures Lower(i) == Lowest(i) && Upper(i) == Highest(i)
  {
  }

  lemma SafeTargetIsSafe(meas: seq<real>, smoothed: seq<real>, maxStep: real, i: nat)
    requires |meas| == |smoothed| == N_JOINTS && maxStep >= 0.0 && i < N_JOINTS
    ensures IsSafeAngle(SafeTarget(meas, smoothed, maxStep)[i], meas[i], smoothed[i], maxStep, i)
  {
    LimitsAre(i);
    SafeTargetBounds(meas, smoothed, maxStep, i);
    LimitsOrdered(i);
    hide SafeTarget, Admissible, Lowest, Highest, Lower, Upper;
  }

  /** An event that does not read leaves what was measured. */
  lemma MeasuredStays(x: real, q: seq<real>, es: seq<Event>, i: nat)
    requires |q| == N_JOINTS && AllShaped(es) && es != [] && i < N_JOINTS && !Reads(es, |es| - 1)
    requires IsMeasured(x, q, es[..|es| - 1], i)
    ensures IsMeasured(x, q, es, i)
  {
    var n, init := |es| - 1, es[..|es| - 1];
    forall k: nat ensures Reads(es, k) == Reads(init, k) {
      if k < n { Prefix(es, k); }
    }
    hide Reads;
    forall k: nat | LastReader(es, k) ensures x == es[k].meas[i] {
      assert LastReader(init, k);
    }
  }

  lemma MeasuredNow(q: seq<real>, es: seq<Event>, i: nat)
    requires |q| == N_JOINTS && AllShaped(es) && es != [] && i < N_JOINTS && Reads(es, |es| - 1)
    ensures IsMeasured(es[|es| - 1].meas[i], q, es, i)
  {
    forall k: nat | LastReader(es, k) ensures k == |es| - 1 {
      assert Reads(es, |es| - 1);
    }
  }

  lemma WrittenStays(c: Settings, x: real, q: seq<real>, qD: seq<real>, ema: seq<real>, es: seq<Event>, i: nat)
    requires |q| == |qD| == |ema| == N_JOINTS && AllShaped(es) && es != [] && i < N_JOINTS && !Writes(es, |es| - 1)
    requires IsLastWritten(c, x, q, qD, ema, es[..|es| - 1], i)
    ensures IsLastWritten(c, x, q, qD, ema, es, i)
  {
    var n, init := |es| - 1, es[..|es| - 1];
    forall k: nat ensures Writes(es, k) == Writes(init, k) {
      if k < n { Prefix(es, k); }
    }
    hide Writes, IsSafeAngle, IsMeasured, Rows;
    forall k: nat | LastWriter(es, k)
      ensures LastWriter(init, k) && k < n && init[k] == es[k] && init[..k] == es[..k] && init[..k + 1] == es[..k + 1]
    {
      assert LastWriter(init, k);
      WriterExists(init, k);
      Prefix(es, k);
    }
  }

  lemma WriterExists(es: seq<Event>, k: nat)
    requires Writes(es, k)
    ensures k < |es|
  {
  }

  lemma LastIsNow(es: seq<Event>, k: nat)
    requires es != [] && Writes(es, |es| - 1) && LastWriter(es, k)
    ensures k == |es| - 1
  {
    WriterExists(es, k);
    hide Writes;
  }

  lemma WrittenByPolicy(c: Settings, q: seq<real>, qD: seq<real>, ema: seq<real>, es: seq<Event>, i: nat, x: real)
    requires |q| == |qD| == |ema| == N_JOINTS && AllShaped(es) && es != [] && i < N_JOINTS && es[|es| - 1].PolicyTick?
    requires IsSafeAngle(x, es[|es| - 1].meas[i], Smoothing.BlendRun(c.alpha, ema[i], Rows(es, i)), c.maxStep, i)
    ensures IsLastWritten(c, x, q, qD, ema, es, i)
  {
    assert Writes(es, |es| - 1);
    assert es[..|es|] == es;
    hide IsSafeAngle, Rows, IsMeasured;
    forall k: nat | LastWriter(es, k) ensures k == |es| - 1 { LastIsNow(es, k); }
  }

  lemma WrittenByStop(c: Settings, q: seq<real>, qD: seq<real>, ema: seq<real>, es: seq<Event>, i: nat, x: real)
    requires |q| == |qD| == |ema| == N_JOINTS && AllShaped(es) && es != [] && i < N_JOINTS && es[|es| - 1].Stop?
    requires Writes(es, |es| - 1) && IsMeasured(x, q, es[..|es| - 1], i)
    ensures IsLastWritten(c, x, q, qD, ema, es, i)
  {
    hide IsSafeAngle, Rows, IsMeasured, Writes;
    forall k: nat | LastWriter(es, k) ensures k == |es| - 1 { LastIsNow(es, k); }
  }

  // ------------------------------------------------------------ over any history

  /** A robot that can move, latched to qD with the joints at q. */
  ghost predicate Startable(r: Robot, q: seq<real>, qD: seq<real>) {
    r.Shaped() && |q| == |qD| == N_JOINTS && r.Live() && !Gapped(q, qD)
  }

  function After(c: Settings, r: Robot, q: seq<real>, qD: seq<real>, ema: seq<real>, es: seq<Event>): (s: System)
    requires c.p.dt > 0.0 && r.Shaped() && |q| == |qD| == |ema| == N_JOINTS && AllShaped(es)
    ensures s.Shaped()
  {
    RunSystem(c, System(Latch(r, q, qD), ema), es)
  }

  /** The control loop is alive exactly while no fault happened, and runs while it was not told to end either. */
  lemma {:induction false} AliveIff(c: Settings, r: Robot, q: seq<real>, qD: seq<real>, ema: seq<real>,
                                    es: seq<Event>)
    requires c.p.dt > 0.0 && Startable(r, q, qD) && |ema| == N_JOINTS && AllShaped(es)
    ensures var x := After(c, r, q, qD, ema, es).robot;
      !x.readOnly && (!x.failed <==> NoFault(es, |es|)) && (!x.halted <==> NoHalt(es, |es|))
  {
    hide Gapped, StepAll, SafeTarget, Smooth;
    if es != [] {
      var init := es[..|es| - 1];
      AliveIff(c, r, q, qD, ema, init);
      assert NoFault(es, |es|) <==> NoFault(init, |init|) && !es[|init|].Fault?;
      assert NoHalt(es, |es|) <==> NoHalt(init, |init|) && !es[|init|].Halt?;
    }
  }

  /** What the state holds for joint i: the last reading, the smoothed rows, and what the last writer wrote. */
  ghost predicate Recalls(c: Settings, q: seq<real>, qD: seq<real>, ema: seq<real>, es: seq<Event>, i: nat, s: System)
    requires |q| == |qD| == |ema| == N_JOINTS && AllShaped(es) && i < N_JOINTS && s.Shaped()
  {
    && IsMeasured(s.robot.q[i], q, es, i)
    && s.ema[i] == Smoothing.BlendRun(c.alpha, ema[i], Rows(es, i))
    && IsLastWritten(c, s.robot.target[i], q, qD, ema, es, i)
  }

  lemma RowsStep(c: Settings, ema: real, es: seq<Event>, i: nat)
    requires es != [] && AllShaped(es) && i < N_JOINTS
    ensures var init, e := es[..|es| - 1], es[|es| - 1];
      var before := Smoothing.BlendRun(c.alpha, ema, Rows(init, i));
      Smoothing.BlendRun(c.alpha, ema, Rows(es, i)) ==
        if e.PolicyTick? then Smoothing.Blend(c.alpha, before, e.row[i]) else before
  {
    var init, e := es[..|es| - 1], es[|es| - 1];
    hide Smoothing.Blend;
    if e.PolicyTick? {
      var rows := Rows(es, i);
      assert rows == Rows(init, i) + [e.row[i]];
      assert rows[..|rows| - 1] == Rows(init, i);
    }
  }

  lemma RecallsStep(c: Settings, q: seq<real>, qD: seq<real>, ema: seq<real>, es: seq<Event>, i: nat, s: System)
    requires c.p.dt > 0.0 && c.maxStep >= 0.0 && |q| == |qD| == |ema| == N_JOINTS && AllShaped(es) && es != []
    requires i < N_JOINTS && s.Shaped() && Recalls(c, q, qD, ema, es[..|es| - 1], i, s)
    requires !s.robot.readOnly && (!s.robot.failed <==> NoFault(es, |es| - 1))
    requires !s.robot.halted <==> NoHalt(es, |es| - 1)
    ensures Recalls(c, q, qD, ema, es, i, Apply(c, s, es[|es| - 1]))
  {
    var e := es[|es| - 1];
    RowsStep(c, ema[i], es, i);
    hide IsSafeAngle, IsMeasured, IsLastWritten, SafeTarget, StepAll, Smoothing.BlendRun, Smoothing.Blend, Rows;
    match e
    case ServoTick(meas) =>
      WrittenStays(c, s.robot.target[i], q, qD, ema, es, i);
      if Reads(es, |es| - 1) {
        MeasuredNow(q, es, i);
      } else {
        MeasuredStays(s.robot.q[i], q, es, i);
      }
    case PolicyTick(meas, row) =>
      MeasuredStays(s.robot.q[i], q, es, i);
      var smoothed := Smooth(c.alpha, s.ema, row);
      SafeTargetIsSafe(meas, smoothed, c.maxStep, i);
      WrittenByPolicy(c, q, qD, ema, es, i, SafeTarget(meas, smoothed, c.maxStep)[i]);
    case Stop =>
      MeasuredStays(s.robot.q[i], q, es, i);
      if Writes(es, |es| - 1) {
        WrittenByStop(c, q, qD, ema, es, i, s.robot.q[i]);
      } else {
        WrittenStays(c, s.robot.target[i], q, qD, ema, es, i);
      }
    case _ =>
      MeasuredStays(s.robot.q[i], q, es, i);
      WrittenStays(c, s.robot.target[i], q, qD, ema, es, i);
  }

  lemma NothingWritten(c: Settings, q: seq<real>, qD: seq<real>, ema: seq<real>, i: nat)
    requires |q| == |qD| == |ema| == N_JOINTS && i < N_JOINTS
    ensures IsMeasured(q[i], q, [], i) && IsLastWritten(c, qD[i], q, qD, ema, [], i)
    ensures Smoothing.BlendRun(c.alpha, ema[i], Rows([], i)) == ema[i]
  {
  }

  lemma {:induction false} RunRecalls(c: Settings, r: Robot, q: seq<real>, qD: seq<real>, ema: seq<real>,
                                      es: seq<Event>, i: nat)
    requires c.p.dt > 0.0 && c.maxStep >= 0.0 && Startable(r, q, qD) && |ema| == N_JOINTS && AllShaped(es)
    requires i < N_JOINTS
    ensures Recalls(c, q, qD, ema, es, i, After(c, r, q, qD, ema, es))
  {
    if es == [] {
      NothingWritten(c, q, qD, ema, i);
      hide IsMeasured, IsLastWritten, Rows, Gapped;
    } else {
      var init := es[..|es| - 1];
      hide Recalls, Apply, Startable;
      AliveIff(c, r, q, qD, ema, init);
      RunRecalls(c, r, q, qD, ema, init, i);
      SameBefore(es);
      RecallsStep(c, q, qD, ema, es, i, After(c, r, q, qD, ema, init));
    }
  }

  lemma SameBefore(es: seq<Event>)
    requires es != []
    ensures var n, init := |es| - 1, es[..|es| - 1];
      NoFault(init, n) == NoFault(es, n) && NoHalt(init, n) == NoHalt(es, n)
  {
  }

  /**
   * Over any history after the latch, every joint's target is what its last writer wrote: the latched angle, the
   * safe angle nearest to the smoothed row of the last policy tick, or the angle last measured before a stop that
   * found the loop alive.
   */
  lemma TargetIsLastWritten(c: Settings, r: Robot, q: seq<real>, qD: seq<real>, ema: seq<real>, es: seq<Event>, i: nat)
    requires c.p.dt > 0.0 && c.maxStep >= 0.0 && Startable(r, q, qD) && |ema| == N_JOINTS && AllShaped(es)
    requires i < N_JOINTS
    ensures IsLastWritten(c, After(c, r, q, qD, ema, es).robot.target[i], q, qD, ema, es, i)
  {
    RunRecalls(c, r, q, qD, ema, es, i);
    hide IsLastWritten, IsMeasured, After;
  }

  /** The control loop refuses to start exactly when some desired joint is more than 0.05 from the measured one. */
  lemma StartFailsIff(r: Robot, q: seq<real>, qD: seq<real>)
    requires r.Shaped() && r.Live() && |q| == |qD| == N_JOINTS
    ensures Latch(r, q, qD).failed <==> exists i | 0 <= i < N_JOINTS :: qD[i] - q[i] > 0.05 || q[i] - qD[i] > 0.05
    ensures !Latch(r, q, qD).failed ==>
      forall i: nat | i < N_JOINTS :: Command(Latch(r, q, qD), i) == qD[i] && Latch(r, q, qD).joints[i].v == 0.0
  {
  }

  /** A read-only robot takes no target and moves no joint, whatever happens. */
  lemma {:induction false} ReadOnlyNeverMoves(c: Settings, s: System, es: seq<Event>)
    requires c.p.dt > 0.0 && s.Shaped() && AllShaped(es) && s.robot.readOnly
    ensures var x := RunSystem(c, s, es).robot;
      x.readOnly && x.target == s.robot.target && x.joints == s.robot.joints
  {
    hide StepAll, SafeTarget, Smooth;
    if es != [] {
      ReadOnlyNeverMoves(c, s, es[..|es| - 1]);
    }
  }

  /** But it keeps reading the joints. */
  lemma {:induction false} ReadOnlyReads(c: Settings, s: System, es: seq<Event>, i: nat)
    requires c.p.dt > 0.0 && s.Shaped() && AllShaped(es) && s.robot.readOnly && !s.robot.failed && !s.robot.halted
    requires i < N_JOINTS
    ensures var x := RunSystem(c, s, es).robot;
      && IsMeasured(x.q[i], s.robot.q, es, i)
      && x.readOnly && (!x.failed <==> NoFault(es, |es|)) && (!x.halted <==> NoHalt(es, |es|))
  {
    hide IsMeasured, StepAll, SafeTarget, Smooth;
    if es == [] {
      NothingRead(s.robot.q, i);
    } else {
      var n, init := |es| - 1, es[..|es| - 1];
      ReadOnlyReads(c, s, init, i);
      SameBefore(es);
      assert NoFault(es, |es|) <==> NoFault(es, n) && !es[n].Fault?;
      assert NoHalt(es, |es|) <==> NoHalt(es, n) && !es[n].Halt?;
      if Reads(es, n) {
        MeasuredNow(s.robot.q, es, i);
      } else {
        MeasuredStays(RunSystem(c, s, init).robot.q[i], s.robot.q, es, i);
      }
    }
  }

  lemma NothingRead(q: seq<real>, i: nat)
    requires |q| == N_JOINTS && i < N_JOINTS
    ensures IsMeasured(q[i], q, [], i)
  {
  }

  // ------------------------------------------------------------ and then it goes there

  ghost predicate AllBounded(p: Params, r: Robot) {
    r.Shaped() && forall i | 0 <= i < N_JOINTS :: Bounded(p, r.joints[i])
  }

  lemma ApplyBounded(c: Settings, s: System, e: Event)
    requires c.p.Positive() && s.Shaped() && e.Shaped() && AllBounded(c.p, s.robot)
    ensures AllBounded(c.p, Apply(c, s, e).robot)
  {
    hide Bounded, StepJoint, SafeTarget, Smooth;
    forall i | 0 <= i < N_JOINTS ensures Bounded(c.p, Apply(c, s, e).robot.joints[i]) {
      assert Bounded(c.p, s.robot.joints[i]);
      StepBounded(c.p, s.robot.joints[i], s.robot.target[i]);
    }
  }

  lemma {:induction false} RunBounded(c: Settings, s: System, es: seq<Event>)
    requires c.p.Positive() && s.Shaped() && AllShaped(es) && AllBounded(c.p, s.robot)
    ensures AllBounded(c.p, RunSystem(c, s, es).robot)
  {
    hide AllBounded, Apply;
    if es != [] {
      RunBounded(c, s, es[..|es| - 1]);
      ApplyBounded(c, RunSystem(c, s, es[..|es| - 1]), es[|es| - 1]);
    }
  }

  predicate AllServo(es: seq<Event>) { forall k | 0 <= k < |es| :: es[k].ServoTick? }

  /** Servo ticks alone hold every joint at its target. */
  lemma {:induction false} TicksHold(c: Settings, s: System, ticks: seq<Event>, i: nat)
    requires c.p.dt > 0.0 && s.Shaped() && AllShaped(ticks) && AllServo(ticks) && s.robot.Live() && i < N_JOINTS
    ensures var x := RunSystem(c, s, ticks).robot;
      && x.Live() && x.target == s.robot.target
      && x.joints[i] == Hold(c.p, s.robot.joints[i], s.robot.target[i], |ticks|)
  {
    hide StepJoint;
    if ticks != [] {
      TicksHold(c, s, ticks[..|ticks| - 1], i);
    }
  }

  lemma {:induction false} RunAppends(c: Settings, s: System, es: seq<Event>, more: seq<Event>)
    requires c.p.dt > 0.0 && s.Shaped() && AllShaped(es) && AllShaped(more)
    ensures AllShaped(es + more) && RunSystem(c, s, es + more) == RunSystem(c, RunSystem(c, s, es), more)
  {
    hide Apply;
    if more == [] {
      assert es + more == es;
    } else {
      RunAppends(c, s, es, more[..|more| - 1]);
      assert (es + more)[..|es + more| - 1] == es + more[..|more| - 1];
    }
  }

  /**
   * After any history that leaves the loop running, however fast the joints are moving: enough further servo ticks
   * bring the command of every joint within any distance of its target.
   */
  lemma CommandReachesTarget(c: Settings, n: nat, r: Robot, q: seq<real>, qD: seq<real>, ema: seq<real>,
                             es: seq<Event>, i: nat, eps: real) returns (settled: nat)
    requires Tuned(c.p, n) && c.p.dt > 0.0 && Startable(r, q, qD) && |ema| == N_JOINTS && AllShaped(es)
    requires i < N_JOINTS && eps > 0.0 && NoFault(es, |es|) && NoHalt(es, |es|)
    ensures forall ticks: seq<Event> | AllShaped(ticks) && AllServo(ticks) && |ticks| >= settled ::
      var target := After(c, r, q, qD, ema, es).robot.target[i];
      && AllShaped(es + ticks) && After(c, r, q, qD, ema, es + ticks).robot.target[i] == target
      && Abs(Command(After(c, r, q, qD, ema, es + ticks).robot, i) - target) < eps
  {
    TunedPositive(c.p, n);
    AliveIff(c, r, q, qD, ema, es);
    LatchBounded(c.p, r, q, qD);
    hide Tuned, Latch, Startable, AllBounded, Gapped, Bounded, RunSystem, Settles;
    RunBounded(c, System(Latch(r, q, qD), ema), es);
    var s := After(c, r, q, qD, ema, es);
    var joint, target := s.robot.joints[i], s.robot.target[i];
    BoundedAt(c.p, s.robot, i);
    SettlesFromAnywhere(c.p, n, joint, target, eps);
    settled := SettledTick(c.p, joint, target, eps);
    forall ticks: seq<Event> | AllShaped(ticks) && AllServo(ticks) && |ticks| >= settled
      ensures AllShaped(es + ticks) && After(c, r, q, qD, ema, es + ticks).robot.target[i] == target
      ensures Abs(Command(After(c, r, q, qD, ema, es + ticks).robot, i) - target) < eps
    {
      hide SettledFrom, Hold;
      RunAppends(c, System(Latch(r, q, qD), ema), es, ticks);
      TicksHold(c, s, ticks, i);
      SettledAt(c.p, joint, target, eps, settled, |ticks|);
    }
  }

  lemma LatchBounded(p: Params, r: Robot, q: seq<real>, qD: seq<real>)
    requires p.Positive() && Startable(r, q, qD)
    ensures AllBounded(p, Latch(r, q, qD))
  {
    hide Gapped;
  }

  lemma BoundedAt(p: Params, r: Robot, i: nat)
    requires AllBounded(p, r) && i < N_JOINTS
    ensures r.Shaped() && Bounded(p, r.joints[i])
  {
  }

  lemma SettledTick(p: Params, s: Joint, t: real, eps: real) returns (settled: nat)
    requires p.dt > 0.0 && Settles(p, s, t, eps)
    ensures SettledFrom(p, s, t, eps, settled)
  {
    settled :| SettledFrom(p, s, t, eps, settled);
  }

  lemma SettledAt(p: Params, s: Joint, t: real, eps: real, settled: nat, k: nat)
    requires p.dt > 0.0 && SettledFrom(p, s, t, eps, settled) && k >= settled
    ensures Abs(Hold(p, s, t, k).q - t) < eps
  {
  }
}
