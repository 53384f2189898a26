/**
 * robot/fr3_runtime.py and the target pipeline of control_loop.py as one two-rate system.
 *
 * The 1 kHz servo ticks, the policy ticks, stop and faults interleave in any order.  A policy tick
 * carries the joints it measured and the row it got, both arbitrary.
 */
module Runtime {
  import opened Numeric
  import opened ReferenceFilter
  import opened FilterContainment
  import opened Limits
  import Smoothing

  datatype Robot = Robot(readOnly: bool, failed: bool, halted: bool,
                         q: seq<real>, target: seq<real>, joints: seq<Joint>) {
    ghost predicate Shaped() { |q| == |target| == |joints| == N_JOINTS }

    /** The control loop is running and writes commands. */
    predicate Live() { !readOnly && !failed && !halted }
  }

  const MAX_GAP := 0.05

  predicate Gapped(q: seq<real>, qD: seq<real>)
    requires |q| == |qD| == N_JOINTS
  {
    exists i | 0 <= i < N_JOINTS :: Abs(qD[i] - q[i]) > MAX_GAP
  }

  function RestAt(q: seq<real>): seq<Joint> {
    seq(|q|, i requires 0 <= i < |q| => Rest(q[i]))
  }

  /** The control loop latches to the desired pose, unless that is stale. */
  function Latch(r: Robot, q: seq<real>, qD: seq<real>): (r': Robot)
    requires r.Shaped() && |q| == |qD| == N_JOINTS
    ensures r'.Shaped()
  {
    if Gapped(q, qD) then r.(q := q, failed := true)
    else r.(q := q, target := qD, joints := RestAt(qD))
  }

  function AcceptTarget(r: Robot, q: seq<real>): Robot {
    if r.readOnly then r else r.(target := q)
  }

  function StepAll(p: Params, joints: seq<Joint>, target: seq<real>): (r: seq<Joint>)
    requires p.dt > 0.0 && |joints| == |target|
    ensures |r| == |joints|
  {
    seq(|joints|, i requires 0 <= i < |joints| && |joints| == |target| && p.dt > 0.0 =>
      StepJoint(p, joints[i], target[i]))
  }

  /** One tick of the control loop, or of the read-only loop. */
  function Servo(p: Params, r: Robot, meas: seq<real>): (r': Robot)
    requires p.dt > 0.0 && r.Shaped() && |meas| == N_JOINTS
    ensures r'.Shaped()
  {
    if r.failed || r.halted then r
    else if r.readOnly then r.(q := meas)
    else r.(q := meas, joints := StepAll(p, r.joints, r.target))
  }

  /** stop() freezes the target at the measured pose while the control loop is alive. */
  function Freeze(r: Robot): (r': Robot)
    requires r.Shaped()
    ensures r'.Shaped()
  {
    if !r.readOnly && !r.failed then r.(target := r.q) else r
  }

  /** The command the control loop writes for joint i. */
  function Command(r: Robot, i: nat): real
    requires r.Shaped() && i < N_JOINTS
  {
    r.joints[i].q
  }

  // ------------------------------------------------------------ the two-rate system

  datatype System = System(robot: Robot, ema: seq<real>) {
    ghost predicate Shaped() { robot.Shaped() && |ema| == N_JOINTS }
  }

  datatype Settings = Settings(p: Params, alpha: real, maxStep: real)

  datatype Event =
    | ServoTick(meas: seq<real>)
    | PolicyTick(meas: seq<real>, row: seq<real>)
    | Stop
    | Fault
    | Halt
  {
    ghost predicate Shaped() {
      match this
      case ServoTick(meas) => |meas| == N_JOINTS
      case PolicyTick(meas, row) => |meas| == |row| == N_JOINTS
      case _ => true
    }
  }

  function Smooth(alpha: real, ema: seq<real>, row: seq<real>): (r: seq<real>)
    requires |ema| == |row|
    ensures |r| == |ema|
  {
    seq(|ema|, i requires 0 <= i < |ema| && |ema| == |row| => Smoothing.Blend(alpha, ema[i], row[i]))
  }

  function Apply(c: Settings, s: System, e: Event): (s': System)
    requires c.p.dt > 0.0 && s.Shaped() && e.Shaped()
    ensures s'.Shaped()
  {
    match e
    case ServoTick(meas) => s.(robot := Servo(c.p, s.robot, meas))
    case PolicyTick(meas, row) =>
      var ema := Smooth(c.alpha, s.ema, row);
      System(AcceptTarget(s.robot, SafeTarget(meas, ema, c.maxStep)), ema)
    case Stop => s.(robot := Freeze(s.robot))
    case Fault => s.(robot := s.robot.(failed := true))
    case Halt => s.(robot := s.robot.(halted := true))
  }

  ghost predicate AllShaped(es: seq<Event>) {
    forall i | 0 <= i < |es| :: es[i].Shaped()
  }

  function RunSystem(c: Settings, s: System, es: seq<Event>): (s': System)
    requires c.p.dt > 0.0 && s.Shaped() && AllShaped(es)
    ensures s'.Shaped()
  {
    if es == [] then s
    else Apply(c, RunSystem(c, s, es[..|es| - 1]), es[|es| - 1])
  }

  // ------------------------------------------------------------ containment end to end

  ghost predicate InBox(q: seq<real>, lo: seq<real>, hi: seq<real>) {
    |q| == |lo| == |hi| == N_JOINTS && forall i | 0 <= i < N_JOINTS :: lo[i] <= q[i] <= hi[i]
  }

  /** The box holds every target the clip to the joint limits lets through. */
  ghost predicate Roomy(lo: seq<real>, hi: seq<real>) {
    |lo| == |hi| == N_JOINTS && forall i: nat | i < N_JOINTS :: lo[i] <= Lower(i) && Upper(i) <= hi[i]
  }

  /** Whenever stop freezes the target, the measured pose is in the box. */
  ghost predicate FreezesInBox(c: Settings, s: System, es: seq<Event>, lo: seq<real>, hi: seq<real>)
    requires c.p.dt > 0.0 && s.Shaped() && AllShaped(es)
  {
    forall k | 0 <= k < |es| && es[k].Stop? :: InBox(RunSystem(c, s, es[..k]).robot.q, lo, hi)
  }

  ghost predicate Contained(p: Params, n: nat, lo: seq<real>, hi: seq<real>, r: Robot) {
    && InBox(r.target, lo, hi)
    && |r.joints| == N_JOINTS
    && forall i | 0 <= i < N_JOINTS :: Inside(p, n, lo[i], hi[i], r.joints[i])
  }

  lemma SafeTargetInBox(meas: seq<real>, ema: seq<real>, maxStep: real, lo: seq<real>, hi: seq<real>)
    requires |meas| == |ema| == N_JOINTS && Roomy(lo, hi)
    ensures InBox(SafeTarget(meas, ema, maxStep), lo, hi)
  {
    forall i: nat | i < N_JOINTS ensures lo[i] <= SafeTarget(meas, ema, maxStep)[i] <= hi[i] {
      LimitsOrdered(i);
      assert Lower(i) <= SafeTarget(meas, ema, maxStep)[i] <= Upper(i);
    }
  }

  lemma StepAllContained(p: Params, n: nat, lo: seq<real>, hi: seq<real>, r: Robot)
    requires Tuned(p, n) && Contained(p, n, lo, hi, r)
    ensures p.dt > 0.0
    ensures forall i | 0 <= i < N_JOINTS :: Inside(p, n, lo[i], hi[i], StepAll(p, r.joints, r.target)[i])
  {
    TunedPositive(p, n);
    hide Inside, Tuned, StepJoint;
    forall i | 0 <= i < N_JOINTS ensures Inside(p, n, lo[i], hi[i], StepAll(p, r.joints, r.target)[i]) {
      InsideStays(p, n, lo[i], hi[i], r.joints[i], r.target[i]);
    }
  }

  lemma ApplyContained(c: Settings, n: nat, lo: seq<real>, hi: seq<real>, s: System, e: Event)
    requires Tuned(c.p, n) && Roomy(lo, hi) && s.Shaped() && e.Shaped() && Contained(c.p, n, lo, hi, s.robot)
    requires e.Stop? ==> InBox(s.robot.q, lo, hi)
    ensures c.p.dt > 0.0 && Contained(c.p, n, lo, hi, Apply(c, s, e).robot)
  {
    StepAllContained(c.p, n, lo, hi, s.robot);
    hide Inside, Tuned, SafeTarget, StepAll;
    if e.PolicyTick? {
      SafeTargetInBox(e.meas, Smooth(c.alpha, s.ema, e.row), c.maxStep, lo, hi);
    }
  }

  lemma {:induction false} RunContained(c: Settings, n: nat, lo: seq<real>, hi: seq<real>, s: System, es: seq<Event>)
    requires Tuned(c.p, n) && c.p.dt > 0.0 && Roomy(lo, hi) && s.Shaped() && AllShaped(es)
    requires Contained(c.p, n, lo, hi, s.robot) && FreezesInBox(c, s, es, lo, hi)
    ensures Contained(c.p, n, lo, hi, RunSystem(c, s, es).robot)
  {
    hide Contained, Tuned, Apply;
    if es != [] {
      var init, e := es[..|es| - 1], es[|es| - 1];
      assert FreezesInBox(c, s, init, lo, hi) by {
        forall k | 0 <= k < |init| && init[k].Stop? ensures InBox(RunSystem(c, s, init[..k]).robot.q, lo, hi) {
          assert init[..k] == es[..k];
        }
      }
      RunContained(c, n, lo, hi, s, init);
      ApplyContained(c, n, lo, hi, RunSystem(c, s, init), e);
    }
  }

  lemma LatchContained(p: Params, n: nat, lo: seq<real>, hi: seq<real>, r: Robot, q: seq<real>, qD: seq<real>)
    requires p.Positive() && r.Shaped() && |q| == N_JOINTS && InBox(qD, lo, hi) && !Gapped(q, qD)
    ensures Contained(p, n, lo, hi, Latch(r, q, qD))
  {
    hide Inside, Gapped;
    forall i | 0 <= i < N_JOINTS ensures Inside(p, n, lo[i], hi[i], RestAt(qD)[i]) {
      RestIsInside(p, n, lo[i], hi[i], qD[i]);
    }
  }

  /**
   * Whatever rows the policy returns, and however policy ticks, servo ticks, stops and faults
   * interleave, every command stays in any box that holds the clipped limits, the pose latched at
   * the start and the poses stop froze.
   */
  lemma CommandsContained(c: Settings, n: nat, lo: seq<real>, hi: seq<real>, r: Robot, q: seq<real>, qD: seq<real>,
                          ema: seq<real>, es: seq<Event>, i: nat)
    requires Tuned(c.p, n) && c.p.dt > 0.0 && Roomy(lo, hi) && r.Shaped() && |q| == |ema| == N_JOINTS
    requires InBox(qD, lo, hi) && !Gapped(q, qD) && AllShaped(es) && i < N_JOINTS
    requires FreezesInBox(c, System(Latch(r, q, qD), ema), es, lo, hi)
    ensures lo[i] <= Command(RunSystem(c, System(Latch(r, q, qD), ema), es).robot, i) <= hi[i]
  {
    TunedPositive(c.p, n);
    hide Tuned, Latch, RunSystem;
    LatchContained(c.p, n, lo, hi, r, q, qD);
    RunContained(c, n, lo, hi, System(Latch(r, q, qD), ema), es);
  }

  /** The shipped filter keeps the robot inside the FR3 joint limits. */
  lemma ShippedStaysInJointLimits(alpha: real, maxStep: real, r: Robot, q: seq<real>, qD: seq<real>,
                                  ema: seq<real>, es: seq<Event>, i: nat)
    requires r.Shaped() && |q| == |ema| == N_JOINTS && i < N_JOINTS
    requires InBox(qD, FR3_Q_LOWER, FR3_Q_UPPER) && !Gapped(q, qD) && AllShaped(es)
    requires FreezesInBox(Settings(SHIPPED, alpha, maxStep), System(Latch(r, q, qD), ema), es,
                          FR3_Q_LOWER, FR3_Q_UPPER)
    ensures var c := Settings(Params(0.001, 1.0, 4.0, 3000.0, 10.0), alpha, maxStep);
            var lo := [-2.7437, -1.7837, -2.9007, -3.0421, -2.8065, 0.5445, -3.0159];
            var hi := [2.7437, 1.7837, 2.9007, -0.1518, 2.8065, 4.5169, 3.0159];
            lo[i] <= Command(RunSystem(c, System(Latch(r, q, qD), ema), es).robot, i) <= hi[i]
  {
    ShippedTuned();
    forall j: nat | j < N_JOINTS ensures FR3_Q_LOWER[j] <= Lower(j) && Upper(j) <= FR3_Q_UPPER[j] {
      LimitsOrdered(j);
    }
    hide Tuned, Latch, RunSystem;
    CommandsContained(Settings(SHIPPED, alpha, maxStep), 6, FR3_Q_LOWER, FR3_Q_UPPER, r, q, qD, ema, es, i);
  }

  // ------------------------------------------------------------ the runtime object

  /** FR3Runtime with the hardware abstracted: readings arrive as arguments, commands are results. */
  class FR3Runtime {
    const p: Params
    const readOnly: bool
    const filter: JerkLimitedReferenceFilter
    var failed: bool
    var halted: bool
    var q: seq<real>
    var targetQ: seq<real>

    ghost predicate Valid()
      reads this, filter
    {
      && p.dt > 0.0 && filter.Valid() && filter.nDims == N_JOINTS && |q| == |targetQ| == N_JOINTS
      && forall i | 0 <= i < N_JOINTS :: filter.joints[i] == p
    }

    ghost function Model(): (r: Robot)
      requires Valid()
      reads this, filter
      ensures r.Shaped()
    {
      Robot(readOnly, failed, halted, q, targetQ,
            seq(N_JOINTS, i requires 0 <= i < N_JOINTS && Valid() reads this, filter => filter.State(i)))
    }

    constructor (settings: Params, ro: bool, q0: seq<real>)
      requires settings.dt > 0.0 && |q0| == N_JOINTS
      ensures Valid() && p == settings && fresh(filter)
      ensures Model() == Robot(ro, false, false, q0, q0, RestAt(seq(N_JOINTS, _ => 0.0)))
    {
      p := settings;
      readOnly := ro;
      var limits := (x: real) => seq(N_JOINTS, _ => x);
      filter := new JerkLimitedReferenceFilter(settings.dt, limits(settings.vMax), limits(settings.aMax),
                                               limits(settings.jMax), settings.wn);
      failed := false;
      halted := false;
      q := q0;
      targetQ := q0;
    }

    method SetJointTarget(newTarget: seq<real>) returns (accepted: bool)
      requires Valid() && |newTarget| == N_JOINTS
      modifies this
      ensures Valid() && accepted == !readOnly
      ensures targetQ == if accepted then newTarget else old(targetQ)
      ensures Model() == AcceptTarget(old(Model()), newTarget)
    {
      accepted := !readOnly;
      if accepted {
        targetQ := newTarget;
      }
    }

    method StartControl(measured: seq<real>, desired: seq<real>)
      requires Valid() && |measured| == |desired| == N_JOINTS
      modifies this, filter
      ensures Valid() && Model() == Latch(old(Model()), measured, desired)
      ensures failed <==> old(failed) || exists i | 0 <= i < N_JOINTS :: Abs(desired[i] - measured[i]) > 0.05
    {
      q := measured;
      if Gapped(measured, desired) {
        failed := true;
      } else {
        targetQ := desired;
        filter.Reset(desired);
        assert forall i | 0 <= i < N_JOINTS :: filter.State(i) == RestAt(desired)[i];
      }
    }

    method ControlTick(measured: seq<real>) returns (cmd: seq<real>)
      requires Valid() && |measured| == N_JOINTS && Model().Live()
      modifies this, filter
      ensures Valid() && Model() == Servo(p, old(Model()), measured)
      ensures |cmd| == N_JOINTS && forall i | 0 <= i < N_JOINTS :: cmd[i] == Command(Model(), i)
    {
      var target := targetQ;
      q := measured;
      cmd := filter.Step(target);
    }

    method Stop()
      requires Valid()
      modifies this
      ensures Valid() && Model() == Freeze(old(Model())).(halted := true)
      ensures targetQ == if !readOnly && !failed then q else old(targetQ)
    {
      if !readOnly && !failed {
        targetQ := q;
      }
      halted := true;
    }
  }
}
