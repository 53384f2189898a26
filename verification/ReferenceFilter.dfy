/** robot/reference_filter.py: one joint as a saturated recurrence, and the filter object over all joints. */
module ReferenceFilter {
  import opened Numeric

  /** The constants of one joint of the filter. */
  datatype Params = Params(dt: real, vMax: real, aMax: real, jMax: real, wn: real) {
    ghost predicate Positive() {
      dt > 0.0 && vMax > 0.0 && aMax > 0.0 && jMax > 0.0 && wn > 0.0
    }

    /** The gains of critical damping. */
    function Kp(): real { wn * wn }

    function Kd(): real { 2.0 * wn }

    /** Natural frequency in radians per tick. */
    function H(): real { wn * dt }

    /** Largest acceleration change the jerk clamp lets through in one tick. */
    function D(): real { jMax * dt }
  }

  /** q_cmd, qd_cmd and _acc_prev of one joint. */
  datatype Joint = Joint(q: real, v: real, a: real)

  function Rest(q: real): Joint { Joint(q, 0.0, 0.0) }

  function PullOf(p: Params, err: real, v: real): real {
    p.Kp() * err - p.Kd() * v
  }

  /** The acceleration asked for by the second-order filter, before any clamp. */
  function Pull(p: Params, s: Joint, target: real): real {
    PullOf(p, target - s.q, s.v)
  }

  /** The acceleration after the acceleration and the jerk clamp. */
  function Acc(p: Params, s: Joint, target: real): real {
    Clip(Clip(Pull(p, s, target), -p.aMax, p.aMax), s.a - p.D(), s.a + p.D())
  }

  function NextVelocity(p: Params, v: real, acc: real): real {
    Clip(v + acc * p.dt, -p.vMax, p.vMax)
  }

  /** One tick at acceleration acc: the velocity clamp, and the acceleration that survived it. */
  function Advance(p: Params, s: Joint, acc: real): Joint
    requires p.dt > 0.0
  {
    var v := NextVelocity(p, s.v, acc);
    Joint(s.q + v * p.dt, v, (v - s.v) / p.dt)
  }

  function StepJoint(p: Params, s: Joint, target: real): Joint
    requires p.dt > 0.0
  {
    Advance(p, s, Acc(p, s, target))
  }

  function Survived(p: Params, v: real, vNew: real): real
    requires p.dt > 0.0
  {
    (vNew - v) / p.dt
  }

  function Carried(p: Params, q: real, vNew: real): real { q + vNew * p.dt }

  /** The tick, one clamp after the other. */
  lemma TickByParts(p: Params, s: Joint, target: real, err: real, accTarget: real, acc: real, n: Joint)
    requires p.dt > 0.0 && err == target - s.q && accTarget == Clip(PullOf(p, err, s.v), -p.aMax, p.aMax)
    requires acc == Clip(accTarget, s.a - p.D(), s.a + p.D()) && n.v == NextVelocity(p, s.v, acc)
    requires n.a == Survived(p, s.v, n.v) && n.q == Carried(p, s.q, n.v)
    ensures n == StepJoint(p, s, target)
  {
    hide PullOf, NextVelocity, Clip, Params.D;
  }

  /** The state after a whole sequence of targets, the last one last. */
  function Run(p: Params, s: Joint, targets: seq<real>): Joint
    requires p.dt > 0.0
  {
    if targets == [] then s
    else StepJoint(p, Run(p, s, targets[..|targets| - 1]), targets[|targets| - 1])
  }

  /** robot/reference_filter.py: one filter state per joint, replaced as whole vectors every tick. */
  class JerkLimitedReferenceFilter {
    const nDims: nat
    const joints: seq<Params>  // dt and wn are shared, the limits are per joint

    var qCmd: seq<real>
    var qdCmd: seq<real>
    var accPrev: seq<real>

    ghost predicate Valid()
      reads this
    {
      && |joints| == |qCmd| == |qdCmd| == |accPrev| == nDims
      && forall i | 0 <= i < nDims :: joints[i].dt > 0.0
    }

    ghost function State(i: nat): Joint
      requires Valid() && i < nDims
      reads this
    {
      Joint(qCmd[i], qdCmd[i], accPrev[i])
    }

    constructor (dt: real, vMax: seq<real>, aMax: seq<real>, jMax: seq<real>, wn: real)
      requires dt > 0.0 && |vMax| == |aMax| == |jMax|
      ensures Valid() && nDims == |vMax|
      ensures forall i | 0 <= i < nDims ::
                joints[i] == Params(dt, vMax[i], aMax[i], jMax[i], wn) && State(i) == Rest(0.0)
    {
      nDims := |vMax|;
      joints := seq(|vMax|, i requires 0 <= i < |vMax| => Params(dt, vMax[i], aMax[i], jMax[i], wn));
      qCmd := seq(|vMax|, _ => 0.0);
      qdCmd := seq(|vMax|, _ => 0.0);
      accPrev := seq(|vMax|, _ => 0.0);
    }

    method Reset(q0: seq<real>)
      requires Valid() && |q0| == nDims
      modifies this
      ensures Valid()
      ensures forall i | 0 <= i < nDims :: State(i) == Rest(q0[i])
    {
      qCmd := q0;
      qdCmd := seq(nDims, _ => 0.0);
      accPrev := seq(nDims, _ => 0.0);
    }

    method Step(target: seq<real>) returns (cmd: seq<real>)
      requires Valid() && |target| == nDims
      modifies this
      ensures Valid() && cmd == qCmd
      ensures forall i | 0 <= i < nDims :: State(i) == StepJoint(joints[i], old(State(i)), target[i])
    {
      hide PullOf, NextVelocity, Clip, Params.D, StepJoint, Survived, Carried;
      var n, p, q, v, prev := nDims, joints, qCmd, qdCmd, accPrev;
      var err := seq(n, i requires 0 <= i < n => target[i] - q[i]);
      var accTarget := seq(n, i requires 0 <= i < n =>
        Clip(PullOf(p[i], err[i], v[i]), -p[i].aMax, p[i].aMax));
      var acc := seq(n, i requires 0 <= i < n =>
        Clip(accTarget[i], prev[i] - p[i].D(), prev[i] + p[i].D()));
      var vNew := seq(n, i requires 0 <= i < n =>
        NextVelocity(p[i], v[i], acc[i]));
      accPrev := seq(n, i requires 0 <= i < n && p[i].dt > 0.0 => Survived(p[i], v[i], vNew[i]));
      qdCmd := vNew;
      qCmd := seq(n, i requires 0 <= i < n => Carried(p[i], q[i], vNew[i]));
      cmd := qCmd;
      forall i | 0 <= i < n
        ensures State(i) == StepJoint(p[i], Joint(q[i], v[i], prev[i]), target[i])
      {
        TickByParts(p[i], Joint(q[i], v[i], prev[i]), target[i], err[i], accTarget[i], acc[i], State(i));
      }
    }
  }
}
