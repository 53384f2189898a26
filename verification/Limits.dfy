/** safety/limits.py: the joint limits, and the clamps a target passes before it is sent. */
module Limits {
  import opened Numeric

  const N_JOINTS := 7
  const FR3_Q_LOWER: seq<real> := [-2.7437, -1.7837, -2.9007, -3.0421, -2.8065, 0.5445, -3.0159]
  const FR3_Q_UPPER: seq<real> := [2.7437, 1.7837, 2.9007, -0.1518, 2.8065, 4.5169, 3.0159]
  const DEFAULT_JOINT_LIMIT_MARGIN := 0.05

  function ClipToJointLimits(q: seq<real>, margin: real): (r: seq<real>)
    requires |q| == N_JOINTS
    ensures |r| == N_JOINTS
  {
    seq(N_JOINTS, i requires 0 <= i < N_JOINTS && |q| == N_JOINTS =>
      Clip(q[i], FR3_Q_LOWER[i] + margin, FR3_Q_UPPER[i] - margin))
  }

  /** control_loop.py: the per-tick step clamp around the measured joints. */
  function StepClamp(qMeas: seq<real>, smoothed: seq<real>, maxStep: real): (r: seq<real>)
    requires |qMeas| == |smoothed| == N_JOINTS
    ensures |r| == N_JOINTS
  {
    seq(N_JOINTS, i requires 0 <= i < N_JOINTS && |qMeas| == |smoothed| == N_JOINTS =>
      qMeas[i] + Clip(smoothed[i] - qMeas[i], -maxStep, maxStep))
  }

  function SafeTarget(qMeas: seq<real>, smoothed: seq<real>, maxStep: real): (r: seq<real>)
    requires |qMeas| == |smoothed| == N_JOINTS
    ensures |r| == N_JOINTS
  {
    ClipToJointLimits(StepClamp(qMeas, smoothed, maxStep), DEFAULT_JOINT_LIMIT_MARGIN)
  }

  /** Distance from x to the interval [lo, hi]. */
  function Outside(x: real, lo: real, hi: real): real {
    Max(0.0, Max(lo - x, x - hi))
  }

  function Lower(i: nat): real
    requires i < N_JOINTS
  {
    FR3_Q_LOWER[i] + DEFAULT_JOINT_LIMIT_MARGIN
  }

  function Upper(i: nat): real
    requires i < N_JOINTS
  {
    FR3_Q_UPPER[i] - DEFAULT_JOINT_LIMIT_MARGIN
  }

  lemma LimitsOrdered(i: nat)
    requires i < N_JOINTS
    ensures FR3_Q_LOWER[i] < Lower(i) < Upper(i) < FR3_Q_UPPER[i]
  {
    assert i == 0 || i == 1 || i == 2 || i == 3 || i == 4 || i == 5 || i == 6;
  }

  /** An angle the safe limits and the step from the measured joint both admit. */
  predicate Admissible(x: real, meas: real, maxStep: real, lo: real, hi: real) {
    lo <= x <= hi && Abs(x - meas) <= maxStep
  }

  lemma SafeAngle(meas: real, smoothed: real, maxStep: real, lo: real, hi: real)
    requires maxStep >= 0.0 && lo <= hi
    ensures var r := Clip(meas + Clip(smoothed - meas, -maxStep, maxStep), lo, hi);
            && lo <= r <= hi
            && Abs(r - meas) <= Max(maxStep, Outside(meas, lo, hi))
            && (forall x | Admissible(x, meas, maxStep, lo, hi) ::
                  Admissible(r, meas, maxStep, lo, hi) && Abs(r - smoothed) <= Abs(x - smoothed))
            && ((forall x :: !Admissible(x, meas, maxStep, lo, hi)) ==> r == Clip(meas, lo, hi))
  {
    var r := Clip(meas + Clip(smoothed - meas, -maxStep, maxStep), lo, hi);
    var nearest := Clip(meas, lo, hi);
    assert Abs(nearest - meas) <= maxStep ==> Admissible(nearest, meas, maxStep, lo, hi);
  }

  /**
   * Every target sent is inside the shrunken limits.  When some angle there is within a step of the measured
   * joint, it is the one of them nearest to the smoothed target; otherwise it is the limit nearest to the joint.
   */
  lemma SafeTargetBounds(qMeas: seq<real>, smoothed: seq<real>, maxStep: real, i: nat)
    requires |qMeas| == |smoothed| == N_JOINTS && maxStep >= 0.0 && i < N_JOINTS
    ensures var r, meas := SafeTarget(qMeas, smoothed, maxStep)[i], qMeas[i];
            && Lower(i) <= r <= Upper(i)
            && Abs(r - meas) <= Max(maxStep, Outside(meas, Lower(i), Upper(i)))
            && (forall x | Admissible(x, meas, maxStep, Lower(i), Upper(i)) ::
                  Admissible(r, meas, maxStep, Lower(i), Upper(i)) && Abs(r - smoothed[i]) <= Abs(x - smoothed[i]))
            && ((forall x :: !Admissible(x, meas, maxStep, Lower(i), Upper(i))) ==> r == Clip(meas, Lower(i), Upper(i)))
  {
    LimitsOrdered(i);
    SafeAngle(qMeas[i], smoothed[i], maxStep, Lower(i), Upper(i));
    hide Clip, Admissible;
  }
}
