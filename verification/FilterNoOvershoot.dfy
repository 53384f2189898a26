/**
 * A constant target: from rest the command moves monotonically toward it, never passes it, and
 * comes as close to it as one likes.
 */
module FilterNoOvershoot {
  import opened Numeric
  import opened ReferenceFilter
  import opened FilterContainment

  function Lean(p: Params, v: real): real { p.wn * v }

  /** Moving up, and not braking faster than twice the natural frequency. */
  ghost predicate Rising(p: Params, s: Joint) {
    s.v >= 0.0 && s.a >= -2.0 * Lean(p, s.v)
  }

  /** w is the velocity reached from v in one tick at acceleration a. */
  ghost predicate Moved(p: Params, v: real, a: real, w: real) { a * p.dt == w - v }

  // ------------------------------------------------------------ one tick

  lemma PullFloor(p: Params, t: real, s: Joint)
    requires p.Positive() && Slack(p, t, s) >= 0.0
    ensures Pull(p, s, t) >= -Lean(p, s.v)
  {
    hide Slack, Pull;
    PullBySlack(p, t, s);
    MulNonneg(p.wn, Slack(p, t, s));
  }

  /** The acceleration of a tick, from below: the pull, unless a clamp holds it back. */
  lemma AccFloor(p: Params, t: real, s: Joint)
    requires p.Positive()
    ensures var acc := Acc(p, s, t);
            acc >= p.aMax || acc >= Pull(p, s, t) || acc >= s.a + p.D()
  {
    hide Pull;
  }

  lemma GentleBraking(p: Params, v: real, a: real, w: real)
    requires p.Positive() && 2.0 * p.H() <= 1.0 && v >= 0.0
    requires Moved(p, v, a, w) && a >= -Lean(p, v)
    ensures w >= v / 2.0 && a >= -2.0 * Lean(p, w)
  {
    MulNonneg(a + p.wn * v, p.dt);
    MulNonneg(v, 1.0 - 2.0 * (p.wn * p.dt));
    MulNonneg(p.wn, 2.0 * w - v);
  }

  lemma JerkCover(p: Params)
    requires p.Positive() && Agile(p)
    ensures p.D() >= 2.0 * p.H() * p.aMax && p.D() >= 0.0
  {
    MulNonneg(p.wn * p.wn, p.vMax) by { MulNonneg(p.wn, p.wn); }
    MulNonneg(p.dt, p.jMax - 2.0 * p.wn * p.aMax);
    MulNonneg(p.jMax, p.dt);
  }

  lemma JerkBraking(p: Params, d: real, v: real, a: real, w: real)
    requires p.Positive() && 2.0 * p.H() <= 1.0 && v >= 0.0 && d >= 2.0 * p.H() * p.aMax
    requires Moved(p, v, a, w) && a >= -2.0 * Lean(p, v) + d && a >= -p.aMax
    ensures w >= d * p.dt && a >= -2.0 * Lean(p, w)
  {
    hide Agile;
    JerkBrakingCore(p.wn, p.dt, p.H(), d, p.aMax, v, a, w, Lean(p, v), Lean(p, w));
  }

  lemma JerkBrakingCore(wn: real, dt: real, h: real, d: real, aMax: real, v: real, a: real, w: real,
                        lv: real, lw: real)
    requires wn >= 0.0 && dt > 0.0 && h == wn * dt && 2.0 * h <= 1.0 && v >= 0.0 && h >= 0.0
    requires d >= 2.0 * h * aMax && lv == wn * v && lw == wn * w
    requires a * dt == w - v && a >= -2.0 * lv + d && a >= -aMax
    ensures w >= d * dt && a >= -2.0 * lw
  {
    MulNonneg(a + 2.0 * lv - d, dt);
    assert lv * dt == v * h;
    MulNonneg(v, 1.0 - 2.0 * h);
    MulNonneg(h, a + aMax);
    assert wn * (a * dt) == h * a;
    assert lw - lv == wn * (w - v);
  }

  lemma LeanNonneg(p: Params, v: real)
    requires p.Positive() && v >= 0.0
    ensures Lean(p, v) >= 0.0
  {
  }

  lemma RisingCases(p: Params, s: Joint, w: Joint)
    requires p.Positive() && 2.0 * p.H() <= 1.0 && Agile(p) && Rising(p, s)
    requires Moved(p, s.v, w.a, w.v) && w.a >= -p.aMax
    requires w.a >= 0.0 || w.a >= -Lean(p, s.v) || w.a >= s.a + p.D()
    ensures Rising(p, w) && (w.v >= s.v / 2.0 || w.v >= p.D() * p.dt)
  {
    JerkCover(p);
    MulNonneg(p.D(), p.dt);
    hide Lean, Params.H, Params.D, Moved, Agile;
    LeanNonneg(p, s.v);
    if w.a >= -Lean(p, s.v) {
      GentleBraking(p, s.v, w.a, w.v);
    } else {
      JerkBraking(p, p.D(), s.v, w.a, w.v);
    }
  }

  lemma StepMoves(p: Params, s: Joint, t: real)
    requires p.Positive() && Bounded(p, s)
    ensures var w := StepJoint(p, s, t);
            && Bounded(p, w) && w.q == s.q + w.v * p.dt && Moved(p, s.v, w.a, w.v)
            && (w.v == p.vMax || w.a >= Acc(p, s, t) || w.a >= 0.0)
            && (w.v == p.vMax || w.v == -p.vMax || w.a == Acc(p, s, t))
  {
    hide Acc;
    StepBounded(p, s, t);
    VelocityClamp(p, s, Acc(p, s, t));
  }

  lemma VelocityGain(p: Params, v: real, a: real, w: real, floor: real)
    requires p.dt > 0.0 && Moved(p, v, a, w) && a >= floor
    ensures w >= v + floor * p.dt
  {
    MulNonneg(a - floor, p.dt);
  }

  /** At the velocity clamp the surviving acceleration is not a braking one. */
  lemma TopIsNotBraking(p: Params, v: real, a: real, w: real)
    requires p.dt > 0.0 && Moved(p, v, a, w) && w >= v
    ensures a >= 0.0
  {
    CancelLe(0.0, a, p.dt);
  }

  /** One tick upward: what it keeps, and how fast it still moves. */
  lemma RisingStays(p: Params, n: nat, t: real, s: Joint)
    requires Tuned(p, n) && Below(p, n, t, s) && Rising(p, s)
    ensures var w := StepJoint(p, s, t);
            Rising(p, w) && (w.v >= s.v / 2.0 || w.v >= p.D() * p.dt)
  {
    hide Pull, Slack, Lean, Params.H, Params.D, Moved, Agile, Brakes, Acc, StepJoint, Facet, Short;
    AccFloor(p, t, s);
    PullFloor(p, t, s);
    StepMoves(p, s, t);
    var w := StepJoint(p, s, t);
    if w.v == p.vMax {
      TopIsNotBraking(p, s.v, w.a, w.v);
    }
    RisingCases(p, s, w);
  }

  // ------------------------------------------------------------ whole runs

  /** The state after k ticks at the constant target t. */
  function Hold(p: Params, s: Joint, t: real, k: nat): Joint
    requires p.dt > 0.0
  {
    if k == 0 then s else StepJoint(p, Hold(p, s, t, k - 1), t)
  }

  function Constant(t: real, k: nat): seq<real> { seq(k, _ => t) }

  lemma {:induction false} HoldIsRun(p: Params, s: Joint, t: real, k: nat)
    requires p.dt > 0.0
    ensures Hold(p, s, t, k) == Run(p, s, Constant(t, k))
  {
    if k > 0 {
      HoldIsRun(p, s, t, k - 1);
      assert Constant(t, k)[..k - 1] == Constant(t, k - 1);
    }
  }

  ghost predicate Climbing(p: Params, n: nat, t: real, s: Joint) {
    Below(p, n, t, s) && Rising(p, s)
  }

  lemma {:induction false} HoldClimbs(p: Params, n: nat, s: Joint, t: real, k: nat)
    requires Tuned(p, n) && Climbing(p, n, t, s)
    ensures Climbing(p, n, t, Hold(p, s, t, k))
  {
    TunedPositive(p, n);
    hide Tuned, Below, Rising;
    if k > 0 {
      HoldClimbs(p, n, s, t, k - 1);
      BelowStays(p, n, t, Hold(p, s, t, k - 1), t);
      RisingStays(p, n, t, Hold(p, s, t, k - 1));
    }
  }

  lemma RestClimbs(p: Params, n: nat, q0: real, t: real)
    requires p.Positive() && q0 <= t
    ensures Climbing(p, n, t, Rest(q0))
  {
    RestIsBelow(p, n, t, q0);
    hide Below;
  }

  lemma HoldRises(p: Params, n: nat, q0: real, t: real, k: nat)
    requires Tuned(p, n) && q0 <= t
    ensures Hold(p, Rest(q0), t, k).q <= Hold(p, Rest(q0), t, k + 1).q <= t
  {
    TunedPositive(p, n);
    RestClimbs(p, n, q0, t);
    HoldClimbs(p, n, Rest(q0), t, k);
    HoldClimbs(p, n, Rest(q0), t, k + 1);
    var s := Hold(p, Rest(q0), t, k);
    hide Pull, Slack, Facet, Acc, Agile, Brakes, Short, Params.H, Lean;
    StepMoves(p, s, t);
    MulNonneg(StepJoint(p, s, t).v, p.dt);
  }

  lemma {:induction false} HoldMirrors(p: Params, s: Joint, t: real, k: nat)
    requires p.Positive()
    ensures Hold(p, Neg(s), -t, k) == Neg(Hold(p, s, t, k))
  {
    if k > 0 {
      HoldMirrors(p, s, t, k - 1);
      StepMirrors(p, Hold(p, s, t, k - 1), t);
    }
  }

  /** The position after k ticks from rest at q0 held at the target t. */
  function Reached(p: Params, q0: real, t: real, k: nat): real
    requires p.dt > 0.0
  {
    Run(p, Rest(q0), Constant(t, k)).q
  }

  /** q is not beyond the target t, seen from q0. */
  predicate OnSide(q0: real, t: real, q: real) { if q0 <= t then q <= t else q >= t }

  /** The move from q to q' is toward t, and not beyond it. */
  predicate Toward(q0: real, t: real, q: real, q': real) {
    OnSide(q0, t, q') && if q0 <= t then q <= q' else q >= q'
  }

  /** Held at t the command never passes it. */
  ghost predicate NeverPasses(p: Params, q0: real, t: real)
    requires p.dt > 0.0
  {
    forall k: nat :: OnSide(q0, t, Reached(p, q0, t, k))
  }

  /** Held at t the command moves toward it in every tick, or stays. */
  ghost predicate Approaches(p: Params, q0: real, t: real)
    requires p.dt > 0.0
  {
    forall k: nat :: Toward(q0, t, Reached(p, q0, t, k), Reached(p, q0, t, k + 1))
  }

  lemma ApproachNeverPasses(p: Params, q0: real, t: real)
    requires p.dt > 0.0 && Approaches(p, q0, t)
    ensures NeverPasses(p, q0, t)
  {
    hide StepJoint;
    forall k: nat ensures OnSide(q0, t, Reached(p, q0, t, k)) {
      if k > 0 {
        assert Toward(q0, t, Reached(p, q0, t, k - 1), Reached(p, q0, t, k - 1 + 1));
      }
    }
  }

  lemma ApproachMirrors(p: Params, q0: real, t: real)
    requires p.Positive() && q0 > t && Approaches(p, -q0, -t)
    ensures Approaches(p, q0, t)
  {
    hide Reached;
    forall k: nat ensures Toward(q0, t, Reached(p, q0, t, k), Reached(p, q0, t, k + 1)) {
      ReachedMirrors(p, q0, t, k);
      ReachedMirrors(p, q0, t, k + 1);
      assert Toward(-q0, -t, Reached(p, -q0, -t, k), Reached(p, -q0, -t, k + 1));
    }
  }

  /** Every tick toward a target above is a step up or none, and never passes it. */
  lemma NoOvershoot(p: Params, n: nat, q0: real, t: real, k: nat)
    requires Tuned(p, n) && q0 <= t
    ensures q0 <= Reached(p, q0, t, k) <= Reached(p, q0, t, k + 1) <= t
  {
    TunedPositive(p, n);
    HoldAbove(p, n, q0, t, k);
    hide Tuned, StepJoint, Run;
    HoldRises(p, n, q0, t, k);
    HoldIsRun(p, Rest(q0), t, k);
    HoldIsRun(p, Rest(q0), t, k + 1);
  }

  lemma {:induction false} HoldAbove(p: Params, n: nat, q0: real, t: real, k: nat)
    requires Tuned(p, n) && q0 <= t
    ensures q0 <= Hold(p, Rest(q0), t, k).q
  {
    TunedPositive(p, n);
    hide Tuned, StepJoint;
    if k > 0 {
      HoldAbove(p, n, q0, t, k - 1);
      HoldRises(p, n, q0, t, k - 1);
    }
  }

  lemma ReachedIsHold(p: Params, q0: real, t: real, k: nat)
    requires p.dt > 0.0
    ensures Reached(p, q0, t, k) == Hold(p, Rest(q0), t, k).q
  {
    HoldIsRun(p, Rest(q0), t, k);
  }

  lemma ReachedMirrors(p: Params, q0: real, t: real, k: nat)
    requires p.Positive()
    ensures Reached(p, -q0, -t, k) == -Reached(p, q0, t, k)
  {
    HoldMirrors(p, Rest(q0), t, k);
    assert Neg(Rest(q0)) == Rest(-q0);
    HoldIsRun(p, Rest(q0), t, k);
    HoldIsRun(p, Rest(-q0), -t, k);
  }

  /** The same toward a target below. */
  lemma NoUndershoot(p: Params, n: nat, q0: real, t: real, k: nat)
    requires Tuned(p, n) && q0 >= t
    ensures q0 >= Reached(p, q0, t, k) >= Reached(p, q0, t, k + 1) >= t
  {
    TunedPositive(p, n);
    hide Tuned, StepJoint, Reached;
    NoOvershoot(p, n, -q0, -t, k);
    ReachedMirrors(p, q0, t, k);
    ReachedMirrors(p, q0, t, k + 1);
  }
}
