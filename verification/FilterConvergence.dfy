/**
 * A constant target is reached: for every distance eps there is a tick from which on the command
 * stays within eps of the target.
 *
 * While the command is eps away, every tick either moves by a fixed amount, or gains a fixed amount
 * of velocity, or gains a fixed amount of acceleration.  A weighted sum of the three falls by one.
 */
module FilterConvergence {
  import opened Numeric
  import opened ReferenceFilter
  import opened FilterContainment
  import opened FilterNoOvershoot

  /** Velocity below which the filter still speeds up, and the acceleration it then reaches. */
  datatype Goal = Goal(eps: real, slow: real, push: real, stride: real) {
    ghost predicate For(p: Params) {
      && eps > 0.0
      && slow == Min(p.wn * eps / 4.0, p.vMax)
      && push == Min(p.wn * p.wn * eps / 2.0, p.aMax)
      && stride == Min(slow / 2.0, p.D() * p.dt)
    }
  }

  lemma GoalPositive(p: Params, g: Goal)
    requires p.Positive() && g.For(p)
    ensures 0.0 < g.stride < g.slow <= p.vMax && 0.0 < g.push <= p.aMax
  {
    assert p.wn * g.eps > 0.0;
    assert p.wn * p.wn * g.eps > 0.0 by { assert p.wn * p.wn * g.eps == p.wn * (p.wn * g.eps); }
    assert p.D() > 0.0;
    assert p.D() * p.dt > 0.0;
  }

  /** The velocity gained in one tick of acceleration push. */
  function Kick(p: Params, g: Goal): real { g.push * p.dt }

  /** The distance covered in one tick at velocity stride. */
  function Move(p: Params, g: Goal): real { g.stride * p.dt }

  /** The most the surviving acceleration can lose in a tick. */
  function Drop(p: Params): real { -2.0 * p.aMax }

  lemma StrongPull(p: Params, g: Goal, t: real, s: Joint)
    requires p.Positive() && g.For(p) && t - s.q >= g.eps && s.v < g.slow
    ensures Pull(p, s, t) >= g.push
  {
    GoalCaps(p, g);
    hide Goal.For;
    StrongPullCore(p.wn, g.eps, t - s.q, s.v, g.slow, g.push, Pull(p, s, t));
  }

  lemma GoalCaps(p: Params, g: Goal)
    requires g.For(p)
    ensures g.slow <= p.wn * g.eps / 4.0 && g.push <= p.wn * p.wn * g.eps / 2.0
  {
  }

  lemma StrongPullCore(wn: real, eps: real, e: real, v: real, slow: real, push: real, pull: real)
    requires wn > 0.0 && e >= eps && v <= slow && slow <= wn * eps / 4.0 && push <= wn * wn * eps / 2.0
    requires pull == wn * wn * e - 2.0 * wn * v
    ensures pull >= push
  {
    var ww, we := wn * wn, wn * eps;
    MulNonneg(wn, wn);
    MulNonneg(ww, e - eps);
    MulNonneg(wn, we / 4.0 - v);
    assert wn * (we / 4.0) == ww * eps / 4.0;
    assert wn * wn * e == ww * e && wn * wn * eps == ww * eps && 2.0 * wn * v == 2.0 * (wn * v);
  }

  ghost predicate Progress(p: Params, g: Goal, s: Joint, w: Joint) {
    || w.v >= g.stride
    || (s.v < g.slow && w.v < g.slow && w.a >= g.push && w.v >= s.v + Kick(p, g))
    || (s.v < g.slow && w.v < g.slow && w.a < g.push && w.a >= s.a + p.D())
  }

  lemma TickProgresses(p: Params, n: nat, g: Goal, t: real, s: Joint)
    requires Tuned(p, n) && Climbing(p, n, t, s) && g.For(p) && t - s.q >= g.eps
    ensures Progress(p, g, s, StepJoint(p, s, t))
  {
    var w := StepJoint(p, s, t);
    GoalPositive(p, g);
    StrideBound(p, g);
    hide Pull, Slack, Lean, Params.H, Params.D, Moved, Agile, Brakes, Acc, StepJoint, Facet, Short, Goal.For, Kick;
    RisingStays(p, n, t, s);
    StepMoves(p, s, t);
    if w.v < g.stride {
      assert s.v < g.slow;
      StrongPull(p, g, t, s);
      AccFloor(p, t, s);
      assert w.a == Acc(p, s, t);
      if w.a >= g.push {
        KickGain(p, g, s.v, w.a, w.v);
      }
    }
  }

  lemma StrideBound(p: Params, g: Goal)
    requires g.For(p)
    ensures g.stride <= g.slow / 2.0 && g.stride <= p.D() * p.dt
  {
  }

  lemma KickGain(p: Params, g: Goal, v: real, a: real, w: real)
    requires p.dt > 0.0 && Moved(p, v, a, w) && a >= g.push
    ensures w >= v + Kick(p, g)
  {
    VelocityGain(p, v, a, w, g.push);
  }

  /** Weights of distance, velocity and acceleration in the measure that falls. */
  datatype Weights = Weights(dist: real, vel: real, acc: real) {
    ghost predicate Nonneg() { dist >= 0.0 && vel >= 0.0 && acc >= 0.0 }

    function Weigh(e: real, v: real, a: real): real { dist * e - vel * v - acc * a }

    /** The least a state below the target, no faster than slow and aMax, can weigh. */
    function Least(slow: real, aMax: real): real { -(vel * slow) - acc * aMax }

    /** What a tick pays that shortens the distance by de and adds dv and da. */
    function Pay(de: real, dv: real, da: real): real { dist * de + vel * dv + acc * da }

    /** Each kind of progress pays one, whatever else it may lose. */
    ghost predicate For(p: Params, g: Goal) {
      && Nonneg()
      && Pay(0.0, Kick(p, g), 0.0) >= 1.0
      && Pay(0.0, -g.slow, p.D()) >= 1.0
      && Pay(Move(p, g), -g.slow, Drop(p)) >= 1.0
    }
  }

  function Measure(c: Weights, g: Goal, t: real, s: Joint): real {
    c.Weigh(t - s.q, Min(s.v, g.slow), Min(s.a, g.push))
  }

  lemma WeighFalls(c: Weights, e: real, e': real, v: real, v': real, a: real, a': real, de: real, dv: real, da: real)
    requires c.Nonneg() && e' <= e - de && v' >= v + dv && a' >= a + da && c.Pay(de, dv, da) >= 1.0
    ensures c.Weigh(e', v', a') <= c.Weigh(e, v, a) - 1.0
  {
    MulNonneg(c.dist, e - de - e');
    MulNonneg(c.vel, v' - v - dv);
    MulNonneg(c.acc, a' - a - da);
  }

  lemma MeasureFalls(p: Params, c: Weights, g: Goal, t: real, s: Joint, w: Joint)
    requires p.Positive() && g.For(p) && c.For(p, g) && Progress(p, g, s, w)
    requires Bounded(p, s) && Bounded(p, w) && s.v >= 0.0 && w.v >= 0.0 && w.q == s.q + w.v * p.dt
    ensures Measure(c, g, t, w) <= Measure(c, g, t, s) - 1.0
  {
    hide Goal.For, Weights.For, Weights.Weigh, Progress, Kick;
    GoalPositive(p, g);
    TravelBound(g.stride, w.v, p.dt);
    MeasureFallsBy(p, c, g, t - s.q, t - w.q, s, w);
  }

  lemma TravelBound(stride: real, v: real, dt: real)
    requires v >= 0.0 && dt > 0.0
    ensures v * dt >= 0.0 && (v >= stride ==> v * dt >= stride * dt)
  {
    MulNonneg(v, dt);
    if v >= stride { MulNonneg(v - stride, dt); }
  }

  lemma MeasureFallsBy(p: Params, c: Weights, g: Goal, e: real, e': real, s: Joint, w: Joint)
    requires c.For(p, g) && Progress(p, g, s, w) && 0.0 < g.slow && 0.0 < g.push <= p.aMax
    requires Bounded(p, s) && Bounded(p, w) && s.v >= 0.0 && w.v >= 0.0
    requires e' <= e && (w.v >= g.stride ==> e' <= e - Move(p, g))
    ensures c.Weigh(e', Min(w.v, g.slow), Min(w.a, g.push)) <= c.Weigh(e, Min(s.v, g.slow), Min(s.a, g.push)) - 1.0
  {
    hide Kick, Move, Params.D, Weights.Weigh, Weights.Pay;
    var v, v' := Min(s.v, g.slow), Min(w.v, g.slow);
    var a, a' := Min(s.a, g.push), Min(w.a, g.push);
    if w.v >= g.stride {
      WeighFalls(c, e, e', v, v', a, a', Move(p, g), -g.slow, Drop(p));
    } else if w.a >= g.push {
      WeighFalls(c, e, e', v, v', a, a', 0.0, Kick(p, g), 0.0);
    } else {
      WeighFalls(c, e, e', v, v', a, a', 0.0, -g.slow, p.D());
    }
  }

  lemma PickWeight(target: real, unit: real) returns (k: real)
    requires unit > 0.0 && target >= 0.0
    ensures k >= 0.0 && k * unit >= target
  {
    k := target / unit;
  }

  lemma WeightsExist(p: Params, g: Goal) returns (c: Weights)
    requires p.Positive() && g.For(p)
    ensures c.For(p, g)
  {
    GoalPositive(p, g);
    assert Kick(p, g) > 0.0;
    assert p.D() > 0.0;
    assert Move(p, g) > 0.0;
    c := WeightsFor(Kick(p, g), p.D(), Move(p, g), g.slow, p.aMax);
  }

  lemma WeightsFor(kick: real, d: real, move: real, slow: real, aMax: real) returns (c: Weights)
    requires kick > 0.0 && d > 0.0 && move > 0.0 && slow >= 0.0 && aMax >= 0.0
    ensures c.Nonneg() && c.Pay(0.0, kick, 0.0) >= 1.0
    ensures c.Pay(0.0, -slow, d) >= 1.0 && c.Pay(move, -slow, -2.0 * aMax) >= 1.0
  {
    var vel := PickWeight(1.0, kick);
    MulNonneg(vel, slow);
    var acc := PickWeight(vel * slow + 1.0, d);
    MulNonneg(acc, 2.0 * aMax);
    var dist := PickWeight(vel * slow + acc * (2.0 * aMax) + 1.0, move);
    c := Weights(dist, vel, acc);
  }

  /** A tick of an approach from below: upward or still, not beyond t, and making progress while eps away. */
  ghost predicate Ascends(p: Params, g: Goal, t: real, s: Joint)
    requires p.dt > 0.0
  {
    var w := StepJoint(p, s, t);
    && Bounded(p, s) && Bounded(p, w) && s.v >= 0.0 && w.v >= 0.0 && w.q == s.q + w.v * p.dt
    && s.q <= w.q <= t && (t - s.q >= g.eps ==> Progress(p, g, s, w))
  }

  /** Every tick from s on is one. */
  ghost predicate KeepsAscending(p: Params, g: Goal, t: real, s: Joint)
    requires p.dt > 0.0
  {
    forall k: nat :: Ascends(p, g, t, Hold(p, s, t, k))
  }

  lemma AscentMeasureFalls(p: Params, g: Goal, c: Weights, t: real, s: Joint)
    requires p.Positive() && Ascends(p, g, t, s) && g.For(p) && c.For(p, g) && t - s.q >= g.eps
    ensures Measure(c, g, t, StepJoint(p, s, t)) <= Measure(c, g, t, s) - 1.0
  {
    hide Goal.For, Weights.For, Measure, StepJoint, Progress, Bounded;
    MeasureFalls(p, c, g, t, s, StepJoint(p, s, t));
  }

  /** As long as the command is eps away, k ticks lower the measure by k. */
  lemma {:induction false} Descent(p: Params, g: Goal, c: Weights, s: Joint, t: real, k: nat)
    requires p.Positive() && KeepsAscending(p, g, t, s) && g.For(p) && c.For(p, g)
    requires k == 0 || t - Hold(p, s, t, k - 1).q >= g.eps
    ensures Measure(c, g, t, Hold(p, s, t, k)) <= Measure(c, g, t, s) - k as real
  {
    hide Goal.For, Weights.For, Measure, StepJoint, Progress, Bounded;
    if k > 0 {
      if k > 1 { assert Ascends(p, g, t, Hold(p, s, t, k - 2)); }
      Descent(p, g, c, s, t, k - 1);
      assert Ascends(p, g, t, Hold(p, s, t, k - 1));
      AscentMeasureFalls(p, g, c, t, Hold(p, s, t, k - 1));
    }
  }

  lemma ClimbTick(p: Params, n: nat, t: real, s: Joint)
    requires Tuned(p, n) && Climbing(p, n, t, s)
    ensures var w := StepJoint(p, s, t);
            Bounded(p, s) && Bounded(p, w) && s.v >= 0.0 && w.v >= 0.0 && w.q == s.q + w.v * p.dt
  {
    RisingStays(p, n, t, s);
    hide StepJoint, Pull, Slack, Facet, Moved, Agile, Brakes, Slow, Params.D, Lean;
    StepMoves(p, s, t);
  }

  lemma BelowPosition(p: Params, n: nat, t: real, s: Joint)
    requires Below(p, n, t, s)
    ensures s.q <= t
  {
  }

  lemma ClimbAscends(p: Params, n: nat, g: Goal, t: real, s: Joint)
    requires Tuned(p, n) && Climbing(p, n, t, s) && g.For(p)
    ensures p.dt > 0.0 && Ascends(p, g, t, s)
  {
    hide Tuned, Below, Rising, Goal.For, StepJoint, Progress, Bounded;
    TunedPositive(p, n);
    ClimbTick(p, n, t, s);
    BelowStays(p, n, t, s, t);
    BelowPosition(p, n, t, StepJoint(p, s, t));
    MulNonneg(StepJoint(p, s, t).v, p.dt);
    if t - s.q >= g.eps { TickProgresses(p, n, g, t, s); }
  }

  lemma ClimbKeepsAscending(p: Params, n: nat, g: Goal, t: real, s: Joint)
    requires Tuned(p, n) && Climbing(p, n, t, s) && g.For(p)
    ensures p.dt > 0.0 && KeepsAscending(p, g, t, s)
  {
    TunedPositive(p, n);
    hide Tuned, Climbing, Goal.For, Ascends, Hold;
    forall k: nat ensures Ascends(p, g, t, Hold(p, s, t, k)) {
      HoldClimbs(p, n, s, t, k);
      ClimbAscends(p, n, g, t, Hold(p, s, t, k));
    }
  }

  lemma MeasureFloor(p: Params, c: Weights, g: Goal, t: real, s: Joint)
    requires p.Positive() && g.For(p) && c.For(p, g) && s.q <= t
    ensures Measure(c, g, t, s) >= c.Least(g.slow, p.aMax)
  {
    GoalPositive(p, g);
    hide Goal.For, Kick, Move, Params.D, Weights.Weigh, Weights.Pay, Weights.Least;
    WeighFloor(c, t - s.q, Min(s.v, g.slow), Min(s.a, g.push), g.slow, p.aMax);
  }

  lemma WeighFloor(c: Weights, e: real, v: real, a: real, slow: real, aMax: real)
    requires c.Nonneg() && e >= 0.0 && v <= slow && a <= aMax
    ensures c.Weigh(e, v, a) >= c.Least(slow, aMax)
  {
    MulNonneg(c.dist, e);
    MulNonneg(c.vel, slow - v);
    MulNonneg(c.acc, aMax - a);
  }

  lemma {:induction false} HoldMonotone(p: Params, g: Goal, s: Joint, t: real, j: nat, k: nat)
    requires p.dt > 0.0 && KeepsAscending(p, g, t, s) && j <= k
    ensures Hold(p, s, t, j).q <= Hold(p, s, t, k).q <= t
  {
    hide StepJoint, Progress, Bounded;
    assert Ascends(p, g, t, Hold(p, s, t, k));
    if j < k {
      HoldMonotone(p, g, s, t, j, k - 1);
      assert Ascends(p, g, t, Hold(p, s, t, k - 1));
    }
  }

  lemma Above(x: real) returns (k: nat)
    ensures k as real > x
  {
    k := if x < 0.0 then 0 else (x.Floor + 1);
  }

  function GoalFor(p: Params, eps: real): Goal {
    var slow := Min(p.wn * eps / 4.0, p.vMax);
    Goal(eps, slow, Min(p.wn * p.wn * eps / 2.0, p.aMax), Min(slow / 2.0, p.D() * p.dt))
  }

  lemma GoalForIsGoal(p: Params, eps: real)
    requires eps > 0.0
    ensures GoalFor(p, eps).For(p) && GoalFor(p, eps).eps == eps
  {
  }

  /** The tick by which the measure would have fallen below its floor. */
  lemma SomeTickIsClose(p: Params, g: Goal, s: Joint, t: real) returns (k: nat)
    requires p.Positive() && g.For(p) && KeepsAscending(p, g, t, s)
    ensures t - Hold(p, s, t, k).q < g.eps
  {
    hide Goal.For, Weights.For, Weights.Least, Measure, StepJoint, Progress, Bounded;
    var c := WeightsExist(p, g);
    var floor := c.Least(g.slow, p.aMax);
    k := Above(Measure(c, g, t, s) - floor);
    if t - Hold(p, s, t, k).q >= g.eps {
      Descent(p, g, c, s, t, k + 1);
      assert Ascends(p, g, t, Hold(p, s, t, k));
      MeasureFloor(p, c, g, t, Hold(p, s, t, k + 1));
      assert false;
    }
  }

  /** An ascent comes within eps of the target and stays there, below it. */
  lemma AscentSettles(p: Params, g: Goal, s: Joint, t: real) returns (settled: nat)
    requires p.Positive() && g.For(p) && KeepsAscending(p, g, t, s)
    ensures forall k: nat | k >= settled :: t - g.eps < Hold(p, s, t, k).q <= t
  {
    hide Goal.For, KeepsAscending, Hold;
    settled := SomeTickIsClose(p, g, s, t);
    forall k: nat | k >= settled ensures t - g.eps < Hold(p, s, t, k).q <= t {
      HoldMonotone(p, g, s, t, settled, k);
    }
  }

  lemma ClimbSettles(p: Params, n: nat, s: Joint, t: real, eps: real) returns (settled: nat)
    requires Tuned(p, n) && Climbing(p, n, t, s) && eps > 0.0
    ensures p.dt > 0.0 && forall k: nat | k >= settled :: t - eps < Hold(p, s, t, k).q <= t
  {
    TunedPositive(p, n);
    hide Tuned, Climbing, KeepsAscending, Hold;
    var g := GoalFor(p, eps);
    GoalForIsGoal(p, eps);
    ClimbKeepsAscending(p, n, g, t, s);
    settled := AscentSettles(p, g, s, t);
  }

  lemma ReachesTargetAbove(p: Params, n: nat, q0: real, t: real, eps: real) returns (settled: nat)
    requires Tuned(p, n) && q0 <= t && eps > 0.0
    ensures forall k: nat | k >= settled :: t - eps < Reached(p, q0, t, k) <= t
  {
    TunedPositive(p, n);
    RestClimbs(p, n, q0, t);
    hide Tuned, Climbing, Hold, Run;
    settled := ClimbSettles(p, n, Rest(q0), t, eps);
    forall k: nat | k >= settled ensures t - eps < Reached(p, q0, t, k) <= t {
      HoldIsRun(p, Rest(q0), t, k);
    }
  }

  /** The command settles within any distance of the target, on the side it came from. */
  lemma ReachesTarget(p: Params, n: nat, q0: real, t: real, eps: real) returns (settled: nat)
    requires Tuned(p, n) && eps > 0.0
    ensures forall k: nat | k >= settled :: Abs(Reached(p, q0, t, k) - t) < eps
    ensures forall k: nat | k >= settled :: if q0 <= t then Reached(p, q0, t, k) <= t else Reached(p, q0, t, k) >= t
  {
    TunedPositive(p, n);
    hide Tuned, Reached;
    if q0 <= t {
      settled := ReachesTargetAbove(p, n, q0, t, eps);
    } else {
      settled := ReachesTargetAbove(p, n, -q0, -t, eps);
      forall k: nat | k >= settled ensures 0.0 <= Reached(p, q0, t, k) - t < eps {
        ReachedMirrors(p, q0, t, k);
      }
    }
  }
}
