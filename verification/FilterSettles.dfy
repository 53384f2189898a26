/**
 * From any state that velocity and acceleration limits allow, moving or not, a tuned filter held at a constant
 * target settles at it.
 *
 * While the jerk clamp holds the acceleration above what the pull allows, it falls, so the clamp soon lets go, on
 * both sides.  Then the state is in the region below the target, in the one above it, or moving straight toward it
 * without ever reaching it.
 */
module FilterSettles {
  import opened Numeric
  import opened ReferenceFilter
  import opened FilterContainment
  import opened FilterNoOvershoot
  import opened FilterConvergence
  import opened FilterSmallMoves

  /** From some tick on the command stays within eps of t. */
  ghost predicate Settles(p: Params, s: Joint, t: real, eps: real)
    requires p.dt > 0.0
  {
    exists settled: nat :: SettledFrom(p, s, t, eps, settled)
  }

  ghost predicate SettledFrom(p: Params, s: Joint, t: real, eps: real, settled: nat)
    requires p.dt > 0.0
  {
    forall k: nat | k >= settled :: Abs(Hold(p, s, t, k).q - t) < eps
  }

  lemma {:induction false} HoldShift(p: Params, s: Joint, t: real, j: nat, k: nat)
    requires p.dt > 0.0
    ensures Hold(p, Hold(p, s, t, j), t, k) == Hold(p, s, t, j + k)
  {
    if k > 0 {
      hide StepJoint;
      HoldShift(p, s, t, j, k - 1);
    }
  }

  lemma LaterSettles(p: Params, s: Joint, t: real, eps: real, j: nat)
    requires p.dt > 0.0 && Settles(p, Hold(p, s, t, j), t, eps)
    ensures Settles(p, s, t, eps)
  {
    hide Hold;
    var settled: nat :| SettledFrom(p, Hold(p, s, t, j), t, eps, settled);
    forall k: nat | k >= j + settled ensures Abs(Hold(p, s, t, k).q - t) < eps {
      HoldShift(p, s, t, j, k - j);
      assert Abs(Hold(p, Hold(p, s, t, j), t, k - j).q - t) < eps;
    }
    assert SettledFrom(p, s, t, eps, j + settled);
  }

  lemma NextSettles(p: Params, s: Joint, t: real, eps: real)
    requires p.dt > 0.0 && Settles(p, StepJoint(p, s, t), t, eps)
    ensures Settles(p, s, t, eps)
  {
    hide StepJoint, Settles;
    assert Hold(p, s, t, 1) == StepJoint(p, Hold(p, s, t, 0), t);
    LaterSettles(p, s, t, eps, 1);
  }

  lemma MirrorSettles(p: Params, s: Joint, t: real, eps: real)
    requires p.Positive() && Settles(p, Neg(s), -t, eps)
    ensures Settles(p, s, t, eps)
  {
    hide Hold;
    var settled: nat :| SettledFrom(p, Neg(s), -t, eps, settled);
    forall k: nat | k >= settled ensures Abs(Hold(p, s, t, k).q - t) < eps {
      HoldMirrors(p, s, t, k);
      assert Abs(Hold(p, Neg(s), -t, k).q - -t) < eps;
    }
    assert SettledFrom(p, s, t, eps, settled);
  }

  lemma NegNeg(s: Joint)
    ensures Neg(Neg(s)) == s
  {
  }

  lemma ClimbingSettles(p: Params, n: nat, s: Joint, t: real, eps: real)
    requires Tuned(p, n) && Climbing(p, n, t, s) && eps > 0.0
    ensures p.dt > 0.0 && Settles(p, s, t, eps)
  {
    TunedPositive(p, n);
    hide Tuned, Climbing, Hold;
    var settled := ClimbSettles(p, n, s, t, eps);
    assert SettledFrom(p, s, t, eps, settled);
  }

  /** m gains of unit take x to the goal. */
  ghost predicate Enough(x: real, m: nat, unit: real, goal: real) { x + m as real * unit >= goal }

  lemma EnoughNext(x: real, x': real, m: nat, unit: real, goal: real)
    requires Enough(x, m, unit, goal) && x < goal && unit > 0.0
    ensures m > 0 && (x' >= x + unit || x' >= goal ==> Enough(x', m - 1, unit, goal))
  {
    if m == 0 { assert false; }
    assert m as real * unit == (m - 1) as real * unit + unit;
    MulNonneg((m - 1) as real, unit);
  }

  lemma EnoughExists(x: real, unit: real, goal: real) returns (m: nat)
    requires unit > 0.0
    ensures Enough(x, m, unit, goal)
  {
    if x >= goal {
      m := 0;
      assert 0.0 * unit == 0.0;
    } else {
      m := Beyond(goal - x, unit);
    }
  }

  // ------------------------------------------------------------ in the region below the target

  lemma BelowFacts(p: Params, n: nat, t: real, s: Joint)
    requires Below(p, n, t, s)
    ensures Bounded(p, s) && s.q <= t && Slack(p, t, s) >= 0.0
  {
  }

  /** A tick up from v >= 0 rises, turns back, or makes the acceleration grow by all that the jerk clamp allows. */
  lemma UpwardTick(p: Params, n: nat, t: real, s: Joint)
    requires Tuned(p, n) && Below(p, n, t, s) && s.v >= 0.0
    ensures var w := StepJoint(p, s, t); Rising(p, w) || w.v < 0.0 || w.a >= s.a + p.D()
  {
    hide Pull, Slack, Lean, Params.H, Params.D, Moved, Agile, Brakes, Acc, StepJoint, Facet, Short, Below;
    BelowFacts(p, n, t, s);
    AccFloor(p, t, s);
    PullFloor(p, t, s);
    StepMoves(p, s, t);
    var w := StepJoint(p, s, t);
    LeanNonneg(p, s.v);
    if w.v == p.vMax {
      TopIsNotBraking(p, s.v, w.a, w.v);
    }
    if w.v >= 0.0 {
      LeanNonneg(p, w.v);
      if w.a < 0.0 && w.a >= -Lean(p, s.v) { GentleBraking(p, s.v, w.a, w.v); }
    }
  }

  lemma {:induction false} UpwardSettles(p: Params, n: nat, s: Joint, t: real, eps: real, m: nat)
    requires Tuned(p, n) && Below(p, n, t, s) && eps > 0.0 && s.v >= 0.0 && Enough(s.a, m, p.D(), 0.0)
    ensures p.dt > 0.0 && Settles(p, s, t, eps)
    decreases m
  {
    TunedPositive(p, n);
    DPositive(p);
    hide Tuned, Below, StepJoint, Params.D, Settles, Lean, Enough;
    LeanNonneg(p, s.v);
    if Rising(p, s) {
      ClimbingSettles(p, n, s, t, eps);
    } else {
      var w := StepJoint(p, s, t);
      BelowStays(p, n, t, s, t);
      UpwardTick(p, n, t, s);
      if Rising(p, w) {
        ClimbingSettles(p, n, w, t, eps);
      } else if w.v < 0.0 {
        TurningSettles(p, n, w, t, eps);
      } else {
        EnoughNext(s.a, w.a, m, p.D(), 0.0);
        UpwardSettles(p, n, w, t, eps, m - 1);
      }
      NextSettles(p, s, t, eps);
    }
  }

  /** Moving away, at a distance where the pull is at least push. */
  ghost predicate Recoiling(p: Params, t: real, s: Joint, push: real) {
    s.v < 0.0 && 0.0 < push <= p.aMax && push <= p.Kp() * (t - s.q)
  }

  lemma RecoilPull(p: Params, t: real, s: Joint, push: real)
    requires p.Positive() && Recoiling(p, t, s, push)
    ensures Pull(p, s, t) >= push
  {
    MulNonneg(p.wn, -s.v);
  }

  lemma StepAcc(p: Params, s: Joint, t: real)
    requires p.Positive() && Bounded(p, s)
    ensures StepJoint(p, s, t).v == p.vMax || StepJoint(p, s, t).a >= Acc(p, s, t)
  {
    hide Acc;
    VelocityClamp(p, s, Acc(p, s, t));
  }

  lemma RecoilNext(p: Params, t: real, s: Joint, w: Joint, push: real)
    requires p.Positive() && Recoiling(p, t, s, push) && Moved(p, s.v, w.a, w.v) && w.q == s.q + w.v * p.dt
    ensures if w.v >= 0.0 then Rising(p, w) else Recoiling(p, t, w, push)
  {
    if w.v >= 0.0 {
      LeanNonneg(p, w.v);
      TopIsNotBraking(p, s.v, w.a, w.v);
    } else {
      KpPositive(p);
      hide Params.Kp;
      FartherAway(p.Kp(), p.dt, t - s.q, w.v, t - w.q);
    }
  }

  lemma FartherAway(kp: real, dt: real, e: real, v: real, e': real)
    requires kp > 0.0 && dt > 0.0 && v < 0.0 && e' == e - v * dt
    ensures kp * e' >= kp * e && e' > e
  {
    MulPositive(-v, dt);
    MulNonneg(kp, e' - e);
  }

  /** The tick ends the recoil, or the acceleration gets to push or grows by all that the jerk clamp allows. */
  lemma RecoilTick(p: Params, t: real, s: Joint, push: real)
    requires p.Positive() && Bounded(p, s) && Recoiling(p, t, s, push)
    ensures var w := StepJoint(p, s, t);
      && Bounded(p, w) && Moved(p, s.v, w.a, w.v)
      && if w.v >= 0.0 then Rising(p, w) else Recoiling(p, t, w, push) && (w.a >= push || w.a >= s.a + p.D())
  {
    hide Pull, Lean, Moved, Acc, StepJoint, Params.D, Params.Kp, Bounded, Rising;
    RecoilPull(p, t, s, push);
    AccFloor(p, t, s);
    StepMoves(p, s, t);
    StepAcc(p, s, t);
    RecoilNext(p, t, s, StepJoint(p, s, t), push);
  }

  /** Once the acceleration is at push, every tick of the recoil slows it by a fixed amount. */
  lemma {:induction false} SlowingSettles(p: Params, n: nat, s: Joint, t: real, eps: real, push: real, m: nat)
    requires Tuned(p, n) && Below(p, n, t, s) && eps > 0.0 && Recoiling(p, t, s, push) && s.a >= push
    requires Enough(s.v, m, push * p.dt, 0.0)
    ensures p.dt > 0.0 && Settles(p, s, t, eps)
    decreases m
  {
    TunedPositive(p, n);
    DPositive(p);
    BelowFacts(p, n, t, s);
    hide Tuned, Below, StepJoint, Params.D, Settles, Slack, Bounded, Rising, Moved, Enough, Params.Kp;
    var w := StepJoint(p, s, t);
    BelowStays(p, n, t, s, t);
    RecoilTick(p, t, s, push);
    if w.v >= 0.0 {
      ClimbingSettles(p, n, w, t, eps);
    } else {
      MulPositive(push, p.dt);
      VelocityGain(p, s.v, w.a, w.v, push);
      EnoughNext(s.v, w.v, m, push * p.dt, 0.0);
      SlowingSettles(p, n, w, t, eps, push, m - 1);
    }
    NextSettles(p, s, t, eps);
  }

  lemma {:induction false} RecoilSettles(p: Params, n: nat, s: Joint, t: real, eps: real, push: real, m: nat)
    requires Tuned(p, n) && Below(p, n, t, s) && eps > 0.0 && Recoiling(p, t, s, push)
    requires Enough(s.a, m, p.D(), push)
    ensures p.dt > 0.0 && Settles(p, s, t, eps)
    decreases m
  {
    TunedPositive(p, n);
    DPositive(p);
    BelowFacts(p, n, t, s);
    hide Tuned, Below, StepJoint, Params.D, Settles, Slack, Bounded, Rising, Moved, Enough, Params.Kp;
    if s.a >= push {
      MulPositive(push, p.dt);
      var k := EnoughExists(s.v, push * p.dt, 0.0);
      SlowingSettles(p, n, s, t, eps, push, k);
    } else {
      var w := StepJoint(p, s, t);
      BelowStays(p, n, t, s, t);
      RecoilTick(p, t, s, push);
      if w.v >= 0.0 {
        ClimbingSettles(p, n, w, t, eps);
      } else {
        EnoughNext(s.a, w.a, m, p.D(), push);
        RecoilSettles(p, n, w, t, eps, push, m - 1);
      }
      NextSettles(p, s, t, eps);
    }
  }

  lemma TurningTick(p: Params, s: Joint, t: real)
    requires p.Positive() && Bounded(p, s) && s.q <= t && s.v < 0.0
    ensures var w := StepJoint(p, s, t);
      if w.v >= 0.0 then Rising(p, w) else w.q == s.q + w.v * p.dt
  {
    hide StepJoint, Acc, Pull, Moved, Rising;
    var w := StepJoint(p, s, t);
    StepMoves(p, s, t);
    if w.v >= 0.0 {
      TopIsNotBraking(p, s.v, w.a, w.v);
      UpIsRising(p, w);
    }
  }

  /** Moving away from the target, in the region below it. */
  lemma TurningSettles(p: Params, n: nat, s: Joint, t: real, eps: real)
    requires Tuned(p, n) && Below(p, n, t, s) && eps > 0.0 && s.v < 0.0
    ensures p.dt > 0.0 && Settles(p, s, t, eps)
  {
    TunedPositive(p, n);
    BelowFacts(p, n, t, s);
    hide Tuned, Below, StepJoint, Params.D, Settles, Slack, Rising, Bounded, Enough, Recoiling;
    var w := StepJoint(p, s, t);
    BelowStays(p, n, t, s, t);
    TurningTick(p, s, t);
    if w.v >= 0.0 {
      ClimbingSettles(p, n, w, t, eps);
    } else {
      DPositive(p);
      var push := SomePush(p, t, s, w);
      var m := EnoughExists(w.a, p.D(), push);
      RecoilSettles(p, n, w, t, eps, push, m);
    }
    NextSettles(p, s, t, eps);
  }

  lemma UpIsRising(p: Params, w: Joint)
    requires p.Positive() && w.v >= 0.0 && w.a >= 0.0
    ensures Rising(p, w)
  {
    LeanNonneg(p, w.v);
  }

  lemma SomePush(p: Params, t: real, s: Joint, w: Joint) returns (push: real)
    requires p.Positive() && s.q <= t && w.v < 0.0 && w.q == s.q + w.v * p.dt
    ensures p.aMax > 0.0 && Recoiling(p, t, w, push)
  {
    KpPositive(p);
    hide Params.Kp;
    FartherAway(p.Kp(), p.dt, t - s.q, w.v, t - w.q);
    var most := p.Kp() * (t - w.q);
    ProductPositive(p.Kp(), t - w.q, most);
    push := Min(p.aMax, most);
    assert push <= most && push <= p.aMax && push > 0.0;
  }

  lemma BelowSettles(p: Params, n: nat, s: Joint, t: real, eps: real)
    requires Tuned(p, n) && Below(p, n, t, s) && eps > 0.0
    ensures p.dt > 0.0 && Settles(p, s, t, eps)
  {
    TunedPositive(p, n);
    DPositive(p);
    BelowFacts(p, n, t, s);
    hide Tuned, Below, Params.D, Settles, Slack, Enough;
    if s.v < 0.0 {
      TurningSettles(p, n, s, t, eps);
    } else {
      var m := EnoughExists(s.a, p.D(), 0.0);
      UpwardSettles(p, n, s, t, eps, m);
    }
  }

  /** The same in the region above the target. */
  lemma AboveSettles(p: Params, n: nat, s: Joint, t: real, eps: real)
    requires Tuned(p, n) && Below(p, n, -t, Neg(s)) && eps > 0.0
    ensures p.dt > 0.0 && Settles(p, s, t, eps)
  {
    TunedPositive(p, n);
    hide Tuned, Below, Settles;
    BelowSettles(p, n, Neg(s), -t, eps);
    MirrorSettles(p, s, t, eps);
  }

  // ------------------------------------------------------------ on the way at full speed

  /** At full speed, with more pull than the jerk clamp passes in one tick. */
  ghost predicate Cruises(p: Params, t: real, s: Joint) {
    Bounded(p, s) && s.v == p.vMax && s.a >= 0.0 && Pull(p, s, t) > p.D()
  }

  lemma {:induction false} Bernoulli(i: nat, n: nat)
    requires i <= n
    ensures Pow(Ratio(n), i) >= 1.0 - Slope(i, n)
  {
    if i == 0 {
      assert Pow(Ratio(n), 0) == 1.0;
    } else {
      Bernoulli(i - 1, n);
      SlopeStep(i, n);
      BernoulliStep(n as real, i as real, Ratio(n), Pow(Ratio(n), i - 1), Slope(i - 1, n), Slope(i, n))
        by { RatioOf(n); SlopeOf(i, n); SlopeOf(i - 1, n); }
      assert Pow(Ratio(n), i) == Ratio(n) * Pow(Ratio(n), i - 1);
    }
  }

  lemma RatioOf(n: nat)
    ensures Ratio(n) * (n as real + 1.0) == n as real
  {
  }

  lemma SlopeOf(i: nat, n: nat)
    requires n > 0
    ensures Slope(i, n) * n as real == i as real
  {
  }

  lemma BernoulliStep(n: real, i: real, r: real, pow: real, c': real, c: real)
    requires n >= 1.0 && 1.0 <= i <= n && r * (n + 1.0) == n && c' * n == i - 1.0 && c * n == i && pow >= 1.0 - c'
    ensures r * pow >= 1.0 - c
  {
    var x, y := r * pow, n * (n + 1.0);
    FactorNonneg(n + 1.0, r);
    MulNonneg(r, pow - (1.0 - c'));
    assert (r * (1.0 - c')) * y == n * (n - i + 1.0) by {
      assert (r * (1.0 - c')) * y == (r * (n + 1.0)) * (n - c' * n);
    }
    assert (1.0 - c) * y == (n - i) * (n + 1.0) by { assert (1.0 - c) * y == (n - c * n) * (n + 1.0); }
    assert n * (n - i + 1.0) - (n - i) * (n + 1.0) == i;
    MulPositive(n, n + 1.0);
    FactorNonneg(y, r * (1.0 - c') - (1.0 - c)) by {
      assert y * (r * (1.0 - c') - (1.0 - c)) == (r * (1.0 - c')) * y - (1.0 - c) * y;
    }
  }

  /** At full speed with the pull still forward every facet holds. */
  lemma FastFacet(p: Params, n: nat, t: real, s: Joint, i: nat)
    requires p.Positive() && i <= n && s.v == p.vMax && Slack(p, t, s) >= p.vMax
    ensures Facet(p, n, t, s, i)
  {
    hide Slack;
    Bernoulli(i, n);
    if i > 0 { SlopeStep(i, n); }
    hide Pow, Ratio, Slope;
    FastFacetCore(Slope(i, n), Slack(p, t, s), p.vMax, Pow(Ratio(n), i));
  }

  lemma FastFacetCore(c: real, u: real, v: real, pow: real)
    requires c >= 0.0 && u >= v > 0.0 && pow >= 1.0 - c
    ensures v - c * u <= pow * v
  {
    MulNonneg(c, u - v);
    MulNonneg(pow - (1.0 - c), v);
  }

  lemma CruisesOn(p: Params, t: real, s: Joint)
    requires p.Positive() && Agile(p) && Cruises(p, t, s)
    ensures var w := StepJoint(p, s, t); Bounded(p, w) && w.v == p.vMax && w.a == 0.0 && Pull(p, w, t) >= 0.0
  {
    hide Pull, Acc, Agile, Params.D, Advance, Bounded;
    CruiseAcc(p, t, s);
    StepBounded(p, s, t);
    CruiseClamp(p, s, Acc(p, s, t));
    CruisePull(p, t, s, StepJoint(p, s, t));
  }

  lemma CruisePull(p: Params, t: real, s: Joint, w: Joint)
    requires p.Positive() && Agile(p) && Pull(p, s, t) > p.D() && s.v == w.v == p.vMax && w.a == 0.0
    requires w.q == s.q + w.v * p.dt
    ensures Pull(p, w, t) >= 0.0
  {
    hide Pull, Agile, Params.D;
    assert w.a * p.dt == w.v - s.v;
    SteppedSlack(p, t, s, w);
    CruiseLoss(p, w);
  }

  lemma CruiseAcc(p: Params, t: real, s: Joint)
    requires p.Positive() && Cruises(p, t, s)
    ensures Acc(p, s, t) >= 0.0
  {
    DPositive(p);
    hide Pull, Params.D;
  }

  lemma CruiseClamp(p: Params, s: Joint, acc: real)
    requires p.Positive() && s.v == p.vMax && acc >= 0.0
    ensures var w := Advance(p, s, acc); w.v == p.vMax && w.a == 0.0 && w.q == s.q + w.v * p.dt
  {
    MulNonneg(acc, p.dt);
    assert 0.0 / p.dt == 0.0;
  }

  lemma CruiseLoss(p: Params, w: Joint)
    requires p.Positive() && Agile(p) && w.v == p.vMax && w.a == 0.0
    ensures PullLoss(p, w) <= p.D()
  {
    MulNonneg(p.wn, p.aMax);
    MulNonneg(p.dt, p.jMax - p.wn * p.wn * p.vMax);
  }

  lemma FullSpeedIsBelow(p: Params, n: nat, t: real, s: Joint)
    requires p.Positive() && Bounded(p, s) && s.v == p.vMax && s.a == 0.0 && Pull(p, s, t) >= 0.0
    ensures Below(p, n, t, s)
  {
    PullBySlack(p, t, s);
    DPositive(p);
    hide Pull, Slack, Facet, Params.D;
    FactorNonneg(p.wn, Slack(p, t, s) - s.v);
    SlackMeansBelow(p, t, s);
    forall i: nat | i <= Top(p, n) ensures Facet(p, n, t, s, i) {
      FastFacet(p, n, t, s, i);
    }
  }

  lemma CruiseSettles(p: Params, n: nat, s: Joint, t: real, eps: real)
    requires Tuned(p, n) && Cruises(p, t, s) && eps > 0.0
    ensures p.dt > 0.0 && Settles(p, s, t, eps)
  {
    TunedPositive(p, n);
    CruisesOn(p, t, s);
    FullSpeedIsBelow(p, n, t, StepJoint(p, s, t));
    hide Tuned, Below, StepJoint, Settles, Pull;
    BelowSettles(p, n, StepJoint(p, s, t), t, eps);
    NextSettles(p, s, t, eps);
  }

  lemma CruiseBackSettles(p: Params, n: nat, s: Joint, t: real, eps: real)
    requires Tuned(p, n) && Cruises(p, -t, Neg(s)) && eps > 0.0
    ensures p.dt > 0.0 && Settles(p, s, t, eps)
  {
    TunedPositive(p, n);
    hide Tuned, Cruises, Settles;
    CruiseSettles(p, n, Neg(s), -t, eps);
    MirrorSettles(p, s, t, eps);
  }

  // ------------------------------------------------------------ where the jerk clamp lets go

  /** The jerk clamp does not hold the acceleration away from the pull on either side. */
  ghost predicate Free(p: Params, t: real, s: Joint) {
    Bounded(p, s) && Follows(p, t, s) && Follows(p, -t, Neg(s))
  }

  lemma FreeAcc(p: Params, t: real, s: Joint)
    requires p.Positive() && Free(p, t, s)
    ensures Acc(p, s, t) == Clip(Pull(p, s, t), -p.aMax, p.aMax)
  {
    PullMirrors(p, s, t);
    DPositive(p);
    hide Pull, Params.D;
  }

  /** Below the pull it stays so, or the command goes down at full speed. */
  lemma NextFollows(p: Params, t: real, s: Joint)
    requires p.Positive() && Agile(p) && Bounded(p, s) && Acc(p, s, t) <= Max(Pull(p, s, t), -p.aMax)
    ensures var w := StepJoint(p, s, t); Follows(p, t, w) || Cruises(p, -t, Neg(w))
  {
    hide Acc, Pull, Agile, Params.D, PullLoss;
    var w := StepJoint(p, s, t);
    StepBounded(p, s, t);
    VelocityClamp(p, s, Acc(p, s, t));
    SteppedSlack(p, t, s, w);
    hide StepJoint;
    DPositive(p);
    PullMirrors(p, w, t);
    if w.a <= Pull(p, s, t) {
      JerkRoom(p, Pull(p, s, t), w);
    }
  }

  lemma StepIsMirrored(p: Params, s: Joint, t: real)
    requires p.Positive()
    ensures Acc(p, Neg(s), -t) == -Acc(p, s, t) && Neg(StepJoint(p, Neg(s), -t)) == StepJoint(p, s, t)
  {
    PullMirrors(p, s, t);
    StepMirrors(p, s, t);
    DPositive(p);
    hide Pull, Params.D, StepJoint;
  }

  /** The same from above. */
  lemma NextFollowsBack(p: Params, t: real, s: Joint)
    requires p.Positive() && Agile(p) && Bounded(p, s) && Acc(p, s, t) >= Min(Pull(p, s, t), p.aMax)
    ensures var w := StepJoint(p, s, t); Follows(p, -t, Neg(w)) || Cruises(p, t, w)
  {
    hide Pull, Acc, Agile, StepJoint, Follows, Cruises;
    PullMirrors(p, s, t);
    StepIsMirrored(p, s, t);
    NextFollows(p, -t, Neg(s));
    NegNeg(StepJoint(p, Neg(s), -t));
  }

  /** A state from which settling is known. */
  ghost predicate Home(p: Params, n: nat, t: real, s: Joint) {
    Below(p, n, t, s) || Below(p, n, -t, Neg(s)) || Cruises(p, t, s) || Cruises(p, -t, Neg(s))
  }

  lemma HomeSettles(p: Params, n: nat, s: Joint, t: real, eps: real)
    requires Tuned(p, n) && Home(p, n, t, s) && eps > 0.0
    ensures p.dt > 0.0 && Settles(p, s, t, eps)
  {
    TunedPositive(p, n);
    hide Tuned, Below, Cruises, Settles;
    if Below(p, n, t, s) {
      BelowSettles(p, n, s, t, eps);
    } else if Below(p, n, -t, Neg(s)) {
      AboveSettles(p, n, s, t, eps);
    } else if Cruises(p, t, s) {
      CruiseSettles(p, n, s, t, eps);
    } else {
      CruiseBackSettles(p, n, s, t, eps);
    }
  }

  lemma FreeStays(p: Params, n: nat, t: real, s: Joint)
    requires Tuned(p, n) && Free(p, t, s)
    ensures p.dt > 0.0 && (Free(p, t, StepJoint(p, s, t)) || Home(p, n, t, StepJoint(p, s, t)))
  {
    FreeAcc(p, t, s);
    StepBounded(p, s, t);
    hide Pull, Acc, Agile, StepJoint, Follows, Cruises, Below, Short, Brakes;
    NextFollows(p, t, s);
    NextFollowsBack(p, t, s);
  }

  /** Short of the target and not moving toward it is in the region below it. */
  lemma RetreatIsBelow(p: Params, n: nat, t: real, s: Joint)
    requires p.Positive() && Bounded(p, s) && Follows(p, t, s) && s.q <= t && s.v <= 0.0
    ensures Below(p, n, t, s)
  {
    hide Pull, Slack, Facet, Follows, Firm;
    PullBySlack(p, t, s);
    RetreatSlack(p, t, s);
    MulNonneg(p.wn, Slack(p, t, s) - s.v);
    forall i: nat | i <= Top(p, n) ensures Facet(p, n, t, s, i) {
      RetreatFacet(p, n, t, s, i);
    }
  }

  lemma RetreatSlack(p: Params, t: real, s: Joint)
    requires p.Positive() && s.q <= t && s.v <= 0.0
    ensures Slack(p, t, s) >= 0.0
  {
    ReachNonneg(p, t, s);
  }

  lemma RetreatFacet(p: Params, n: nat, t: real, s: Joint, i: nat)
    requires p.Positive() && s.v <= 0.0 && Slack(p, t, s) >= 0.0 && i <= n
    ensures Facet(p, n, t, s, i)
  {
    hide Slack, Pow, Ratio;
    ScaledPowNonneg(n, i, p.vMax);
    if i > 0 { SlopeStep(i, n); }
    MulNonneg(Slope(i, n), Slack(p, t, s));
  }

  /** Short of the target, moving toward it. */
  ghost predicate Onward(t: real, s: Joint) { s.q < t && s.v > 0.0 }

  lemma FreeQuadrant(p: Params, n: nat, t: real, s: Joint)
    requires p.Positive() && Free(p, t, s) && !Home(p, n, t, s)
    ensures Onward(t, s) || Onward(-t, Neg(s))
  {
    hide Below, Follows, Cruises;
    if s.q <= t && s.v <= 0.0 {
      RetreatIsBelow(p, n, t, s);
    } else if s.q >= t && s.v >= 0.0 {
      RetreatIsBelow(p, n, -t, Neg(s));
    }
  }

  lemma OnwardStays(p: Params, n: nat, t: real, s: Joint)
    requires p.Positive() && Bounded(p, s) && Onward(t, s)
    requires var w := StepJoint(p, s, t); Free(p, t, w) && !Home(p, n, t, w)
    ensures Onward(t, StepJoint(p, s, t))
  {
    hide StepJoint, Free, Home, Acc, Pull, Moved;
    var w := StepJoint(p, s, t);
    StepMoves(p, s, t);
    FreeQuadrant(p, n, t, w);
    if w.v < 0.0 { MulPositive(-w.v, p.dt); }
  }

  lemma FreeProgresses(p: Params, n: nat, g: Goal, t: real, s: Joint)
    requires Tuned(p, n) && Free(p, t, s) && Onward(t, s) && g.For(p) && t - s.q >= g.eps
    requires p.dt > 0.0 && StepJoint(p, s, t).v > 0.0
    ensures Progress(p, g, s, StepJoint(p, s, t))
  {
    GoalPositive(p, g);
    StrideBound(p, g);
    FreeAcc(p, t, s);
    var w := StepJoint(p, s, t);
    hide Pull, Params.H, Params.D, Moved, Agile, Brakes, Acc, StepJoint, Short, Goal.For, Kick, Follows;
    StepMoves(p, s, t);
    StepAcc(p, s, t);
    if w.v < g.stride {
      if s.v < g.slow {
        StrongPull(p, g, t, s);
        KickGain(p, g, s.v, w.a, w.v);
      } else {
        FreeKeepsSpeed(p, g, t, s, w);
      }
    }
  }

  lemma FreeKeepsSpeed(p: Params, g: Goal, t: real, s: Joint, w: Joint)
    requires p.Positive() && 2.0 * p.H() <= 1.0 && g.For(p) && t - s.q >= g.eps && s.v >= g.slow
    requires Moved(p, s.v, w.a, w.v) && (w.a >= Pull(p, s, t) || w.a >= 0.0)
    ensures w.v >= g.stride
  {
    GoalPositive(p, g);
    GoalCaps(p, g);
    StrideBound(p, g);
    hide Goal.For, Params.D, Params.H, Pull, Moved;
    if w.a >= 0.0 {
      VelocityGain(p, s.v, w.a, w.v, 0.0);
      assert 0.0 * p.dt == 0.0;
    } else {
      BrakingKeepsSpeed(p, g.eps, g.slow, t, s, w);
    }
  }

  lemma BrakingKeepsSpeed(p: Params, eps: real, slow: real, t: real, s: Joint, w: Joint)
    requires p.Positive() && 2.0 * p.H() <= 1.0 && t - s.q >= eps && s.v >= slow > 0.0 && slow <= p.wn * eps / 4.0
    requires Moved(p, s.v, w.a, w.v) && w.a >= Pull(p, s, t)
    ensures w.v >= slow / 2.0
  {
    HPositive(p);
    PullIs(p, t, s);
    hide Pull;
    KeepsSpeedCore(p.wn, p.dt, p.H(), eps, t - s.q, s.v, slow, Pull(p, s, t), w.a, w.v);
  }

  lemma PullIs(p: Params, t: real, s: Joint)
    ensures Pull(p, s, t) == p.wn * p.wn * (t - s.q) - 2.0 * p.wn * s.v
  {
  }

  lemma KeepsSpeedCore(wn: real, dt: real, h: real, eps: real, e: real, v: real, slow: real, pull: real, a: real,
                       w: real)
    requires wn > 0.0 && dt > 0.0 && h == wn * dt && 0.0 <= 2.0 * h <= 1.0 && e >= eps && v >= slow > 0.0
    requires slow <= wn * eps / 4.0 && pull == wn * wn * e - 2.0 * wn * v && a >= pull && a * dt == w - v
    ensures w >= slow / 2.0
  {
    var x := wn * e;
    MulNonneg(wn, e - eps);
    MulNonneg(a - pull, dt);
    assert pull * dt == h * x - 2.0 * (h * v) by {
      assert (wn * wn * e) * dt == h * x;
      assert (2.0 * wn * v) * dt == 2.0 * (h * v);
    }
    assert x >= 4.0 * slow;
    if 4.0 * h <= 1.0 {
      MulNonneg(h, x);
      MulNonneg(v, 1.0 - 4.0 * h);
    } else {
      MulNonneg(h - 0.25, x);
      MulNonneg(v, 1.0 - 2.0 * h);
    }
  }

  /** From s on the state is free and never in a known region. */
  ghost predicate Roams(p: Params, n: nat, t: real, s: Joint)
    requires p.dt > 0.0
  {
    Free(p, t, s) && forall k: nat :: !Home(p, n, t, Hold(p, s, t, k))
  }

  lemma {:induction false} RoamsFree(p: Params, n: nat, t: real, s: Joint, k: nat)
    requires Tuned(p, n) && p.dt > 0.0 && Roams(p, n, t, s)
    ensures Free(p, t, Hold(p, s, t, k))
  {
    hide Tuned, Free, Home, StepJoint;
    if k > 0 {
      RoamsFree(p, n, t, s, k - 1);
      FreeStays(p, n, t, Hold(p, s, t, k - 1));
      assert !Home(p, n, t, Hold(p, s, t, k));
    }
  }

  lemma FreeBounded(p: Params, t: real, s: Joint)
    requires Free(p, t, s)
    ensures Bounded(p, s)
  {
  }

  lemma {:induction false} RoamsOnward(p: Params, n: nat, t: real, s: Joint, k: nat)
    requires Tuned(p, n) && p.dt > 0.0 && Roams(p, n, t, s) && Onward(t, s)
    ensures Onward(t, Hold(p, s, t, k))
  {
    TunedPositive(p, n);
    hide Tuned, Free, Home, StepJoint, Onward;
    if k > 0 {
      RoamsOnward(p, n, t, s, k - 1);
      RoamsFree(p, n, t, s, k - 1);
      RoamsFree(p, n, t, s, k);
      FreeBounded(p, t, Hold(p, s, t, k - 1));
      assert !Home(p, n, t, Hold(p, s, t, k));
      OnwardStays(p, n, t, Hold(p, s, t, k - 1));
    }
  }

  lemma OnwardTravels(p: Params, t: real, s: Joint)
    requires p.dt > 0.0 && Onward(t, StepJoint(p, s, t))
    ensures var w := StepJoint(p, s, t); w.q == s.q + w.v * p.dt && w.v >= 0.0 && s.q <= w.q <= t
  {
    hide Acc, NextVelocity;
    MulPositive(StepJoint(p, s, t).v, p.dt);
  }

  lemma OnwardAscends(p: Params, n: nat, g: Goal, t: real, s: Joint)
    requires Tuned(p, n) && Free(p, t, s) && Onward(t, s) && g.For(p)
    requires p.dt > 0.0 && Onward(t, StepJoint(p, s, t)) && Bounded(p, StepJoint(p, s, t))
    ensures Ascends(p, g, t, s)
  {
    hide Tuned, Free, Goal.For, StepJoint, Progress, Bounded, Ascends;
    FreeBounded(p, t, s);
    OnwardTravels(p, t, s);
    if t - s.q >= g.eps {
      FreeProgresses(p, n, g, t, s);
    }
    AscendsBy(p, g, t, s, StepJoint(p, s, t));
  }

  lemma AscendsBy(p: Params, g: Goal, t: real, s: Joint, w: Joint)
    requires p.dt > 0.0 && w == StepJoint(p, s, t) && Bounded(p, s) && Bounded(p, w) && s.v >= 0.0 && w.v >= 0.0
    requires w.q == s.q + w.v * p.dt && s.q <= w.q <= t && (t - s.q >= g.eps ==> Progress(p, g, s, w))
    ensures Ascends(p, g, t, s)
  {
    hide StepJoint, Progress, Bounded;
  }

  lemma OnwardSettles(p: Params, n: nat, s: Joint, t: real, eps: real)
    requires Tuned(p, n) && p.dt > 0.0 && Roams(p, n, t, s) && Onward(t, s) && eps > 0.0
    ensures Settles(p, s, t, eps)
  {
    TunedPositive(p, n);
    var g := GoalFor(p, eps);
    GoalForIsGoal(p, eps);
    hide Tuned, Roams, Free, Onward, Goal.For, GoalFor, StepJoint, Ascends;
    forall k: nat ensures Ascends(p, g, t, Hold(p, s, t, k)) {
      RoamsFree(p, n, t, s, k);
      RoamsFree(p, n, t, s, k + 1);
      FreeBounded(p, t, Hold(p, s, t, k + 1));
      RoamsOnward(p, n, t, s, k);
      RoamsOnward(p, n, t, s, k + 1);
      OnwardAscends(p, n, g, t, Hold(p, s, t, k));
    }
    hide Hold;
    var settled := AscentSettles(p, g, s, t);
    assert SettledFrom(p, s, t, eps, settled);
  }

  lemma HomeMirrors(p: Params, n: nat, t: real, s: Joint)
    ensures Home(p, n, -t, Neg(s)) <==> Home(p, n, t, s)
  {
    hide Below, Cruises;
    NegNeg(s);
  }

  lemma RoamsMirrors(p: Params, n: nat, t: real, s: Joint)
    requires p.Positive() && Roams(p, n, t, s)
    ensures Roams(p, n, -t, Neg(s))
  {
    hide Home, Hold, Follows;
    NegNeg(s);
    var u := -t;
    forall k: nat ensures !Home(p, n, u, Hold(p, Neg(s), u, k)) {
      HoldMirrors(p, s, t, k);
      HomeMirrors(p, n, t, Hold(p, s, t, k));
    }
  }

  lemma FreeSettles(p: Params, n: nat, s: Joint, t: real, eps: real)
    requires Tuned(p, n) && Free(p, t, s) && eps > 0.0
    ensures p.dt > 0.0 && Settles(p, s, t, eps)
  {
    TunedPositive(p, n);
    hide Tuned, Free, Home, Hold, Settles, Onward;
    if k: nat :| Home(p, n, t, Hold(p, s, t, k)) {
      HomeSettles(p, n, Hold(p, s, t, k), t, eps);
      LaterSettles(p, s, t, eps, k);
    } else {
      assert Roams(p, n, t, s);
      NotHomeAtStart(p, n, t, s);
      FreeQuadrant(p, n, t, s);
      if Onward(t, s) {
        OnwardSettles(p, n, s, t, eps);
      } else {
        RoamsMirrors(p, n, t, s);
        OnwardSettles(p, n, Neg(s), -t, eps);
        MirrorSettles(p, s, t, eps);
      }
    }
  }

  lemma NotHomeAtStart(p: Params, n: nat, t: real, s: Joint)
    requires p.dt > 0.0 && Roams(p, n, t, s)
    ensures !Home(p, n, t, s)
  {
    hide Home;
    assert Hold(p, s, t, 0) == s;
  }

  // ------------------------------------------------------------ from any state

  /** Held above what the pull allows, the acceleration falls by all that the jerk clamp passes. */
  lemma HeldTick(p: Params, t: real, s: Joint)
    requires p.Positive() && Bounded(p, s) && !Follows(p, t, s)
    ensures var w := StepJoint(p, s, t);
      && Acc(p, s, t) == s.a - p.D() && Acc(p, s, t) >= Min(Pull(p, s, t), p.aMax) && s.a > -p.aMax
      && (Follows(p, t, w) || Cruises(p, -t, Neg(w)) || w.a <= s.a - p.D())
  {
    HeldAccIs(p, t, s);
    hide Acc, Pull, Params.D;
    var w := StepJoint(p, s, t);
    StepBounded(p, s, t);
    VelocityClamp(p, s, Acc(p, s, t));
    hide StepJoint;
    PullMirrors(p, w, t);
    DPositive(p);
  }

  lemma HeldAccIs(p: Params, t: real, s: Joint)
    requires p.Positive() && Bounded(p, s) && !Follows(p, t, s)
    ensures Acc(p, s, t) == s.a - p.D() && Acc(p, s, t) > Pull(p, s, t) && s.a > -p.aMax
  {
    DPositive(p);
    hide Pull, Params.D;
  }

  lemma {:induction false} HeldSettles(p: Params, n: nat, s: Joint, t: real, eps: real, m: nat)
    requires Tuned(p, n) && Bounded(p, s) && !Follows(p, t, s) && eps > 0.0 && Enough(-s.a, m, p.D(), p.aMax)
    ensures p.dt > 0.0 && Settles(p, s, t, eps)
    decreases m
  {
    TunedPositive(p, n);
    TunedAgile(p, n);
    DPositive(p);
    hide Tuned, Follows, Cruises, StepJoint, Acc, Pull, Params.D, Settles, Enough, Agile;
    var w := StepJoint(p, s, t);
    StepBounded(p, s, t);
    HeldTick(p, t, s);
    NextFollowsBack(p, t, s);
    if Cruises(p, t, w) || Cruises(p, -t, Neg(w)) {
      HomeSettles(p, n, w, t, eps);
    } else if Follows(p, t, w) {
      FreeSettles(p, n, w, t, eps);
    } else {
      EnoughNext(-s.a, -w.a, m, p.D(), p.aMax);
      HeldSettles(p, n, w, t, eps, m - 1);
    }
    NextSettles(p, s, t, eps);
  }

  lemma TunedAgile(p: Params, n: nat)
    requires Tuned(p, n)
    ensures Agile(p)
  {
  }

  lemma HeldUpSettles(p: Params, n: nat, s: Joint, t: real, eps: real)
    requires Tuned(p, n) && Bounded(p, s) && !Follows(p, t, s) && eps > 0.0
    ensures p.dt > 0.0 && Settles(p, s, t, eps)
  {
    TunedPositive(p, n);
    DPositive(p);
    hide Tuned, Bounded, Follows, Settles, Enough;
    var m := EnoughExists(-s.a, p.D(), p.aMax);
    HeldSettles(p, n, s, t, eps, m);
  }

  /**
   * Whatever the state within the velocity and acceleration limits, moving either way on either side of the target:
   * held there, the command comes within any distance of it and stays.
   */
  lemma SettlesFromAnywhere(p: Params, n: nat, s: Joint, t: real, eps: real)
    requires Tuned(p, n) && Bounded(p, s) && eps > 0.0
    ensures p.dt > 0.0 && Settles(p, s, t, eps)
  {
    TunedPositive(p, n);
    hide Tuned, Follows, Settles;
    if !Follows(p, t, s) {
      HeldUpSettles(p, n, s, t, eps);
    } else if !Follows(p, -t, Neg(s)) {
      HeldUpSettles(p, n, Neg(s), -t, eps);
      MirrorSettles(p, s, t, eps);
    } else {
      FreeSettles(p, n, s, t, eps);
    }
  }
}
