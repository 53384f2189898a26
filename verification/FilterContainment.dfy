/**
 * Containment: from rest inside [lo, hi], no sequence of targets inside [lo, hi] ever drives the
 * command out of [lo, hi].
 *
 * The invariant is a region below hi bounded by at most n + 1 facets.  In units where u is the slack
 * wn * (hi - q) - v, facet i says v - (i/n) * u <= (n/(n+1))^i * vMax.  Facet n bounds how hard the
 * filter ever has to brake, so a larger n admits a smaller aMax.
 *
 * An aMax too small for that may still do: where the pull asks for more, the filter brakes at aMax along a
 * parabola, and half the facets bound the velocity at which that phase begins.
 */
module FilterContainment {
  import opened Numeric
  import opened ReferenceFilter
  import opened BrakingArc

  // ------------------------------------------------------------ the three clamps

  ghost predicate Bounded(p: Params, s: Joint) {
    -p.vMax <= s.v <= p.vMax && -p.aMax <= s.a <= p.aMax
  }

  lemma VelocityClamp(p: Params, s: Joint, acc: real)
    requires p.dt > 0.0 && -p.vMax <= s.v <= p.vMax
    ensures var n := Advance(p, s, acc);
            && n.a * p.dt == n.v - s.v
            && -p.vMax <= n.v <= p.vMax
            && (n.a == acc || (n.v == p.vMax && 0.0 <= n.a <= acc) || (n.v == -p.vMax && acc <= n.a <= 0.0))
  {
    var n := Advance(p, s, acc);
    assert n.a * p.dt == n.v - s.v;
    ClampedRate(p.vMax, p.dt, s.v, acc, n.v, n.a);
  }

  lemma ClampedRate(vMax: real, dt: real, v: real, acc: real, w: real, a: real)
    requires dt > 0.0 && -vMax <= v <= vMax
    requires w == Clip(v + acc * dt, -vMax, vMax) && a * dt == w - v
    ensures a == acc || (w == vMax && 0.0 <= a <= acc) || (w == -vMax && acc <= a <= 0.0)
  {
    if v + acc * dt > vMax {
      CancelLe(0.0, a, dt);
      CancelLe(a, acc, dt);
    } else if v + acc * dt < -vMax {
      CancelLe(a, 0.0, dt);
      CancelLe(acc, a, dt);
    } else {
      CancelEq(a, acc, dt);
    }
  }

  lemma AccBounded(p: Params, s: Joint, t: real)
    requires p.Positive() && -p.aMax <= s.a <= p.aMax
    ensures -p.aMax <= Acc(p, s, t) <= p.aMax
    ensures s.a - p.D() <= Acc(p, s, t) <= s.a + p.D()
  {
    hide Pull;
    MulNonneg(p.jMax, p.dt);
  }

  lemma StepBounded(p: Params, s: Joint, t: real)
    requires p.Positive() && Bounded(p, s)
    ensures Bounded(p, StepJoint(p, s, t))
  {
    hide Acc;
    AccBounded(p, s, t);
    VelocityClamp(p, s, Acc(p, s, t));
  }

  // ------------------------------------------------------------ the region below hi

  /** How far the velocity stays below wn times the distance to hi. */
  function Slack(p: Params, hi: real, s: Joint): real {
    p.wn * (hi - s.q) - s.v
  }

  function FacetOf(c: real, u: real, v: real): real { v - c * u }

  /** The velocity after a tick at exactly the pull toward hi. */
  function Blend(h: real, u: real, v: real): real { v + h * (u - v) }

  /** The slack after a tick that ends at velocity w. */
  function NextSlack(h: real, u: real, v: real, w: real): real { u + v - (1.0 + h) * w }

  function PullLoss(p: Params, n: Joint): real { p.dt * (2.0 * p.wn * n.a + p.wn * p.wn * n.v) }

  function Ratio(n: nat): real { n as real / (n + 1) as real }

  function Slope(i: nat, n: nat): real {
    if n == 0 then 0.0 else i as real / n as real
  }

  ghost predicate Facet(p: Params, n: nat, hi: real, s: Joint, i: nat) {
    FacetOf(Slope(i, n), Slack(p, hi, s), s.v) <= Pow(Ratio(n), i) * p.vMax
  }

  /** The velocity that aMax takes away in one time constant. */
  function Grasp(p: Params): real { if p.wn > 0.0 then p.aMax / p.wn else 0.0 }

  /** The pull toward hi asks for no more braking than aMax, or aMax is braking and will be in time. */
  ghost predicate Stops(p: Params, hi: real, s: Joint) {
    Pull(p, s, hi) >= -p.aMax || OnArc(p.H(), Grasp(p), Slack(p, hi, s), s.v)
  }

  /** The jerk clamp lets the acceleration fall to what braking for hi needs. */
  ghost predicate Follows(p: Params, hi: real, s: Joint) { Max(Pull(p, s, hi), -p.aMax) >= s.a - p.D() }

  /** The number of facets in use. */
  ghost function Top(p: Params, n: nat): nat { if Firm(p, n) then n else n / 2 }

  ghost predicate Facets(p: Params, n: nat, hi: real, s: Joint) {
    forall i: nat | i <= Top(p, n) :: Facet(p, n, hi, s, i)
  }

  ghost predicate Below(p: Params, n: nat, hi: real, s: Joint) {
    && Bounded(p, s)
    && s.q <= hi
    && Slack(p, hi, s) >= 0.0
    && Stops(p, hi, s) && Follows(p, hi, s) && Facets(p, n, hi, s)
  }

  /** The tick is short against the natural frequency: at most half a radian, less with more facets. */
  ghost predicate Slow(p: Params, n: nat) {
    2.0 * p.H() <= 1.0 && Short(n as real, p.H())
  }

  ghost predicate Short(n: real, h: real) { (n + 1.0) * (h + h * h) <= 1.0 }

  /** aMax gives all the braking that the last facet ever asks for; n = 0 asks for wn * vMax <= aMax. */
  ghost predicate Firm(p: Params, n: nat) {
    p.wn * p.vMax * Pow(Ratio(n), n) <= p.aMax
  }

  /** aMax gives less for a while, yet in time; n = 0 asks for little more than wn * vMax <= 3 * aMax. */
  ghost predicate Yielding(p: Params, n: nat) {
    p.wn * p.vMax * Pow(Ratio(n), n / 2) <= Grip(p.H(), Slope(n / 2, n)) * p.aMax
  }

  ghost predicate Brakes(p: Params, n: nat) { Firm(p, n) || Yielding(p, n) }

  /** jMax can follow the fastest change of the pull. */
  ghost predicate Agile(p: Params) {
    p.wn * p.wn * p.vMax + 2.0 * p.wn * p.aMax <= p.jMax
  }

  ghost predicate Tuned(p: Params, n: nat) {
    p.Positive() && Slow(p, n) && Brakes(p, n) && Agile(p)
  }

  lemma HPositive(p: Params)
    requires p.Positive()
    ensures p.H() > 0.0
  {
  }

  lemma DPositive(p: Params)
    requires p.Positive()
    ensures p.D() > 0.0
  {
    MulPositive(p.jMax, p.dt);
  }

  lemma PullBySlack(p: Params, hi: real, s: Joint)
    ensures Pull(p, s, hi) == p.wn * (Slack(p, hi, s) - s.v)
  {
  }

  lemma ReachNonneg(p: Params, hi: real, s: Joint)
    requires p.Positive() && s.q <= hi
    ensures Slack(p, hi, s) + s.v >= 0.0
  {
    MulNonneg(p.wn, hi - s.q);
  }

  lemma PowPositive(b: real, n: nat)
    requires b >= 0.0
    ensures Pow(b, n) >= 0.0
  {
    if n > 0 {
      PowPositive(b, n - 1);
      MulNonneg(b, Pow(b, n - 1));
    }
  }

  // ------------------------------------------------------------ one tick, seen from hi

  lemma BrakeBound(wn: real, vMax: real, r: real, aMax: real, u: real, v: real)
    requires wn >= 0.0 && v - u <= r * vMax && wn * vMax * r <= aMax
    ensures wn * (u - v) >= -aMax
  {
    MulNonneg(wn, r * vMax - (v - u));
  }

  lemma TopFacet(p: Params, n: nat, hi: real, s: Joint)
    requires p.Positive() && Slack(p, hi, s) >= 0.0 && Facet(p, n, hi, s, n)
    ensures s.v - Slack(p, hi, s) <= Pow(Ratio(n), n) * p.vMax
  {
    hide Pull, Slack, Ratio;
    if n > 0 {
      assert Slope(n, n) == 1.0;
    }
  }

  /** The pull toward hi never asks for more braking than the acceleration clamp allows. */
  lemma PullAboveClamp(p: Params, n: nat, hi: real, s: Joint)
    requires p.Positive() && Firm(p, n) && Slack(p, hi, s) >= 0.0 && Facet(p, n, hi, s, n)
    ensures Pull(p, s, hi) >= -p.aMax
  {
    hide Pull, Slack, Pow, Ratio;
    TopFacet(p, n, hi, s);
    PullBySlack(p, hi, s);
    BrakeBound(p.wn, p.vMax, Pow(Ratio(n), n), p.aMax, Slack(p, hi, s), s.v);
  }

  lemma PullMonotone(p: Params, s: Joint, t: real, hi: real)
    requires p.Positive() && t <= hi
    ensures Pull(p, s, t) <= Pull(p, s, hi)
  {
    MulNonneg(p.wn * p.wn, hi - t) by { MulNonneg(p.wn, p.wn); }
  }

  lemma AccBelowPull(p: Params, hi: real, s: Joint, t: real)
    requires p.Positive() && t <= hi
    requires Pull(p, s, hi) >= -p.aMax && Pull(p, s, hi) >= s.a - p.D()
    ensures Acc(p, s, t) <= Pull(p, s, hi)
  {
    hide Pull;
    PullMonotone(p, s, t, hi);
    MulNonneg(p.jMax, p.dt);
  }

  /** What a tick yields when pull is the pull toward hi: it accelerates by at most that, or it stopped at -vMax. */
  ghost predicate Ticked(p: Params, pull: real, s: Joint, n: Joint) {
    && n.q == s.q + n.v * p.dt && n.a * p.dt == n.v - s.v
    && (n.a <= pull || (n.v == -p.vMax && n.a <= 0.0))
  }

  lemma AdvanceTicked(p: Params, pull: real, s: Joint, acc: real)
    requires p.Positive() && Bounded(p, s) && acc <= pull && -p.aMax <= acc <= p.aMax
    ensures Ticked(p, pull, s, Advance(p, s, acc))
    ensures Bounded(p, Advance(p, s, acc))
  {
    VelocityClamp(p, s, acc);
  }

  lemma StepTicked(p: Params, hi: real, s: Joint, t: real)
    requires p.Positive() && Bounded(p, s) && Follows(p, hi, s) && Pull(p, s, hi) >= -p.aMax && t <= hi
    ensures Ticked(p, Pull(p, s, hi), s, StepJoint(p, s, t))
    ensures Bounded(p, StepJoint(p, s, t))
  {
    hide Pull, Acc, Ticked, Advance;
    AccBelowPull(p, hi, s, t);
    AccBounded(p, s, t);
    AdvanceTicked(p, Pull(p, s, hi), s, Acc(p, s, t));
  }

  /** Slack and pull after a tick at surviving acceleration n.a that ends at velocity n.v. */
  lemma SteppedSlack(p: Params, hi: real, s: Joint, n: Joint)
    requires n.q == s.q + n.v * p.dt && n.a * p.dt == n.v - s.v
    ensures Slack(p, hi, n) == NextSlack(p.H(), Slack(p, hi, s), s.v, n.v)
    ensures Pull(p, n, hi) == Pull(p, s, hi) - PullLoss(p, n)
  {
    assert p.wn * (hi - n.q) == p.wn * (hi - s.q) - p.wn * p.dt * n.v;
    assert 2.0 * p.wn * (n.v - s.v) == p.dt * (2.0 * p.wn * n.a);
  }

  lemma VelocityBelowBlend(p: Params, hi: real, s: Joint, w: Joint)
    requires p.Positive() && w.a * p.dt == w.v - s.v && w.a <= Pull(p, s, hi)
    ensures w.v <= Blend(p.H(), Slack(p, hi, s), s.v)
  {
    hide Pull, Slack;
    PullBySlack(p, hi, s);
    BlendRate(p.wn, p.dt, Slack(p, hi, s), s.v, w.v, w.a);
  }

  lemma BlendRate(wn: real, dt: real, u: real, v: real, w: real, a: real)
    requires dt > 0.0 && a * dt == w - v && a <= wn * (u - v)
    ensures w <= Blend(wn * dt, u, v)
  {
    MulNonneg(wn * (u - v) - a, dt);
  }

  lemma BlendKeepsSlack(h: real, u: real, v: real, w: real)
    requires 0.0 < h && 2.0 * h <= 1.0 && u >= 0.0 && u + v >= 0.0
    requires w <= Blend(h, u, v)
    ensures NextSlack(h, u, v, w) >= 0.0
  {
    MulNonneg(1.0 + h, v + h * (u - v) - w);
    assert u + v - (1.0 + h) * (v + h * (u - v)) == u * ((1.0 - 2.0 * h) * (1.0 + h)) + (h * h) * (u + v);
    MulNonneg(1.0 - 2.0 * h, 1.0 + h);
    MulNonneg(u, (1.0 - 2.0 * h) * (1.0 + h));
    MulNonneg(h, h);
    MulNonneg(h * h, u + v);
  }

  lemma StopKeepsSlack(h: real, u: real, v: real, w: real)
    requires h >= 0.0 && u + v >= 0.0 && w <= 0.0
    ensures NextSlack(h, u, v, w) >= 0.0
  {
    MulNonneg(1.0 + h, -w);
  }

  lemma SlackStaysNonneg(p: Params, hi: real, s: Joint, w: Joint)
    requires p.Positive() && 2.0 * p.H() <= 1.0
    requires s.q <= hi && Slack(p, hi, s) >= 0.0 && Ticked(p, Pull(p, s, hi), s, w)
    ensures Slack(p, hi, w) >= 0.0
  {
    hide Pull, Slack, Params.H, Blend, NextSlack;
    SteppedSlack(p, hi, s, w);
    HPositive(p);
    ReachNonneg(p, hi, s);
    if w.a <= Pull(p, s, hi) {
      VelocityBelowBlend(p, hi, s, w);
      BlendKeepsSlack(p.H(), Slack(p, hi, s), s.v, w.v);
    } else {
      StopKeepsSlack(p.H(), Slack(p, hi, s), s.v, w.v);
    }
  }

  lemma SlackMeansBelow(p: Params, hi: real, w: Joint)
    requires p.wn > 0.0 && Slack(p, hi, w) >= 0.0 && w.v >= 0.0
    ensures w.q <= hi
  {
    FactorNonneg(p.wn, hi - w.q);
  }

  lemma PositionStays(p: Params, hi: real, s: Joint, w: Joint)
    requires p.Positive() && s.q <= hi && w.q == s.q + w.v * p.dt && Slack(p, hi, w) >= 0.0
    ensures w.q <= hi
  {
    hide Slack;
    if w.v >= 0.0 {
      SlackMeansBelow(p, hi, w);
    } else {
      MulNonneg(-w.v, p.dt);
    }
  }

  lemma JerkRoom(p: Params, pull: real, w: Joint)
    requires p.Positive() && Agile(p) && w.a <= p.aMax && w.v <= p.vMax && w.a <= pull
    ensures pull - PullLoss(p, w) >= w.a - p.D()
  {
    MulNonneg(2.0 * p.wn, p.aMax - w.a);
    MulNonneg(p.wn * p.wn, p.vMax - w.v) by { assert p.wn * p.wn >= 0.0; }
    MulNonneg(p.dt, p.jMax - (2.0 * p.wn * w.a + p.wn * p.wn * w.v));
  }

  lemma StoppedPull(p: Params, hi: real, w: Joint)
    requires p.Positive() && Slack(p, hi, w) >= 0.0 && w.v <= 0.0
    ensures Pull(p, w, hi) >= 0.0 && p.D() >= 0.0
  {
    hide Pull, Slack;
    PullBySlack(p, hi, w);
    MulNonneg(p.wn, Slack(p, hi, w) - w.v);
    MulNonneg(p.jMax, p.dt);
  }

  lemma JerkFacetStays(p: Params, hi: real, s: Joint, w: Joint)
    requires p.Positive() && Agile(p)
    requires Ticked(p, Pull(p, s, hi), s, w) && Bounded(p, w) && Slack(p, hi, w) >= 0.0
    ensures Pull(p, w, hi) >= w.a - p.D()
  {
    hide Pull, Slack, PullLoss, NextSlack, Agile, Params.D;
    if w.a <= Pull(p, s, hi) {
      SteppedSlack(p, hi, s, w);
      JerkRoom(p, Pull(p, s, hi), w);
    } else {
      StoppedPull(p, hi, w);
    }
  }

  // ------------------------------------------------------------ the facets

  function CSquare(h: real, c: real): real { c * (h * h) }

  function DSquare(h: real, c: real): real { (c * (1.0 - c)) * (h * h) }

  function Mixed(h: real, x: real, y: real, f: real, u: real): real { (1.0 - h - x) * f + (h + y) * u }

  /** At the blended velocity the next facet is a mix of the old facet and the slack. */
  lemma FacetIdentity(h: real, c: real, u: real, v: real)
    ensures var w := Blend(h, u, v);
            FacetOf(c, NextSlack(h, u, v, w), w) == Mixed(h, CSquare(h, c), DSquare(h, c), FacetOf(c, u, v), u)
  {
    hide FacetOf, Mixed;
    BlendedSide(h, c, u, v);
    MixedSide(h, c, u, v);
  }

  lemma BlendedSide(h: real, c: real, u: real, v: real)
    ensures var w := Blend(h, u, v);
            FacetOf(c, NextSlack(h, u, v, w), w) == v - c * u + h * (u - v) + (c * h) * u + (c * h * h) * (u - v)
  {
    assert NextSlack(h, u, v, Blend(h, u, v)) == u - h * u - h * h * (u - v);
  }

  lemma MixedSide(h: real, c: real, u: real, v: real)
    ensures Mixed(h, CSquare(h, c), DSquare(h, c), FacetOf(c, u, v), u)
         == v - c * u + h * (u - v) + (c * h) * u + (c * h * h) * (u - v)
  {
  }

  lemma SquareBounds(h: real, c: real)
    requires 0.0 <= c <= 1.0
    ensures 0.0 <= DSquare(h, c) <= CSquare(h, c) <= h * h
  {
    assert h * h >= 0.0;
    ScaledBounds(c, c * (1.0 - c), h * h) by { MulNonneg(c, 1.0 - c); MulNonneg(c, c); }
  }

  lemma ScaledBounds(c: real, d: real, hh: real)
    requires 0.0 <= d <= c <= 1.0 && hh >= 0.0
    ensures 0.0 <= d * hh <= c * hh <= hh
  {
    MulNonneg(d, hh);
    MulNonneg(c - d, hh);
    MulNonneg(1.0 - c, hh);
  }

  lemma MixWeights(n: real, h: real, hh: real, x: real, y: real)
    requires n >= 0.0 && h >= 0.0 && (n + 1.0) * (h + hh) <= 1.0 && 0.0 <= y <= x <= hh
    ensures h + y >= 0.0 && (1.0 - h - x) - (h + y) * n >= 0.0 && (1.0 - h - x) + (h + y) <= 1.0
  {
    MulNonneg(hh - y, n);
  }

  lemma Mix(n: real, al: real, g: real, f: real, u: real, k: real)
    requires g >= 0.0 && al - g * n >= 0.0 && al + g <= 1.0 && k >= 0.0
    requires f <= k && u <= n * (k - f) + k
    ensures al * f + g * u <= k
  {
    MulNonneg(g, n * (k - f) + k - u);
    MulNonneg(al - g * n, k - f);
    MulNonneg(1.0 - al - g, k);
  }

  lemma MixedBound(n: real, h: real, x: real, y: real, f: real, u: real, k: real)
    requires n >= 0.0 && h >= 0.0 && Short(n, h) && 0.0 <= y <= x <= h * h && k >= 0.0
    requires f <= k && u <= n * (k - f) + k
    ensures Mixed(h, x, y, f, u) <= k
  {
    MixWeights(n, h, h * h, x, y);
    Mix(n, 1.0 - h - x, h + y, f, u, k);
  }

  /** Facets i and i-1 together cap the slack. */
  lemma SlackCap(n: real, inv: real, c: real, u: real, v: real, k: real, k': real)
    requires n > 0.0 && inv * n == 1.0 && k' * n == k * (n + 1.0) && FacetOf(c - inv, u, v) <= k'
    ensures u <= n * (k - FacetOf(c, u, v)) + k
  {
    var f := FacetOf(c, u, v);
    assert FacetOf(c - inv, u, v) == f + inv * u;
    SlackCapCore(n, inv, f, u, k, k');
  }

  lemma SlackCapCore(n: real, inv: real, f: real, u: real, k: real, k': real)
    requires n > 0.0 && inv * n == 1.0 && k' * n == k * (n + 1.0) && f + inv * u <= k'
    ensures u <= n * (k - f) + k
  {
    MulNonneg(n, k' - f - inv * u);
    assert n * (inv * u) == u by { assert n * (inv * u) == (inv * n) * u; }
  }

  lemma BlendedFacet(n: real, h: real, c: real, u: real, v: real, k: real)
    requires n >= 0.0 && h >= 0.0 && Short(n, h) && 0.0 <= c <= 1.0 && k >= 0.0
    requires FacetOf(c, u, v) <= k && u <= n * (k - FacetOf(c, u, v)) + k
    ensures var w := Blend(h, u, v); FacetOf(c, NextSlack(h, u, v, w), w) <= k
  {
    hide FacetOf, NextSlack, Blend, CSquare, DSquare, Mixed, Short;
    SquareBounds(h, c);
    MixedBound(n, h, CSquare(h, c), DSquare(h, c), FacetOf(c, u, v), u, k);
    FacetIdentity(h, c, u, v);
  }

  lemma FacetMonotone(h: real, c: real, u: real, v: real, w: real, w0: real)
    requires h >= 0.0 && c >= 0.0 && w <= w0
    ensures FacetOf(c, NextSlack(h, u, v, w), w) <= FacetOf(c, NextSlack(h, u, v, w0), w0)
  {
    MulNonneg(1.0 + h, w0 - w);
    MulNonneg(c, (1.0 + h) * (w0 - w));
  }

  lemma StoppedFacet(h: real, c: real, u: real, v: real, w: real)
    requires h >= 0.0 && c >= 0.0 && u + v >= 0.0 && w <= 0.0
    ensures FacetOf(c, NextSlack(h, u, v, w), w) <= 0.0
  {
    StopKeepsSlack(h, u, v, w);
    MulNonneg(c, NextSlack(h, u, v, w));
  }

  lemma SlopeStep(i: nat, n: nat)
    requires 1 <= i <= n
    ensures 0.0 <= Slope(i, n) <= 1.0 && Slope(i - 1, n) == Slope(i, n) - 1.0 / n as real
  {
    var inv := 1.0 / n as real;
    assert Slope(i, n) == i as real * inv;
    assert inv * n as real == 1.0;
    MulNonneg((n - i) as real, inv);
    MulNonneg(i as real, inv);
  }

  lemma PowRatioStep(i: nat, n: nat, m: real, k: real, k': real)
    requires 1 <= i && k == Pow(Ratio(n), i) * m && k' == Pow(Ratio(n), i - 1) * m
    ensures k' * n as real == k * (n as real + 1.0)
  {
    assert k == Ratio(n) * k' by {
      assert (Ratio(n) * Pow(Ratio(n), i - 1)) * m == Ratio(n) * (Pow(Ratio(n), i - 1) * m);
    }
    assert Ratio(n) * (n as real + 1.0) == n as real;
    assert (Ratio(n) * k') * (n as real + 1.0) == (Ratio(n) * (n as real + 1.0)) * k';
  }

  lemma FacetStep(p: Params, n: real, hi: real, s: Joint, w: Joint, c: real, k: real)
    requires p.Positive() && n >= 1.0 && Short(n, p.H()) && 0.0 <= c <= 1.0 && k >= 0.0
    requires FacetOf(c, Slack(p, hi, s), s.v) <= k
    requires Slack(p, hi, s) <= n * (k - FacetOf(c, Slack(p, hi, s), s.v)) + k
    requires s.q <= hi && Ticked(p, Pull(p, s, hi), s, w)
    ensures FacetOf(c, Slack(p, hi, w), w.v) <= k
  {
    hide Pull, Slack, Params.H, FacetOf, NextSlack, Blend, Short;
    var u := Slack(p, hi, s);
    SteppedSlack(p, hi, s, w);
    HPositive(p);
    if w.a <= Pull(p, s, hi) {
      VelocityBelowBlend(p, hi, s, w);
      BlendedFacet(n, p.H(), c, u, s.v, k);
      FacetMonotone(p.H(), c, u, s.v, w.v, Blend(p.H(), u, s.v));
    } else {
      ReachNonneg(p, hi, s);
      StoppedFacet(p.H(), c, u, s.v, w.v);
    }
  }

  lemma ScaledPowNonneg(n: nat, i: nat, m: real)
    requires m >= 0.0
    ensures Pow(Ratio(n), i) * m >= 0.0
  {
    PowPositive(Ratio(n), i);
    MulNonneg(Pow(Ratio(n), i), m);
  }

  lemma ZerothFacet(p: Params, n: nat, hi: real, w: Joint)
    requires w.v <= p.vMax
    ensures Facet(p, n, hi, w, 0)
  {
    hide Slack;
    assert Slope(0, n) == 0.0 && Pow(Ratio(n), 0) == 1.0;
  }

  lemma FacetStays(p: Params, n: nat, hi: real, s: Joint, w: Joint, i: nat)
    requires p.Positive() && Slow(p, n) && 1 <= i <= n
    requires s.q <= hi && Facet(p, n, hi, s, i) && Facet(p, n, hi, s, i - 1)
    requires Ticked(p, Pull(p, s, hi), s, w)
    ensures Facet(p, n, hi, w, i)
  {
    hide Pull, Slack, Slope, Pow, Ratio, Params.H, Ticked, Short, FacetOf;
    var k, k' := Pow(Ratio(n), i) * p.vMax, Pow(Ratio(n), i - 1) * p.vMax;
    SlopeStep(i, n);
    ScaledPowNonneg(n, i, p.vMax);
    PowRatioStep(i, n, p.vMax, k, k');
    SlackCap(n as real, 1.0 / n as real, Slope(i, n), Slack(p, hi, s), s.v, k, k');
    FacetStep(p, n as real, hi, s, w, Slope(i, n), k);
  }

  // ------------------------------------------------------------ the invariant

  lemma GraspIs(p: Params)
    requires p.Positive()
    ensures p.wn * Grasp(p) == p.aMax && Grasp(p) > 0.0 && p.H() * Grasp(p) == p.aMax * p.dt
  {
    var g := Grasp(p);
    assert p.wn * g == p.aMax;
    if g <= 0.0 {
      MulNonneg(p.wn, -g);
      assert false;
    }
    assert (p.wn * p.dt) * g == (p.wn * g) * p.dt;
  }

  /** The gentle region is where the pull stays above the clamp. */
  lemma GentleIff(p: Params, hi: real, s: Joint)
    requires p.Positive()
    ensures Pull(p, s, hi) >= -p.aMax <==> Gentle(Grasp(p), Slack(p, hi, s), s.v)
  {
    hide Pull, Slack, Grasp;
    GraspIs(p);
    PullBySlack(p, hi, s);
    GentleCore(p.wn, Grasp(p), p.aMax, Slack(p, hi, s), s.v);
  }

  lemma GentleCore(wn: real, al: real, a: real, u: real, v: real)
    requires wn > 0.0 && wn * al == a
    ensures wn * (u - v) >= -a <==> Gentle(al, u, v)
  {
    if v - u <= al {
      MulNonneg(wn, al - v + u);
    } else {
      MulPositive(wn, v - u - al);
    }
  }

  /** A tick at the acceleration clamp. */
  ghost predicate AtClamp(p: Params, s: Joint, w: Joint) {
    w.a == -p.aMax && w.v == s.v - p.aMax * p.dt && w.q == s.q + w.v * p.dt
  }

  lemma ClampedAcc(p: Params, hi: real, s: Joint, t: real)
    requires p.Positive() && Bounded(p, s) && Follows(p, hi, s) && Pull(p, s, hi) < -p.aMax && t <= hi
    ensures Acc(p, s, t) == -p.aMax
  {
    hide Pull, Params.D;
    PullMonotone(p, s, t, hi);
    DPositive(p);
  }

  lemma ClampedAdvance(p: Params, s: Joint)
    requires p.Positive() && Bounded(p, s) && s.v >= p.aMax * p.dt
    ensures AtClamp(p, s, Advance(p, s, -p.aMax)) && Bounded(p, Advance(p, s, -p.aMax))
  {
    var w := Advance(p, s, -p.aMax);
    VelocityClamp(p, s, -p.aMax);
    assert w.q == s.q + w.v * p.dt;
    hide Advance;
    ClampCore(p.dt, p.aMax, p.aMax * p.dt, p.vMax, s.v, w.v, w.a);
  }

  lemma ClampCore(dt: real, aMax: real, loss: real, vMax: real, v: real, w: real, a: real)
    requires dt > 0.0 && aMax > 0.0 && loss == aMax * dt && vMax > 0.0 && v >= loss && a * dt == w - v
    requires a == -aMax || (w == vMax && 0.0 <= a <= -aMax) || (w == -vMax && -aMax <= a <= 0.0)
    ensures a == -aMax && w == v - loss
  {
    if a != -aMax {
      MulNonneg(a + aMax, dt);
      assert false;
    }
  }

  /** Where the pull asks for more than aMax, any target below hi gets exactly aMax. */
  lemma ClampedTick(p: Params, hi: real, s: Joint, t: real)
    requires p.Positive() && 2.0 * p.H() <= 1.0 && Bounded(p, s) && Slack(p, hi, s) >= 0.0 && Follows(p, hi, s)
    requires Pull(p, s, hi) < -p.aMax && t <= hi
    ensures AtClamp(p, s, StepJoint(p, s, t)) && Bounded(p, StepJoint(p, s, t)) && s.v > p.aMax * p.dt
  {
    hide Pull, Slack, Grasp, Params.H, Acc, Advance, Bounded, Follows;
    ClampedAcc(p, hi, s, t);
    GraspIs(p);
    GentleIff(p, hi, s);
    MulNonneg(1.0 - p.H(), Grasp(p));
    ClampedAdvance(p, s);
  }

  lemma ClampedSlack(p: Params, hi: real, s: Joint, w: Joint)
    requires p.Positive() && AtClamp(p, s, w)
    ensures w.v == Slower(p.H(), Grasp(p), s.v)
    ensures Slack(p, hi, w) == SlackAfter(p.H(), Slack(p, hi, s), s.v, w.v)
  {
    GraspIs(p);
    assert w.a * p.dt == w.v - s.v;
    SteppedSlack(p, hi, s, w);
    hide Slack, Pull, Grasp;
  }

  lemma ClampedFollows(p: Params, hi: real, s: Joint, w: Joint)
    requires p.Positive() && AtClamp(p, s, w)
    ensures Follows(p, hi, w)
  {
    DPositive(p);
    hide Pull, Params.D;
  }

  lemma ClampedFacet(p: Params, n: nat, hi: real, s: Joint, w: Joint, i: nat)
    requires p.Positive() && AtClamp(p, s, w) && Facet(p, n, hi, s, i) && 2 * i <= n
    requires OnArc(p.H(), Grasp(p), Slack(p, hi, s), s.v) && !Gentle(Grasp(p), Slack(p, hi, s), s.v)
    ensures Facet(p, n, hi, w, i)
  {
    hide Slack, Pow, Ratio, Grasp, Params.H, OnArc, Gentle;
    HalfSlope(i, n);
    HPositive(p);
    GraspIs(p);
    ClampedSlack(p, hi, s, w);
    ArcSpeed(p.H(), Grasp(p), Slack(p, hi, s), s.v);
    ArcFacet(p.H(), Grasp(p), Slope(i, n), Slack(p, hi, s), s.v, Pow(Ratio(n), i) * p.vMax);
  }

  lemma HalfSlope(i: nat, n: nat)
    requires 2 * i <= n
    ensures 0.0 <= Slope(i, n) && 2.0 * Slope(i, n) <= 1.0
  {
    if n > 0 {
      var c := Slope(i, n);
      assert c * n as real == i as real;
      HalfCore(c, n as real, i as real);
    }
  }

  lemma HalfCore(c: real, n: real, i: real)
    requires n > 0.0 && c * n == i && 0.0 <= 2.0 * i <= n
    ensures 0.0 <= c && 2.0 * c <= 1.0
  {
    FactorNonneg(n, c);
    CancelLe(2.0 * c, 1.0, n);
  }

  /** The arc is kept, and with it the slack. */
  lemma ClampedArc(p: Params, hi: real, s: Joint, w: Joint)
    requires p.Positive() && AtClamp(p, s, w) && OnArc(p.H(), Grasp(p), Slack(p, hi, s), s.v)
    ensures OnArc(p.H(), Grasp(p), Slack(p, hi, w), w.v) && Slack(p, hi, w) >= 0.0
  {
    hide Slack, Grasp, Params.H, OnArc;
    GraspIs(p);
    ClampedSlack(p, hi, s, w);
    ArcStays(p.H(), Grasp(p), Slack(p, hi, s), s.v);
    ArcSlack(p.H(), Grasp(p), Slack(p, hi, w), w.v);
  }

  lemma ClampedStays(p: Params, n: nat, hi: real, s: Joint, t: real)
    requires Tuned(p, n) && Below(p, n, hi, s) && t <= hi && Pull(p, s, hi) < -p.aMax
    ensures Below(p, n, hi, StepJoint(p, s, t))
  {
    var w := StepJoint(p, s, t);
    hide Pull, Slack, Facet, StepJoint, Firm, Yielding, Agile, Short, Grasp, OnArc, Params.H, Follows, AtClamp;
    ClampedTick(p, hi, s, t);
    ClampedArc(p, hi, s, w);
    ClampedFollows(p, hi, s, w);
    ClampedPosition(p, hi, s, w);
    GentleIff(p, hi, s);
    NotFirm(p, n, hi, s);
    forall i: nat | i <= Top(p, n) ensures Facet(p, n, hi, w, i) {
      assert Facet(p, n, hi, s, i);
      ClampedFacet(p, n, hi, s, w, i);
    }
  }

  lemma ClampedPosition(p: Params, hi: real, s: Joint, w: Joint)
    requires p.Positive() && s.q <= hi && AtClamp(p, s, w) && Slack(p, hi, w) >= 0.0
    ensures w.q <= hi
  {
    hide Slack;
    PositionStays(p, hi, s, w);
  }

  lemma NotFirm(p: Params, n: nat, hi: real, s: Joint)
    requires p.Positive() && Slack(p, hi, s) >= 0.0 && Pull(p, s, hi) < -p.aMax && Facets(p, n, hi, s)
    ensures !Firm(p, n)
  {
    if Firm(p, n) {
      assert Facet(p, n, hi, s, n);
      PullAboveClamp(p, n, hi, s);
      assert false;
    }
  }

  /** After a gentle tick the pull is gentle again, or the arc is reached. */
  lemma GentleStops(p: Params, n: nat, hi: real, s: Joint, w: Joint)
    requires Tuned(p, n) && Pull(p, s, hi) >= -p.aMax && s.q <= hi && Ticked(p, Pull(p, s, hi), s, w)
    requires Slack(p, hi, w) >= 0.0 && Facets(p, n, hi, w)
    ensures Stops(p, hi, w)
  {
    hide Pull, Slack, Facet, Agile, Short, Params.H, OnArc, Grasp, Pow, Ratio;
    assert Facet(p, n, hi, w, Top(p, n));
    if Firm(p, n) {
      PullAboveClamp(p, n, hi, w);
    } else if w.a <= Pull(p, s, hi) {
      YieldingStops(p, n, hi, s, w);
    } else {
      GraspIs(p);
      GentleIff(p, hi, w);
    }
  }

  lemma YieldingStops(p: Params, n: nat, hi: real, s: Joint, w: Joint)
    requires p.Positive() && 2.0 * p.H() <= 1.0 && Yielding(p, n) && Pull(p, s, hi) >= -p.aMax
    requires Ticked(p, Pull(p, s, hi), s, w) && w.a <= Pull(p, s, hi) && Facet(p, n, hi, w, n / 2)
    ensures Stops(p, hi, w)
  {
    hide Pull, Slack, Params.H, OnArc, Grasp, Pow, Ratio, Gentle, Grip, Slope, NextSlack;
    GentleIff(p, hi, s);
    GentleIff(p, hi, w);
    GraspIs(p);
    HPositive(p);
    HalfSlope(n / 2, n);
    SteppedSlack(p, hi, s, w);
    VelocityBelowBlend(p, hi, s, w);
    YieldingGrip(p, Pow(Ratio(n), n / 2), Grip(p.H(), Slope(n / 2, n)));
    if !Gentle(Grasp(p), Slack(p, hi, w), w.v) {
      SlackAfterIs(p.H(), Slack(p, hi, s), s.v, w.v);
      ArcEntry(p.H(), Grasp(p), Slope(n / 2, n), Slack(p, hi, s), s.v, w.v, Slack(p, hi, w),
               Pow(Ratio(n), n / 2) * p.vMax);
    }
  }

  lemma SlackAfterIs(h: real, u: real, v: real, w: real)
    ensures SlackAfter(h, u, v, w) == NextSlack(h, u, v, w)
  {
  }

  lemma YieldingGrip(p: Params, pow: real, grip: real)
    requires p.Positive() && p.wn * p.vMax * pow <= grip * p.aMax
    ensures pow * p.vMax <= grip * Grasp(p)
  {
    GraspIs(p);
    hide Grasp;
    GripCore(p.wn, p.vMax, pow, grip, p.aMax, Grasp(p));
  }

  lemma GripCore(wn: real, v: real, pow: real, grip: real, a: real, al: real)
    requires wn > 0.0 && wn * al == a && wn * v * pow <= grip * a
    ensures pow * v <= grip * al
  {
    var x, y := pow * v, grip * al;
    assert wn * x == wn * v * pow;
    assert wn * y == grip * a;
    FactorNonneg(wn, y - x) by { assert wn * (y - x) == wn * y - wn * x; }
  }

  lemma GentleFollows(p: Params, hi: real, s: Joint, w: Joint)
    requires p.Positive() && Agile(p)
    requires Ticked(p, Pull(p, s, hi), s, w) && Bounded(p, w) && Slack(p, hi, w) >= 0.0
    ensures Follows(p, hi, w)
  {
    JerkFacetStays(p, hi, s, w);
    hide Pull;
  }

  lemma GentleStays(p: Params, n: nat, hi: real, s: Joint, t: real)
    requires Tuned(p, n) && Below(p, n, hi, s) && t <= hi && Pull(p, s, hi) >= -p.aMax
    ensures Below(p, n, hi, StepJoint(p, s, t))
  {
    hide Pull, Slack, Facet, StepJoint, Firm, Yielding, Agile, Short, Follows, Stops, Ticked;
    var w := StepJoint(p, s, t);
    StepTicked(p, hi, s, t);
    SlackStaysNonneg(p, hi, s, w);
    GentlePosition(p, hi, s, w);
    GentleFollows(p, hi, s, w);
    forall i: nat | i <= Top(p, n) ensures Facet(p, n, hi, w, i) {
      if i == 0 {
        ZerothFacet(p, n, hi, w);
      } else {
        assert Facet(p, n, hi, s, i) && Facet(p, n, hi, s, i - 1);
        FacetStays(p, n, hi, s, w, i);
      }
    }
    GentleStops(p, n, hi, s, w);
  }

  lemma GentlePosition(p: Params, hi: real, s: Joint, w: Joint)
    requires p.Positive() && s.q <= hi && Ticked(p, Pull(p, s, hi), s, w) && Slack(p, hi, w) >= 0.0
    ensures w.q <= hi
  {
    hide Slack, Pull;
    PositionStays(p, hi, s, w);
  }

  lemma BelowStays(p: Params, n: nat, hi: real, s: Joint, t: real)
    requires Tuned(p, n) && Below(p, n, hi, s) && t <= hi
    ensures Below(p, n, hi, StepJoint(p, s, t))
  {
    hide Tuned, Below, StepJoint, Pull;
    if Pull(p, s, hi) >= -p.aMax {
      GentleStays(p, n, hi, s, t);
    } else {
      ClampedStays(p, n, hi, s, t);
    }
  }

  lemma RestFacet(p: Params, n: nat, hi: real, s: Joint, i: nat)
    requires p.Positive() && s.v == 0.0 && Slack(p, hi, s) >= 0.0 && i <= n
    ensures Facet(p, n, hi, s, i)
  {
    hide Slack, Pow, Ratio;
    ScaledPowNonneg(n, i, p.vMax);
    if i > 0 { SlopeStep(i, n); }
    MulNonneg(Slope(i, n), Slack(p, hi, s));
  }

  lemma RestIsBelow(p: Params, n: nat, hi: real, q: real)
    requires p.Positive() && q <= hi
    ensures Below(p, n, hi, Rest(q))
  {
    hide Pull, Slack, Facet;
    var s := Rest(q);
    ReachNonneg(p, hi, s);
    PullBySlack(p, hi, s);
    MulNonneg(p.wn, Slack(p, hi, s));
    MulNonneg(p.jMax, p.dt);
    forall i: nat | i <= Top(p, n) ensures Facet(p, n, hi, s, i) {
      RestFacet(p, n, hi, s, i);
    }
  }

  // ------------------------------------------------------------ both sides, whole runs

  function Neg(s: Joint): Joint { Joint(-s.q, -s.v, -s.a) }

  /** The filter treats both directions alike. */
  lemma StepMirrors(p: Params, s: Joint, t: real)
    requires p.Positive()
    ensures StepJoint(p, Neg(s), -t) == Neg(StepJoint(p, s, t))
  {
    hide Pull;
    PullMirrors(p, s, t);
    var acc := Acc(p, s, t);
    MulNonneg(p.jMax, p.dt);
    assert Acc(p, Neg(s), -t) == -acc;
    AdvanceMirrors(p, s, acc);
  }

  lemma PullMirrors(p: Params, s: Joint, t: real)
    ensures Pull(p, Neg(s), -t) == -Pull(p, s, t)
  {
  }

  lemma AdvanceMirrors(p: Params, s: Joint, acc: real)
    requires p.dt > 0.0 && p.vMax >= 0.0
    ensures Advance(p, Neg(s), -acc) == Neg(Advance(p, s, acc))
  {
    var x := acc * p.dt;
    assert (-acc) * p.dt == -x;
    var w := Advance(p, s, acc).v;
    assert Advance(p, Neg(s), -acc).v == -w;
    assert (-w) * p.dt == -(w * p.dt);
    assert (-w - (-s.v)) / p.dt == -((w - s.v) / p.dt);
  }

  ghost predicate Inside(p: Params, n: nat, lo: real, hi: real, s: Joint) {
    Below(p, n, hi, s) && Below(p, n, -lo, Neg(s))
  }

  lemma InsideStays(p: Params, n: nat, lo: real, hi: real, s: Joint, t: real)
    requires Tuned(p, n) && Inside(p, n, lo, hi, s) && lo <= t <= hi
    ensures Inside(p, n, lo, hi, StepJoint(p, s, t))
  {
    hide Below, Tuned, StepJoint;
    BelowStays(p, n, hi, s, t);
    BelowStays(p, n, -lo, Neg(s), -t);
    TunedPositive(p, n);
    StepMirrors(p, s, t);
  }

  lemma TunedPositive(p: Params, n: nat)
    requires Tuned(p, n)
    ensures p.Positive()
  {
  }

  lemma RestIsInside(p: Params, n: nat, lo: real, hi: real, q: real)
    requires p.Positive() && lo <= q <= hi
    ensures Inside(p, n, lo, hi, Rest(q))
  {
    hide Below;
    RestIsBelow(p, n, hi, q);
    RestIsBelow(p, n, -lo, -q);
  }

  ghost predicate AllWithin(targets: seq<real>, lo: real, hi: real) {
    forall i | 0 <= i < |targets| :: lo <= targets[i] <= hi
  }

  lemma {:induction false} RunStaysInside(p: Params, n: nat, lo: real, hi: real, s: Joint, targets: seq<real>)
    requires Tuned(p, n) && Inside(p, n, lo, hi, s) && AllWithin(targets, lo, hi)
    ensures Inside(p, n, lo, hi, Run(p, s, targets))
  {
    TunedPositive(p, n);
    hide Inside, Tuned;
    if targets != [] {
      var init := targets[..|targets| - 1];
      RunStaysInside(p, n, lo, hi, s, init);
      InsideStays(p, n, lo, hi, Run(p, s, init), targets[|targets| - 1]);
    }
  }

  /** Containment, for every start at rest and every sequence of targets, however they jump. */
  lemma Containment(p: Params, n: nat, lo: real, hi: real, q0: real, targets: seq<real>)
    requires Tuned(p, n) && lo <= q0 <= hi && AllWithin(targets, lo, hi)
    ensures lo <= Run(p, Rest(q0), targets).q <= hi
  {
    RestIsInside(p, n, lo, hi, q0);
    RunStaysInside(p, n, lo, hi, Rest(q0), targets);
  }

  // ------------------------------------------------------------ the shipped constants

  const SHIPPED := Params(0.001, 1.0, 4.0, 3000.0, 10.0)

  lemma PowSix(b: real)
    ensures Pow(b, 6) == b * b * b * b * b * b
  {
    assert Pow(b, 6) == b * Pow(b, 5);
    assert Pow(b, 5) == b * Pow(b, 4);
    assert Pow(b, 4) == b * Pow(b, 3);
    assert Pow(b, 3) == b * Pow(b, 2);
    assert Pow(b, 2) == b * Pow(b, 1);
    assert Pow(b, 1) == b;
  }

  /**
   * wn * vMax exceeds aMax for the shipped constants, yet six facets show that the pull never asks for more than
   * aMax; no facets show that braking at aMax would do as well.
   */
  lemma ShippedTuned()
    ensures Tuned(SHIPPED, 6) && Firm(SHIPPED, 6)
    ensures Tuned(SHIPPED, 0) && !Firm(SHIPPED, 0)
  {
    PowSix(Ratio(6));
    assert Ratio(6) == 6.0 / 7.0;
    assert Pow(Ratio(6), 6) == 46656.0 / 117649.0;
    assert Pow(Ratio(0), 0) == 1.0;
  }
}
