/**
 * Moves so small that no clamp acts: there the tick length alone decides.  The filter keeps every
 * small run inside the range of its targets exactly when h*h + 2*h <= 2, h being wn * dt.
 */
module FilterSmallMoves {
  import opened Numeric
  import opened ReferenceFilter
  import opened FilterContainment

  /** Every run inside a range no wider than r stays inside it. */
  ghost predicate ContainedUpTo(p: Params, r: real)
    requires p.dt > 0.0
  {
    forall lo: real, hi: real, q0: real, targets: seq<real> ::
      lo <= q0 <= hi && hi - lo <= r && AllWithin(targets, lo, hi) ==> lo <= Run(p, Rest(q0), targets).q <= hi
  }

  ghost predicate SmallMovesContained(p: Params)
    requires p.dt > 0.0
  {
    exists r: real :: r > 0.0 && ContainedUpTo(p, r)
  }

  // ------------------------------------------------------------ ticks without clamps

  /** What a rate x adds in one tick. */
  function Over(p: Params, x: real): real { x * p.dt }

  lemma OverOrder(p: Params, x: real, y: real)
    requires p.dt > 0.0
    ensures x <= y <==> Over(p, x) <= Over(p, y)
  {
    OverOrderCore(p.dt, x, y, Over(p, x), Over(p, y));
  }

  lemma OverOrderCore(dt: real, x: real, y: real, xo: real, yo: real)
    requires dt > 0.0 && xo == x * dt && yo == y * dt
    ensures x <= y <==> xo <= yo
  {
    if x <= y {
      MulNonneg(y - x, dt);
    } else {
      MulPositive(x - y, dt);
    }
  }

  lemma OverOdd(p: Params, x: real)
    ensures Over(p, -x) == -Over(p, x)
  {
  }

  /** One tick of the bare second-order filter. */
  function Linear(p: Params, s: Joint, pull: real): Joint {
    var v := s.v + Over(p, pull);
    Joint(s.q + Over(p, v), v, pull)
  }

  lemma Unclamped(p: Params, s: Joint, t: real, pull: real)
    requires p.Positive() && pull == Pull(p, s, t)
    requires Abs(pull) <= p.aMax && Abs(pull - s.a) <= p.D() && Abs(s.v + Over(p, pull)) <= p.vMax
    ensures StepJoint(p, s, t) == Linear(p, s, pull)
  {
    hide Pull, Params.D, Advance, Over, Linear;
    assert Acc(p, s, t) == pull;
    UnclampedAdvance(p, s, pull);
  }

  lemma UnclampedAdvance(p: Params, s: Joint, pull: real)
    requires p.Positive() && -p.vMax <= s.v + Over(p, pull) <= p.vMax
    ensures Advance(p, s, pull) == Linear(p, s, pull)
  {
    var w := Advance(p, s, pull);
    assert w.a * p.dt == w.v - s.v;
    CancelEq(w.a, pull, p.dt);
  }

  // ------------------------------------------------------------ short ticks keep small runs inside

  /** The largest pull inside a range of width r that vr crosses in one tick. */
  function Ask(p: Params, r: real, vr: real): real { p.Kp() * r + p.Kd() * vr }

  ghost predicate Small(p: Params, r: real, vr: real) {
    && vr > 0.0 && Over(p, vr) == r && r > 0.0
    && Ask(p, r, vr) <= p.aMax && 2.0 * Ask(p, r, vr) <= p.D() && vr + Over(p, Ask(p, r, vr)) <= p.vMax
  }

  /** For long ticks: the previous command was inside as well. */
  ghost predicate Trailing(p: Params, lo: real, hi: real, s: Joint) {
    lo <= s.q <= hi && lo <= s.q - Over(p, s.v) <= hi
  }

  /** For short ticks: the velocity points at neither wall too fast. */
  ghost predicate Braced(p: Params, lo: real, hi: real, s: Joint) {
    lo <= s.q <= hi && Slack(p, hi, s) >= 0.0 && Slack(p, -lo, Neg(s)) >= 0.0
  }

  ghost predicate Settled(p: Params, lo: real, hi: real, s: Joint) {
    if 2.0 * p.H() >= 1.0 then Trailing(p, lo, hi, s) else Braced(p, lo, hi, s)
  }

  ghost predicate ShortTick(p: Params) { p.H() * p.H() + 2.0 * p.H() <= 2.0 }

  lemma SettledInside(p: Params, lo: real, hi: real, s: Joint)
    requires Settled(p, lo, hi, s)
    ensures lo <= s.q <= hi
  {
  }

  lemma TrailingSpeed(p: Params, lo: real, hi: real, vr: real, s: Joint)
    requires p.Positive() && Trailing(p, lo, hi, s) && hi - lo <= Over(p, vr)
    ensures Abs(s.v) <= vr
  {
    hide Over;
    OverOrder(p, s.v, vr);
    OverOrder(p, -s.v, vr);
    OverOdd(p, s.v);
  }

  lemma SlackSpeed(p: Params, hi: real, vr: real, s: Joint)
    requires p.Positive() && 2.0 * p.H() < 1.0 && Slack(p, hi, s) >= 0.0 && 0.0 <= hi - s.q <= Over(p, vr)
    ensures s.v <= vr
  {
    var e := hi - s.q;
    SlackTop(p, hi, s, e, p.wn * e);
    OverIs(p, vr);
    hide Slack, Over;
    SlackSpeedCore(p.wn, p.dt, p.H(), e, s.v, vr, Over(p, vr), p.wn * e);
  }

  lemma SlackTop(p: Params, hi: real, s: Joint, e: real, top: real)
    requires e == hi - s.q && top == p.wn * e
    ensures Slack(p, hi, s) == top - s.v
  {
  }

  lemma OverIs(p: Params, x: real)
    ensures Over(p, x) == x * p.dt
  {
  }

  lemma SlackSpeedCore(wn: real, dt: real, h: real, e: real, v: real, vr: real, r: real, top: real)
    requires dt > 0.0 && h == wn * dt && 2.0 * h < 1.0 && 0.0 <= e <= r
    requires r == vr * dt && top == wn * e && v <= top
    ensures v <= vr
  {
    MulNonneg(top - v, dt);
    MulNonneg(1.0 - h, e);
    assert top * dt == h * e;
    CancelLe(v, vr, dt);
  }

  lemma SettledSpeed(p: Params, lo: real, hi: real, vr: real, s: Joint)
    requires p.Positive() && Settled(p, lo, hi, s) && hi - lo <= Over(p, vr)
    ensures Abs(s.v) <= vr
  {
    hide Over, Slack, Params.H;
    if 2.0 * p.H() >= 1.0 {
      TrailingSpeed(p, lo, hi, vr, s);
    } else {
      SlackSpeed(p, hi, vr, s);
      SlackSpeed(p, -lo, vr, Neg(s));
    }
  }

  lemma KpPositive(p: Params)
    requires p.Positive()
    ensures p.Kp() > 0.0 && p.Kd() > 0.0
  {
    ProductPositive(p.wn, p.wn, p.Kp());
  }

  lemma PullWithin(p: Params, r: real, vr: real, s: Joint, t: real)
    requires p.Positive() && Abs(t - s.q) <= r && Abs(s.v) <= vr
    ensures Abs(Pull(p, s, t)) <= Ask(p, r, vr)
  {
    hide Params.Kp, Params.Kd;
    KpPositive(p);
    PullCore(p.Kp(), p.Kd(), t - s.q, s.v, r, vr);
  }

  lemma PullCore(kp: real, kd: real, e: real, v: real, r: real, vr: real)
    requires kp > 0.0 && kd > 0.0 && -r <= e <= r && -vr <= v <= vr
    ensures -(kp * r + kd * vr) <= kp * e - kd * v <= kp * r + kd * vr
  {
    MulNonneg(kp, r - e);
    MulNonneg(kp, r + e);
    MulNonneg(kd, vr - v);
    MulNonneg(kd, vr + v);
  }

  /** A mean of three commands. */
  function Mean(h: real, q: real, last: real, t: real): real {
    (2.0 - 2.0 * h - h * h) * q + (2.0 * h - 1.0) * last + (h * h) * t
  }

  /** The next command as a weighted mean of command, previous command and target. */
  lemma LinearMean(p: Params, s: Joint, t: real)
    ensures Linear(p, s, Pull(p, s, t)).q == Mean(p.H(), s.q, s.q - Over(p, s.v), t)
  {
    assert Pull(p, s, t) == p.wn * p.wn * (t - s.q) - 2.0 * p.wn * s.v;
    hide Pull, Mean;
    MeanCore(p.wn, p.dt, s.q, s.v, t, Pull(p, s, t));
  }

  lemma MeanCore(wn: real, dt: real, q: real, v: real, t: real, pull: real)
    requires pull == wn * wn * (t - q) - 2.0 * wn * v
    ensures q + (v + pull * dt) * dt == Mean(wn * dt, q, q - v * dt, t)
  {
    var x := wn * dt;
    assert pull * dt * dt == (x * x) * (t - q) - 2.0 * x * (v * dt);
  }

  lemma MeanWithin(h: real, x: real, y: real, z: real, lo: real, hi: real)
    requires 2.0 * h >= 1.0 && h * h + 2.0 * h <= 2.0
    requires lo <= x <= hi && lo <= y <= hi && lo <= z <= hi
    ensures lo <= Mean(h, x, y, z) <= hi
  {
    var a, b, c := 2.0 - 2.0 * h - h * h, 2.0 * h - 1.0, h * h;
    assert c >= 0.0;
    ThreeWay(a, b, c, x - lo, y - lo, z - lo);
    ThreeWay(a, b, c, hi - x, hi - y, hi - z);
  }

  lemma ThreeWay(a: real, b: real, c: real, x: real, y: real, z: real)
    requires a >= 0.0 && b >= 0.0 && c >= 0.0 && x >= 0.0 && y >= 0.0 && z >= 0.0
    ensures a * x + b * y + c * z >= 0.0
  {
    MulNonneg(a, x);
    MulNonneg(b, y);
    MulNonneg(c, z);
  }

  lemma TrailingStays(p: Params, lo: real, hi: real, s: Joint, t: real)
    requires p.Positive() && ShortTick(p) && 2.0 * p.H() >= 1.0
    requires Trailing(p, lo, hi, s) && lo <= t <= hi
    ensures Trailing(p, lo, hi, Linear(p, s, Pull(p, s, t)))
  {
    hide Pull, Params.H, Mean, Over;
    LinearMean(p, s, t);
    MeanWithin(p.H(), s.q, s.q - Over(p, s.v), t, lo, hi);
  }

  lemma LinearTicked(p: Params, s: Joint, pull: real, top: real)
    requires pull <= top
    ensures Ticked(p, top, s, Linear(p, s, pull))
  {
  }

  lemma LinearKeepsSlack(p: Params, hi: real, s: Joint, t: real)
    requires p.Positive() && 2.0 * p.H() < 1.0 && s.q <= hi && t <= hi && Slack(p, hi, s) >= 0.0
    ensures var w := Linear(p, s, Pull(p, s, t)); w.q <= hi && Slack(p, hi, w) >= 0.0
  {
    hide Pull, Slack, Params.H, Linear;
    PullMonotone(p, s, t, hi);
    LinearTicked(p, s, Pull(p, s, t), Pull(p, s, hi));
    var w := Linear(p, s, Pull(p, s, t));
    SlackStaysNonneg(p, hi, s, w);
    PositionStays(p, hi, s, w);
  }

  lemma LinearMirrors(p: Params, s: Joint, pull: real)
    ensures Linear(p, Neg(s), -pull) == Neg(Linear(p, s, pull))
  {
  }

  lemma BracedStays(p: Params, lo: real, hi: real, s: Joint, t: real)
    requires p.Positive() && 2.0 * p.H() < 1.0 && Braced(p, lo, hi, s) && lo <= t <= hi
    ensures Braced(p, lo, hi, Linear(p, s, Pull(p, s, t)))
  {
    hide Pull, Slack, Params.H, Linear;
    LinearKeepsSlack(p, hi, s, t);
    PullMirrors(p, s, t);
    LinearKeepsSlack(p, -lo, Neg(s), -t);
    LinearMirrors(p, s, Pull(p, s, t));
  }

  lemma LinearStaysSettled(p: Params, lo: real, hi: real, s: Joint, t: real)
    requires p.Positive() && ShortTick(p) && Settled(p, lo, hi, s) && lo <= t <= hi
    ensures Settled(p, lo, hi, Linear(p, s, Pull(p, s, t)))
  {
    hide Pull, Params.H, ShortTick, Trailing, Braced, Linear;
    if 2.0 * p.H() >= 1.0 {
      TrailingStays(p, lo, hi, s, t);
    } else {
      BracedStays(p, lo, hi, s, t);
    }
  }

  ghost predicate SmallIn(p: Params, lo: real, hi: real, r: real, vr: real) {
    p.Positive() && ShortTick(p) && Small(p, r, vr) && lo <= hi && hi - lo <= r
  }

  lemma SmallStep(p: Params, lo: real, hi: real, r: real, vr: real, s: Joint, t: real)
    requires SmallIn(p, lo, hi, r, vr) && Settled(p, lo, hi, s) && lo <= t <= hi && Abs(s.a) <= Ask(p, r, vr)
    ensures StepJoint(p, s, t) == Linear(p, s, Pull(p, s, t)) && Abs(Pull(p, s, t)) <= Ask(p, r, vr)
  {
    SettledInside(p, lo, hi, s);
    hide Pull, Ask, Over, Params.D, ShortTick, Settled, StepJoint, Linear;
    SettledSpeed(p, lo, hi, vr, s);
    PullWithin(p, r, vr, s, t);
    var pull, ask := Pull(p, s, t), Ask(p, r, vr);
    OverOrder(p, pull, ask);
    OverOrder(p, -ask, pull);
    OverOdd(p, ask);
    Unclamped(p, s, t, pull);
  }

  lemma RestSettled(p: Params, lo: real, hi: real, q: real)
    requires p.Positive() && lo <= q <= hi
    ensures Settled(p, lo, hi, Rest(q))
  {
    MulNonneg(p.wn, hi - q);
    MulNonneg(p.wn, q - lo);
  }

  lemma AskNonneg(p: Params, r: real, vr: real)
    requires p.Positive() && r >= 0.0 && vr >= 0.0
    ensures Ask(p, r, vr) >= 0.0
  {
    hide Params.Kp, Params.Kd;
    KpPositive(p);
    MulNonneg(p.Kp(), r);
    MulNonneg(p.Kd(), vr);
  }

  lemma {:induction false} SmallRun(p: Params, lo: real, hi: real, r: real, vr: real, q0: real, targets: seq<real>)
    requires SmallIn(p, lo, hi, r, vr) && lo <= q0 <= hi && AllWithin(targets, lo, hi)
    ensures var s := Run(p, Rest(q0), targets); Settled(p, lo, hi, s) && Abs(s.a) <= Ask(p, r, vr)
  {
    hide Pull, Ask, StepJoint, Settled, ShortTick, Linear, Over, Params.D;
    if targets == [] {
      AskNonneg(p, r, vr);
      RestSettled(p, lo, hi, q0);
    } else {
      var init, t := targets[..|targets| - 1], targets[|targets| - 1];
      SmallRun(p, lo, hi, r, vr, q0, init);
      SmallStep(p, lo, hi, r, vr, Run(p, Rest(q0), init), t);
      LinearStaysSettled(p, lo, hi, Run(p, Rest(q0), init), t);
      LinearAcc(p, Run(p, Rest(q0), init), Pull(p, Run(p, Rest(q0), init), t));
    }
  }

  lemma LinearAcc(p: Params, s: Joint, pull: real)
    ensures Linear(p, s, pull).a == pull
  {
  }

  // ------------------------------------------------------------ a range small enough exists

  lemma Fraction(limit: real, c: real) returns (x: real)
    requires limit > 0.0 && c > 0.0
    ensures x > 0.0 && c * x == limit
  {
    x := limit / c;
    assert c * x == limit;
    if x <= 0.0 {
      MulNonneg(c, -x);
      assert false;
    }
  }

  lemma ScaleDown(c: real, x: real, y: real, limit: real)
    requires c > 0.0 && x <= y && c * y == limit
    ensures c * x <= limit
  {
    MulNonneg(c, y - x);
  }

  /** A common x that keeps three multiples of it under three limits. */
  lemma ThreeLimits(c: real, c': real, a: real, d: real, v: real) returns (x: real)
    requires c > 0.0 && c' > 0.0 && a > 0.0 && d > 0.0 && v > 0.0
    ensures x > 0.0 && c * x <= a && c * x <= d && c' * x <= v
  {
    var x1 := Fraction(a, c);
    var x2 := Fraction(d, c);
    var x3 := Fraction(v, c');
    x := Min(x1, Min(x2, x3));
    ScaleDown(c, x, x1, a);
    ScaleDown(c, x, x2, d);
    ScaleDown(c', x, x3, v);
  }

  /** The largest pull per unit of velocity, for Ask. */
  function AskRate(p: Params): real { p.Kp() * p.dt + p.Kd() }

  /** The velocity after a tick at that pull, per unit of velocity. */
  function AskTick(p: Params): real { 1.0 + AskRate(p) * p.dt }

  lemma SmallExists(p: Params) returns (r: real, vr: real)
    requires p.Positive()
    ensures Small(p, r, vr)
  {
    hide Params.D, AskRate, AskTick, Small, Over;
    AskRatePositive(p);
    DPositive(p);
    vr := ThreeLimits(AskRate(p), AskTick(p), p.aMax, p.D() / 2.0, p.vMax);
    r := Over(p, vr);
    SmallFrom(p, vr, AskRate(p), AskTick(p));
  }

  lemma AskRatePositive(p: Params)
    requires p.Positive()
    ensures AskRate(p) > 0.0 && AskTick(p) > 0.0
  {
    hide Params.Kp, Params.Kd;
    KpPositive(p);
    MulPositive(p.Kp(), p.dt);
    MulPositive(AskRate(p), p.dt);
  }

  lemma SmallFrom(p: Params, vr: real, c: real, c1: real)
    requires p.Positive() && vr > 0.0 && c == AskRate(p) && c1 == AskTick(p)
    requires c * vr <= p.aMax && c * vr <= p.D() / 2.0 && c1 * vr <= p.vMax
    ensures Small(p, Over(p, vr), vr)
  {
    AskOver(p, vr, c);
    OverAskTick(p, vr, c, c1);
    hide Ask, AskRate, AskTick, Params.D;
    MulPositive(vr, p.dt);
  }

  lemma AskOver(p: Params, vr: real, c: real)
    requires c == AskRate(p)
    ensures Ask(p, Over(p, vr), vr) == c * vr
  {
    hide Params.Kp, Params.Kd;
    Distribute2(c, p.Kp() * p.dt, p.Kd(), vr);
  }

  lemma Distribute2(c: real, x: real, y: real, k: real)
    requires c == x + y
    ensures c * k == x * k + y * k
  {
  }

  lemma OverAskTick(p: Params, vr: real, c: real, c1: real)
    requires c == AskRate(p) && c1 == AskTick(p)
    ensures vr + Over(p, c * vr) == c1 * vr
  {
    hide AskRate;
    Distribute2(c1, 1.0, c * p.dt, vr);
  }

  // ------------------------------------------------------------ long ticks leave any range

  /** The pull toward 0 from rest at r, and the pull back to r one tick later. */
  function Away(p: Params, r: real): real { p.Kp() * r }

  function Rebound(p: Params): real { p.Kp() * (p.H() * p.H()) + p.Kd() * (p.Kp() * p.dt) }

  function Back(p: Params, r: real): real { Rebound(p) * r }

  ghost predicate Calm(p: Params, r: real) {
    && 0.0 <= Away(p, r) && 0.0 <= Back(p, r)
    && Away(p, r) + Back(p, r) <= p.aMax && Away(p, r) + Back(p, r) <= p.D()
    && Over(p, Away(p, r) + Back(p, r)) <= p.vMax
  }

  function After1(p: Params, r: real): Joint { Linear(p, Rest(r), -Away(p, r)) }

  /** How far the second command lands beyond r. */
  function Excess(h: real, r: real): real { (h * h) * (h * h + 2.0 * h - 2.0) * r }

  lemma OverZero(p: Params)
    ensures Over(p, 0.0) == 0.0
  {
  }

  lemma FirstPull(p: Params, r: real)
    ensures Pull(p, Rest(r), 0.0) == -Away(p, r)
  {
  }

  lemma FirstTick(p: Params, r: real)
    requires p.Positive() && Calm(p, r)
    ensures StepJoint(p, Rest(r), 0.0) == After1(p, r)
  {
    hide Away, Back, Pull, Params.D, Linear, Over;
    var x, y := Away(p, r), Back(p, r);
    FirstPull(p, r);
    OverOrder(p, x, x + y);
    OverOrder(p, 0.0, x);
    OverOdd(p, x);
    OverZero(p);
    Unclamped(p, Rest(r), 0.0, -x);
  }

  lemma SecondPull(p: Params, r: real)
    ensures Pull(p, After1(p, r), r) == Back(p, r)
  {
    SecondPullCore(p.Kp(), p.Kd(), p.wn, p.dt, r);
  }

  lemma SecondPullCore(kp: real, kd: real, wn: real, dt: real, r: real)
    requires kp == wn * wn
    ensures kp * (r - (r + (0.0 + (-(kp * r)) * dt) * dt)) - kd * (0.0 + (-(kp * r)) * dt)
         == (kp * ((wn * dt) * (wn * dt)) + kd * (kp * dt)) * r
  {
  }

  lemma After1Motion(p: Params, r: real)
    ensures After1(p, r).v == -Over(p, Away(p, r)) && After1(p, r).a == -Away(p, r)
  {
    hide Away;
    OverOdd(p, Away(p, r));
  }

  lemma SecondTick(p: Params, r: real)
    requires p.Positive() && Calm(p, r)
    ensures StepJoint(p, After1(p, r), r) == Linear(p, After1(p, r), Back(p, r))
  {
    hide Away, Back, Pull, Params.D, Linear, Over, After1;
    var x, y := Away(p, r), Back(p, r);
    SecondPull(p, r);
    After1Motion(p, r);
    OverOrder(p, x, x + y);
    OverOrder(p, y, x + y);
    OverOrder(p, 0.0, x);
    OverOrder(p, 0.0, y);
    OverZero(p);
    Unclamped(p, After1(p, r), r, y);
  }

  lemma LandingCore(kp: real, kd: real, wn: real, dt: real, h: real, back: real, r: real)
    requires kp == wn * wn && kd == 2.0 * wn && h == wn * dt && back == kp * (h * h) + kd * (kp * dt)
    ensures ((back * r) * dt) * dt == ((h * h) * (h * h) + 2.0 * h * (h * h)) * r
    ensures ((kp * r) * dt) * dt == (h * h) * r
  {
    assert back * dt * dt == (h * h) * (h * h) + 2.0 * h * (h * h) by {
      assert kp * (h * h) * dt * dt == (h * h) * (h * h);
      assert kd * (kp * dt) * dt * dt == 2.0 * h * (h * h);
    }
    assert ((back * r) * dt) * dt == (back * dt * dt) * r;
  }

  lemma OverAdd(p: Params, x: real, y: real)
    ensures Over(p, x + y) == Over(p, x) + Over(p, y)
  {
  }

  lemma LandingOver(p: Params, r: real)
    ensures Over(p, Over(p, Back(p, r))) - 2.0 * Over(p, Over(p, Away(p, r))) == Excess(p.H(), r)
  {
    var h := p.H();
    LandingCore(p.Kp(), p.Kd(), p.wn, p.dt, h, Rebound(p), r);
    assert Excess(h, r) == ((h * h) * (h * h) + 2.0 * h * (h * h)) * r - 2.0 * ((h * h) * r);
  }

  lemma Landing(p: Params, r: real)
    ensures Linear(p, After1(p, r), Back(p, r)).q == r + Excess(p.H(), r)
  {
    hide Over, Away, Back, Excess, Params.H;
    LandingOver(p, r);
    After1Motion(p, r);
    var x, y := Over(p, Away(p, r)), Over(p, Back(p, r));
    assert After1(p, r).q == r - Over(p, x) by { OverOdd(p, x); }
    OverAdd(p, -x, y);
    OverOdd(p, x);
  }

  lemma RunOfTwo(p: Params, s: Joint, t1: real, t2: real)
    requires p.dt > 0.0
    ensures Run(p, s, [t1, t2]) == StepJoint(p, StepJoint(p, s, t1), t2)
  {
    hide StepJoint;
    assert [t1, t2][..1] == [t1] && [t1][..0] == [];
    assert Run(p, s, [t1]) == StepJoint(p, Run(p, s, []), t1);
  }

  /** From rest at r toward 0 and back toward r: where the second command lands. */
  lemma TwoTicks(p: Params, r: real)
    requires p.Positive() && Calm(p, r)
    ensures Run(p, Rest(r), [0.0, r]).q == r + Excess(p.H(), r)
  {
    hide StepJoint, Calm, Linear, After1, Back, Excess, Params.H, Run;
    FirstTick(p, r);
    SecondTick(p, r);
    Landing(p, r);
    RunOfTwo(p, Rest(r), 0.0, r);
  }

  lemma ReboundPositive(p: Params)
    requires p.Positive()
    ensures p.Kp() > 0.0 && Rebound(p) > 0.0
  {
    KpPositive(p);
    HPositive(p);
    hide Params.Kp, Params.Kd, Params.H;
    var hh := p.H() * p.H();
    ProductPositive(p.H(), p.H(), hh);
    ProductPositive(p.Kp(), hh, p.Kp() * hh);
    MulPositive(p.Kp(), p.dt);
    MulPositive(p.Kd(), p.Kp() * p.dt);
  }

  lemma CalmFrom(kp: real, c: real, dt: real, x: real, r: real, aMax: real, d: real, vMax: real)
    requires kp > 0.0 && c > 0.0 && dt > 0.0 && 0.0 < r <= x
    requires (kp + c) * x <= aMax && (kp + c) * x <= d && ((kp + c) * dt) * x <= vMax
    ensures kp * r >= 0.0 && c * r >= 0.0
    ensures kp * r + c * r <= aMax && kp * r + c * r <= d && (kp * r + c * r) * dt <= vMax
  {
    MulPositive(kp, r);
    MulPositive(c, r);
    MulNonneg(kp + c, x - r);
    MulNonneg((kp + c) * (x - r), dt);
    assert ((kp + c) * dt) * x - (kp * r + c * r) * dt == ((kp + c) * (x - r)) * dt;
  }

  /** What the two pulls ask for per unit of distance, as acceleration and as velocity of one tick. */
  function CalmRate(p: Params): real { p.Kp() + Rebound(p) }

  function CalmTick(p: Params): real { CalmRate(p) * p.dt }

  lemma CalmRatePositive(p: Params)
    requires p.Positive()
    ensures CalmRate(p) > 0.0 && CalmTick(p) > 0.0
  {
    hide Params.Kp, Rebound;
    ReboundPositive(p);
    MulPositive(CalmRate(p), p.dt);
  }

  ghost predicate CalmLimits(p: Params, x: real) {
    CalmRate(p) * x <= p.aMax && CalmRate(p) * x <= p.D() && CalmTick(p) * x <= p.vMax
  }

  lemma CalmExists(p: Params, limit: real) returns (r: real)
    requires p.Positive() && limit > 0.0
    ensures Calm(p, r) && 0.0 < r <= limit
  {
    hide CalmRate, CalmTick, Params.D, Calm;
    CalmRatePositive(p);
    DPositive(p);
    var x := ThreeLimits(CalmRate(p), CalmTick(p), p.aMax, p.D(), p.vMax);
    assert CalmLimits(p, x);
    hide CalmLimits;
    r := Min(x, limit);
    CalmBelow(p, x, r);
  }

  lemma CalmBelow(p: Params, x: real, r: real)
    requires p.Positive() && 0.0 < r <= x && CalmLimits(p, x)
    ensures Calm(p, r)
  {
    hide Params.Kp, Rebound, Params.D;
    ReboundPositive(p);
    CalmFrom(p.Kp(), Rebound(p), p.dt, x, r, p.aMax, p.D(), p.vMax);
  }

  lemma LongTickEscapes(p: Params, limit: real) returns (r: real)
    requires p.Positive() && limit > 0.0 && !ShortTick(p)
    ensures 0.0 < r <= limit && Run(p, Rest(r), [0.0, r]).q > r
  {
    r := CalmExists(p, limit);
    TwoTicks(p, r);
    HPositive(p);
    ExcessPositive(p.H(), r);
  }

  lemma ExcessPositive(h: real, r: real)
    requires h > 0.0 && r > 0.0 && h * h + 2.0 * h > 2.0
    ensures Excess(h, r) > 0.0
  {
    var hh := h * h;
    ProductPositive(h, h, hh);
    ProductPositive(hh, hh + 2.0 * h - 2.0, hh * (hh + 2.0 * h - 2.0));
    MulPositive(hh * (hh + 2.0 * h - 2.0), r);
  }

  // ------------------------------------------------------------ exactly

  lemma SmallMovesContainedIff(p: Params)
    requires p.Positive()
    ensures SmallMovesContained(p) <==> ShortTick(p)
  {
    if ShortTick(p) {
      var r, vr := SmallExists(p);
      hide ShortTick, Small;
      assert r > 0.0 by { SmallPositive(p, r, vr); }
      forall lo: real, hi: real, q0: real, targets: seq<real>
        | lo <= q0 <= hi && hi - lo <= r && AllWithin(targets, lo, hi)
        ensures lo <= Run(p, Rest(q0), targets).q <= hi
      {
        SmallRun(p, lo, hi, r, vr, q0, targets);
        SettledInside(p, lo, hi, Run(p, Rest(q0), targets));
      }
      assert ContainedUpTo(p, r);
    } else if SmallMovesContained(p) {
      var limit: real :| limit > 0.0 && ContainedUpTo(p, limit);
      var r := LongTickEscapes(p, limit);
      Refuted(p, limit, r);
      assert false;
    }
  }

  lemma Refuted(p: Params, limit: real, r: real)
    requires p.dt > 0.0 && 0.0 < r <= limit && Run(p, Rest(r), [0.0, r]).q > r
    ensures !ContainedUpTo(p, limit)
  {
    hide Run;
    assert AllWithin([0.0, r], 0.0, r);
  }

  lemma SmallPositive(p: Params, r: real, vr: real)
    requires Small(p, r, vr)
    ensures r > 0.0
  {
  }
}
