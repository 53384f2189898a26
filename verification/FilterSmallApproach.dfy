/**
 * A constant target and moves so small that no clamp acts.  Critical damping keeps such a move from passing its
 * target, and makes it monotone, exactly when h*h + 2*h <= 2, h being wn * dt.
 */
module FilterSmallApproach {
  import opened Numeric
  import opened ReferenceFilter
  import opened FilterContainment
  import opened FilterNoOvershoot
  import opened FilterSmallMoves

  ghost predicate NeverPassesUpTo(p: Params, r: real)
    requires p.dt > 0.0
  {
    forall q0: real, t: real :: Abs(t - q0) <= r ==> NeverPasses(p, q0, t)
  }

  ghost predicate ApproachesUpTo(p: Params, r: real)
    requires p.dt > 0.0
  {
    forall q0: real, t: real :: Abs(t - q0) <= r ==> Approaches(p, q0, t)
  }

  ghost predicate SmallMovesNeverPass(p: Params)
    requires p.dt > 0.0
  {
    exists r: real :: r > 0.0 && NeverPassesUpTo(p, r)
  }

  ghost predicate SmallMovesApproach(p: Params)
    requires p.dt > 0.0
  {
    exists r: real :: r > 0.0 && ApproachesUpTo(p, r)
  }

  /** The distance left now, and the distance left one tick before. */
  function Left(t: real, s: Joint): real { t - s.q }

  function Last(p: Params, t: real, s: Joint): real { Left(t, s) + Over(p, s.v) }

  /** The distance left after the next tick: the filter as a recurrence of second order. */
  function Next(h: real, e: real, d: real): real { (2.0 - 2.0 * h - h * h) * e + (2.0 * h - 1.0) * d }

  lemma LinearNext(p: Params, s: Joint, t: real)
    ensures var w := Linear(p, s, Pull(p, s, t));
      Left(t, w) == Next(p.H(), Left(t, s), Last(p, t, s)) && Last(p, t, w) == Left(t, s)
  {
    LinearMean(p, s, t);
    hide Pull, Params.H, Over;
    NextOfMean(p.H(), s.q, s.q - Over(p, s.v), t);
  }

  lemma NextOfMean(h: real, q: real, last: real, t: real)
    ensures t - Mean(h, q, last, t) == Next(h, t - q, t - last)
  {
  }

  // ------------------------------------------------------------ short ticks approach

  /** Not moving away, and the next tick will not either. */
  ghost predicate Nearing(h: real, e: real, d: real) { 0.0 <= e <= d && Next(h, e, d) <= e }

  lemma NearingStays(h: real, e: real, d: real)
    requires h > 0.0 && h * h + 2.0 * h <= 2.0 && Nearing(h, e, d) && Next(h, e, d) >= 0.0
    ensures Nearing(h, Next(h, e, d), e)
  {
    NearingCore(2.0 * h - 1.0, h * h, e, d, Next(h, e, d));
  }

  lemma NearingCore(c: real, hh: real, e: real, d: real, e': real)
    requires hh >= 0.0 && c + hh <= 1.0 && 0.0 <= e' <= e <= d && e' == (1.0 - c - hh) * e + c * d
    ensures (1.0 - c - hh) * e' + c * e <= e'
  {
    var u, u' := d - e, e - e';
    assert u' == hh * e - c * u;
    if c <= 0.0 {
      MulNonneg(hh, e');
      MulNonneg(-c, u');
    } else {
      MulNonneg(1.0 - c - hh, u');
      MulNonneg(c, u);
    }
  }

  ghost predicate Nears(p: Params, t: real, s: Joint) { Nearing(p.H(), Left(t, s), Last(p, t, s)) }

  lemma SmallHold(p: Params, r: real, vr: real, q0: real, t: real, k: nat)
    requires SmallIn(p, q0, t, r, vr)
    ensures var s := Hold(p, Rest(q0), t, k);
      q0 <= s.q <= t && StepJoint(p, s, t) == Linear(p, s, Pull(p, s, t))
  {
    hide StepJoint, Linear, Pull, Ask, Settled, ShortTick, Run, Small;
    HoldIsRun(p, Rest(q0), t, k);
    SmallRun(p, q0, t, r, vr, q0, Constant(t, k));
    SettledInside(p, q0, t, Hold(p, Rest(q0), t, k));
    SmallStep(p, q0, t, r, vr, Hold(p, Rest(q0), t, k), t);
  }

  lemma RestLast(p: Params, q0: real, t: real)
    ensures Left(t, Rest(q0)) == Last(p, t, Rest(q0)) == t - q0
  {
    assert Over(p, 0.0) == 0.0;
  }

  lemma RestNears(p: Params, q0: real, t: real)
    requires q0 <= t
    ensures Nears(p, t, Rest(q0))
  {
    RestLast(p, q0, t);
    FirstNext(p.H(), t - q0);
    MulNonneg(p.H() * p.H(), t - q0);
  }

  lemma FirstNext(h: real, e: real)
    ensures h * h >= 0.0 && Next(h, e, e) == e - (h * h) * e
  {
  }

  lemma LinearNears(p: Params, s: Joint, t: real)
    requires p.Positive() && ShortTick(p) && Nears(p, t, s) && Linear(p, s, Pull(p, s, t)).q <= t
    ensures Nears(p, t, Linear(p, s, Pull(p, s, t))) && s.q <= Linear(p, s, Pull(p, s, t)).q
  {
    HPositive(p);
    hide Linear, Pull, Over, Params.H, Next, Last;
    LinearNext(p, s, t);
    NearingStays(p.H(), Left(t, s), Last(p, t, s));
  }

  lemma SmallTickNears(p: Params, r: real, vr: real, q0: real, t: real, k: nat)
    requires SmallIn(p, q0, t, r, vr) && Nears(p, t, Hold(p, Rest(q0), t, k))
    ensures Nears(p, t, Hold(p, Rest(q0), t, k + 1))
    ensures Hold(p, Rest(q0), t, k).q <= Hold(p, Rest(q0), t, k + 1).q <= t
  {
    hide StepJoint, Small;
    SmallHold(p, r, vr, q0, t, k);
    SmallHold(p, r, vr, q0, t, k + 1);
    LinearNears(p, Hold(p, Rest(q0), t, k), t);
  }

  lemma {:induction false} SmallNears(p: Params, r: real, vr: real, q0: real, t: real, k: nat)
    requires SmallIn(p, q0, t, r, vr)
    ensures Nears(p, t, Hold(p, Rest(q0), t, k))
    ensures Hold(p, Rest(q0), t, k).q <= Hold(p, Rest(q0), t, k + 1).q <= t
  {
    hide StepJoint, Nears, Small, ShortTick;
    if k == 0 {
      RestNears(p, q0, t);
    } else {
      SmallNears(p, r, vr, q0, t, k - 1);
      SmallTickNears(p, r, vr, q0, t, k - 1);
    }
    SmallTickNears(p, r, vr, q0, t, k);
  }

  lemma SmallApproaches(p: Params, r: real, vr: real, q0: real, t: real)
    requires p.Positive() && ShortTick(p) && Small(p, r, vr) && Abs(t - q0) <= r
    ensures Approaches(p, q0, t)
    decreases q0 > t
  {
    hide Reached, Hold, Small, ShortTick;
    if q0 <= t {
      forall k: nat ensures Toward(q0, t, Reached(p, q0, t, k), Reached(p, q0, t, k + 1)) {
        SmallNears(p, r, vr, q0, t, k);
        ReachedIsHold(p, q0, t, k);
        ReachedIsHold(p, q0, t, k + 1);
      }
    } else {
      SmallApproaches(p, r, vr, -q0, -t);
      ApproachMirrors(p, q0, t);
    }
  }

  // ------------------------------------------------------------ long ticks pass

  /** What a small move from 0 toward t that never passes keeps: its distances never exceed the first. */
  ghost predicate Lingers(p: Params, r: real, vr: real, t: real, s: Joint) {
    0.0 <= Left(t, s) <= t && 0.0 <= Last(p, t, s) <= t && Abs(s.a) <= Ask(p, r, vr)
  }

  /** The move is small and the tick long, but not longer than one over the natural frequency. */
  ghost predicate LongIn(p: Params, r: real, vr: real, t: real) {
    p.Positive() && Small(p, r, vr) && 0.0 < t <= r && !ShortTick(p) && p.H() <= 1.0
  }

  lemma LingerTick(p: Params, r: real, vr: real, t: real, s: Joint)
    requires p.Positive() && Small(p, r, vr) && t <= r && Lingers(p, r, vr, t, s)
    ensures StepJoint(p, s, t) == Linear(p, s, Pull(p, s, t)) && Abs(Pull(p, s, t)) <= Ask(p, r, vr)
  {
    LingerSpeed(p, vr, t, s);
    hide Pull, Ask, Over, Params.D, Params.H, StepJoint, Linear;
    PullWithin(p, r, vr, s, t);
    var pull, ask := Pull(p, s, t), Ask(p, r, vr);
    OverOrder(p, pull, ask);
    OverOrder(p, -ask, pull);
    OverOdd(p, ask);
    OverAdd(p, s.v, pull);
    Unclamped(p, s, t, pull);
  }

  lemma LingerSpeed(p: Params, vr: real, t: real, s: Joint)
    requires p.Positive() && t <= Over(p, vr) && 0.0 <= Left(t, s) <= t && 0.0 <= Last(p, t, s) <= t
    ensures Abs(s.v) <= vr
  {
    hide Over;
    OverOrder(p, s.v, vr);
    OverOrder(p, -vr, s.v);
    OverOdd(p, vr);
  }

  lemma NextBelow(h: real, e: real, d: real, t: real)
    requires 1.0 <= 2.0 * h <= 2.0 && h * h + 2.0 * h > 2.0 && 0.0 <= e && 0.0 <= d <= t
    ensures Next(h, e, d) <= t
  {
    MulNonneg(h * h + 2.0 * h - 2.0, e);
    MulNonneg(2.0 * h - 1.0, t - d);
    MulNonneg(2.0 - 2.0 * h, t);
  }

  lemma LongTick(h: real)
    requires 0.0 < h <= 1.0 && h * h + 2.0 * h > 2.0
    ensures 2.0 * h > 1.0
  {
    MulNonneg(h, 1.0 - h);
  }

  lemma {:induction false} KeepsLingering(p: Params, r: real, vr: real, t: real, k: nat)
    requires LongIn(p, r, vr, t) && NeverPasses(p, 0.0, t)
    ensures Lingers(p, r, vr, t, Hold(p, Rest(0.0), t, k))
  {
    hide Small, Ask, Last, StepJoint, NeverPasses;
    if k == 0 {
      RestLast(p, 0.0, t);
      SmallAsk(p, r, vr);
    } else {
      KeepsLingering(p, r, vr, t, k - 1);
      LeftNonneg(p, t, k);
      NextLingers(p, r, vr, t, Hold(p, Rest(0.0), t, k - 1));
    }
  }

  lemma SmallAsk(p: Params, r: real, vr: real)
    requires p.Positive() && Small(p, r, vr)
    ensures Ask(p, r, vr) >= 0.0
  {
    hide Ask;
    AskNonneg(p, r, vr);
  }

  lemma LeftNonneg(p: Params, t: real, k: nat)
    requires p.dt > 0.0 && t >= 0.0 && NeverPasses(p, 0.0, t)
    ensures Left(t, Hold(p, Rest(0.0), t, k)) >= 0.0
  {
    hide Reached, Hold;
    ReachedIsHold(p, 0.0, t, k);
    assert OnSide(0.0, t, Reached(p, 0.0, t, k));
  }

  lemma NextLingers(p: Params, r: real, vr: real, t: real, s: Joint)
    requires LongIn(p, r, vr, t) && Lingers(p, r, vr, t, s) && Left(t, StepJoint(p, s, t)) >= 0.0
    ensures Lingers(p, r, vr, t, StepJoint(p, s, t))
  {
    LingerTick(p, r, vr, t, s);
    LinearAcc(p, s, Pull(p, s, t));
    HPositive(p);
    hide Small, Ask, Last, StepJoint, Pull, Linear, Params.H, Next;
    LinearNext(p, s, t);
    LongTick(p.H());
    NextBelow(p.H(), Left(t, s), Last(p, t, s), t);
  }

  /** Three distances in a row. */
  lemma ThreeInARow(p: Params, r: real, vr: real, t: real, k: nat)
    requires LongIn(p, r, vr, t) && NeverPasses(p, 0.0, t)
    ensures Left(t, Hold(p, Rest(0.0), t, k + 2))
         == Next(p.H(), Left(t, Hold(p, Rest(0.0), t, k + 1)), Left(t, Hold(p, Rest(0.0), t, k)))
  {
    var s, w := Hold(p, Rest(0.0), t, k), Hold(p, Rest(0.0), t, k + 1);
    KeepsLingering(p, r, vr, t, k);
    KeepsLingering(p, r, vr, t, k + 1);
    LingerTick(p, r, vr, t, s);
    LingerTick(p, r, vr, t, w);
    hide StepJoint, Linear, Pull, LongIn, Lingers, Last, Next, NeverPasses;
    LinearNext(p, s, t);
    LinearNext(p, w, t);
  }

  // ------------------------------------------------------------ the recurrence turns negative

  /** Even and odd terms, over a power of c, stay on one branch of this hyperbola. */
  ghost predicate OnBranch(c: real, g: real, rad: real, a: real, b: real) {
    b * b + g * (a * b) - c * (a * a) == -c * (rad * rad)
  }

  lemma BranchFloor(c: real, g: real, rad: real, a: real, b: real)
    requires OnBranch(c, g, rad, a, b) && c > 0.0 && g >= 0.0 && rad > 0.0 && a >= 0.0 && b >= 0.0
    ensures a >= rad
  {
    if a < rad {
      MulNonneg(b, b);
      MulNonneg(g, a * b) by { MulNonneg(a, b); }
      MulNonneg(a, rad - a);
      MulPositive(rad, rad - a);
      MulPositive(c, rad * rad - a * a);
      assert false;
    }
  }

  lemma BranchStays(c: real, g: real, rad: real, a: real, b: real, a': real, b': real)
    requires OnBranch(c, g, rad, a, b) && c * a' == c * a - g * b && b' == b - g * a'
    ensures OnBranch(c, g, rad, a', b')
  {
    assert b' * b' + g * (a' * b') == b * b - g * (a' * b) by { assert b' * (b' + g * a') == (b - g * a') * b; }
    assert c * (a' * a') == c * (a * a') - g * (a' * b) by { assert (c * a') * a' == (c * a - g * b) * a'; }
    assert c * (a * a') == c * (a * a) - g * (a * b) by { assert a * (c * a') == a * (c * a - g * b); }
  }

  lemma PowStrict(b: real, n: nat)
    requires b > 0.0
    ensures Pow(b, n) > 0.0
  {
    if n > 0 {
      PowStrict(b, n - 1);
      MulPositive(b, Pow(b, n - 1));
    }
  }

  ghost predicate Nonneg(e: nat -> real) { forall k: nat :: e(k) >= 0.0 }

  /** Three terms in a row. */
  ghost predicate Follows(c: real, g: real, e0: real, e1: real, e2: real) { e2 == c * e0 - g * e1 }

  ghost predicate Recurs(c: real, g: real, rad: real, e: nat -> real) {
    && c > 0.0 && g > 0.0 && rad > 0.0 && OnBranch(c, g, rad, e(0), e(1))
    && forall k: nat :: Follows(c, g, e(k), e(k + 1), e(k + 2))
  }

  /** Terms 2 m and 2 m + 1 over the m-th power of c. */
  ghost predicate Pair(c: real, e: nat -> real, m: nat, a: real, b: real) {
    e(2 * m) == Pow(c, m) * a && e(2 * m + 1) == Pow(c, m) * b
  }

  lemma PairSigns(c: real, e: nat -> real, m: nat, a: real, b: real)
    requires c > 0.0 && Nonneg(e) && Pair(c, e, m, a, b)
    ensures a >= 0.0 && b >= 0.0
  {
    PowStrict(c, m);
    assert e(2 * m) >= 0.0 && e(2 * m + 1) >= 0.0;
    hide Nonneg, Pow;
    FactorNonneg(Pow(c, m), a);
    FactorNonneg(Pow(c, m), b);
  }

  lemma NextPair(c: real, g: real, rad: real, e: nat -> real, m: nat, a: real, b: real, a': real, b': real)
    requires Recurs(c, g, rad, e) && Pair(c, e, m, a, b) && c * a' == c * a - g * b && b' == b - g * a'
    ensures Pair(c, e, m + 1, a', b')
  {
    var k := 2 * m;
    hide Follows, OnBranch;
    assert Follows(c, g, e(k), e(k + 1), e(k + 2));
    assert Follows(c, g, e(k + 1), e(k + 1 + 1), e(k + 1 + 2));
    assert Pow(c, m + 1) == c * Pow(c, m);
    hide Recurs, Pow;
    NextPairCore(c, g, Pow(c, m), e(k), e(k + 1), e(k + 2), e(k + 3), a, b, a', b');
    assert 2 * (m + 1) == k + 2;
  }

  lemma NextPairCore(c: real, g: real, x: real, e0: real, e1: real, e2: real, e3: real,
                     a: real, b: real, a': real, b': real)
    requires e0 == x * a && e1 == x * b && Follows(c, g, e0, e1, e2) && Follows(c, g, e1, e2, e3)
    requires c * a' == c * a - g * b && b' == b - g * a'
    ensures e2 == (c * x) * a' && e3 == (c * x) * b'
  {
    assert (c * x) * a' == x * (c * a');
    assert (c * x) * b' == (c * x) * b - g * ((c * x) * a');
  }

  lemma {:induction false} Sinking(c: real, g: real, rad: real, e: nat -> real, m: nat) returns (a: real, b: real)
    requires Recurs(c, g, rad, e) && Nonneg(e)
    ensures Pair(c, e, m, a, b) && OnBranch(c, g, rad, a, b) && 0.0 <= b <= e(1) - m as real * (g * rad)
  {
    hide OnBranch, Follows;
    if m == 0 {
      a, b := e(0), e(1);
      assert Pow(c, 0) == 1.0;
      PairSigns(c, e, 0, a, b);
    } else {
      var a0, b0 := Sinking(c, g, rad, e, m - 1);
      a := a0 - (g * b0) / c;
      b := b0 - g * a;
      assert c * a == c * a0 - g * b0;
      hide Pair, Recurs, Nonneg;
      NextPair(c, g, rad, e, m - 1, a0, b0, a, b);
      PairSigns(c, e, m, a, b);
      BranchStays(c, g, rad, a0, b0, a, b);
      SinkMore(c, g, rad, e, a, b, b0, m);
    }
  }

  lemma SinkMore(c: real, g: real, rad: real, e: nat -> real, a: real, b: real, b0: real, m: nat)
    requires Recurs(c, g, rad, e) && OnBranch(c, g, rad, a, b) && a >= 0.0 && b >= 0.0 && m > 0
    requires b == b0 - g * a && b0 <= e(1) - (m - 1) as real * (g * rad)
    ensures b <= e(1) - m as real * (g * rad)
  {
    hide OnBranch;
    BranchFloor(c, g, rad, a, b);
    MulNonneg(g, a - rad);
    assert (m - 1) as real * (g * rad) == m as real * (g * rad) - g * rad;
  }

  /** Some term of such a recurrence is negative. */
  lemma TurnsNegative(c: real, g: real, rad: real, e: nat -> real)
    requires Recurs(c, g, rad, e)
    ensures !Nonneg(e)
  {
    if Nonneg(e) {
      ProductPositive(g, rad, g * rad);
      assert e(1) >= 0.0;
      var m := Beyond(e(1), g * rad);
      var a, b := Sinking(c, g, rad, e, m);
      assert false;
    }
  }

  // ------------------------------------------------------------ exactly

  /** The distance left after k ticks from 0. */
  function LeftAfter(p: Params, t: real, k: nat): real
    requires p.dt > 0.0
  {
    Left(t, Hold(p, Rest(0.0), t, k))
  }

  lemma LongFollows(p: Params, r: real, vr: real, t: real, k: nat)
    requires p.Positive() && LongIn(p, r, vr, t) && NeverPasses(p, 0.0, t)
    ensures Follows(Lag(p), Gain(p), LeftAfter(p, t, k), LeftAfter(p, t, k + 1), LeftAfter(p, t, k + 2))
  {
    hide LongIn, NeverPasses, Hold, Next;
    ThreeInARow(p, r, vr, t, k);
    NextByGain(p, LeftAfter(p, t, k + 1), LeftAfter(p, t, k));
  }

  function Lag(p: Params): real { 2.0 * p.H() - 1.0 }

  function Gain(p: Params): real { p.H() * p.H() + 2.0 * p.H() - 2.0 }

  lemma NextByGain(p: Params, e: real, d: real)
    ensures Next(p.H(), e, d) == Lag(p) * d - Gain(p) * e
  {
  }

  lemma FirstBranch(c: real, g: real, h: real, t: real, b: real)
    requires c == 2.0 * h - 1.0 && g == h * h + 2.0 * h - 2.0 && b == t - (h * h) * t
    ensures OnBranch(c, g, h * t, t, b)
  {
    var hh := h * h;
    var d := 1.0 - hh;
    assert b * b == (d * d) * (t * t) && t * b == d * (t * t) by { assert b == d * t; }
    assert b * b + g * (t * b) - c * (t * t) == (d * d + g * d - c) * (t * t);
    assert d * d + g * d - c == -c * hh by { assert d * (d + g) == d * c; }
    assert (h * t) * (h * t) == hh * (t * t);
  }

  lemma FirstTwo(p: Params, r: real, vr: real, t: real)
    requires LongIn(p, r, vr, t) && NeverPasses(p, 0.0, t)
    ensures LeftAfter(p, t, 0) == t && LeftAfter(p, t, 1) == t - (p.H() * p.H()) * t
  {
    hide Small, ShortTick, NeverPasses, Lingers, StepJoint, Linear, Pull, LeftAfter, Params.H;
    KeepsLingering(p, r, vr, t, 0);
    LingerTick(p, r, vr, t, Rest(0.0));
    FirstTwoLefts(p, t);
  }

  lemma FirstTwoLefts(p: Params, t: real)
    requires p.dt > 0.0 && StepJoint(p, Rest(0.0), t) == Linear(p, Rest(0.0), Pull(p, Rest(0.0), t))
    ensures LeftAfter(p, t, 0) == t && LeftAfter(p, t, 1) == t - (p.H() * p.H()) * t
  {
    hide StepJoint, Linear, Pull, LongIn, Lingers, Next, NeverPasses, Params.H;
    LinearNext(p, Rest(0.0), t);
    RestLast(p, 0.0, t);
    FirstNext(p.H(), t);
    assert Hold(p, Rest(0.0), t, 1) == StepJoint(p, Hold(p, Rest(0.0), t, 0), t);
  }

  lemma LongRecurs(p: Params, r: real, vr: real, t: real, e: nat -> real)
    requires p.Positive() && LongIn(p, r, vr, t) && NeverPasses(p, 0.0, t)
    requires forall k: nat :: e(k) == LeftAfter(p, t, k)
    ensures Recurs(Lag(p), Gain(p), p.H() * t, e)
  {
    LongSigns(p, r, vr, t);
    FirstTwo(p, r, vr, t);
    hide LongIn, NeverPasses, OnBranch, LeftAfter, Follows, Params.H, Lag, Gain;
    FirstBranchAt(p, t, e(1));
    forall k: nat ensures Follows(Lag(p), Gain(p), e(k), e(k + 1), e(k + 2)) {
      LongFollows(p, r, vr, t, k);
    }
  }

  lemma FirstBranchAt(p: Params, t: real, b: real)
    requires b == t - (p.H() * p.H()) * t
    ensures OnBranch(Lag(p), Gain(p), p.H() * t, t, b)
  {
    hide Params.H, OnBranch;
    FirstBranch(Lag(p), Gain(p), p.H(), t, b);
  }

  lemma LongSigns(p: Params, r: real, vr: real, t: real)
    requires LongIn(p, r, vr, t)
    ensures Lag(p) > 0.0 && Gain(p) > 0.0 && p.H() * t > 0.0
  {
    HPositive(p);
    hide Params.H, Small;
    LongTick(p.H());
    MulPositive(p.H(), t);
  }

  lemma LongPasses(p: Params, r: real, vr: real, t: real)
    requires p.Positive() && LongIn(p, r, vr, t)
    ensures !NeverPasses(p, 0.0, t)
  {
    hide LongIn, NeverPasses, LeftAfter, Recurs, Nonneg;
    if NeverPasses(p, 0.0, t) {
      var e: nat -> real := (k: nat) => if p.dt > 0.0 then LeftAfter(p, t, k) else 0.0;
      LongRecurs(p, r, vr, t, e);
      TurnsNegative(Lag(p), Gain(p), p.H() * t, e);
      LeftsNonneg(p, t, e) by { LongStart(p, r, vr, t); }
      assert false;
    }
  }

  lemma LongStart(p: Params, r: real, vr: real, t: real)
    requires LongIn(p, r, vr, t)
    ensures t > 0.0
  {
  }

  lemma LeftsNonneg(p: Params, t: real, e: nat -> real)
    requires p.dt > 0.0 && t >= 0.0 && NeverPasses(p, 0.0, t) && forall k: nat :: e(k) == LeftAfter(p, t, k)
    ensures Nonneg(e)
  {
    hide NeverPasses, LeftAfter;
    forall k: nat ensures e(k) >= 0.0 {
      LeftAfterNonneg(p, t, k);
    }
  }

  /** Ticks longer than one over the natural frequency pass the target at once. */
  lemma VeryLongPasses(p: Params, r: real, vr: real, t: real)
    requires p.Positive() && Small(p, r, vr) && 0.0 < t <= r && p.H() > 1.0
    ensures !NeverPasses(p, 0.0, t)
  {
    RestLast(p, 0.0, t);
    SmallAsk(p, r, vr);
    LingerTick(p, r, vr, t, Rest(0.0));
    hide StepJoint, Linear, Pull, Next, NeverPasses, LeftAfter, Params.H, Small;
    FirstTwoLefts(p, t);
    Beyond1(p.H(), t);
    if NeverPasses(p, 0.0, t) {
      LeftAfterNonneg(p, t, 1);
      assert false;
    }
  }

  lemma LeftAfterNonneg(p: Params, t: real, k: nat)
    requires p.dt > 0.0 && t >= 0.0 && NeverPasses(p, 0.0, t)
    ensures LeftAfter(p, t, k) >= 0.0
  {
    hide NeverPasses, Hold;
    LeftNonneg(p, t, k);
  }

  lemma Beyond1(h: real, t: real)
    requires h > 1.0 && t > 0.0
    ensures t - (h * h) * t < 0.0
  {
    MulPositive(h, h - 1.0);
    MulPositive(h * h - 1.0, t);
  }

  /**
   * The docstring's own claim, for critical damping and moves the clamps let through: no overshoot, and a monotone
   * approach, exactly for short ticks.
   */
  lemma SmallMovesApproachIff(p: Params)
    requires p.Positive()
    ensures SmallMovesApproach(p) <==> ShortTick(p)
    ensures SmallMovesNeverPass(p) <==> ShortTick(p)
  {
    var r, vr := SmallExists(p);
    SmallPositive(p, r, vr);
    hide Small, ShortTick, NeverPasses, Approaches;
    if ShortTick(p) {
      forall q0: real, t: real | Abs(t - q0) <= r ensures Approaches(p, q0, t) && NeverPasses(p, q0, t) {
        SmallApproaches(p, r, vr, q0, t);
        ApproachNeverPasses(p, q0, t);
      }
      assert ApproachesUpTo(p, r) && NeverPassesUpTo(p, r);
    } else {
      forall x: real | x > 0.0 ensures !NeverPassesUpTo(p, x) && !ApproachesUpTo(p, x) {
        var t := Min(x, r);
        SomeSmallPasses(p, r, vr, t);
        if Approaches(p, 0.0, t) { ApproachNeverPasses(p, 0.0, t); }
        assert Abs(t - 0.0) <= x;
      }
    }
  }

  lemma SomeSmallPasses(p: Params, r: real, vr: real, t: real)
    requires p.Positive() && Small(p, r, vr) && 0.0 < t <= r && !ShortTick(p)
    ensures !NeverPasses(p, 0.0, t)
  {
    hide Small, ShortTick, NeverPasses;
    if p.H() > 1.0 {
      VeryLongPasses(p, r, vr, t);
    } else {
      LongPasses(p, r, vr, t);
    }
  }
}
