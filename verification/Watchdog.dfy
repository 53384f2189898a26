/**
 * safety/watchdog.py: the sliding-window oscillation watchdog, against a specification over the
 * whole history of samples since the last reset.
 */
module Watchdog {
  import opened Numeric

  type Sample = seq<real>

  datatype Config = Config(dims: nat, window: nat, threshold: real, tripCount: int, deadzone: real) {
    ghost predicate Valid() { window >= 1 }
  }

  // ------------------------------------------------------------ one window

  predicate BothMoving(c: Config, x: real, y: real) { Abs(x) > c.deadzone && Abs(y) > c.deadzone }

  predicate Opposite(x: real, y: real) { (x > 0.0 && y < 0.0) || (x < 0.0 && y > 0.0) }

  predicate Reversal(c: Config, x: real, y: real) { BothMoving(c, x, y) && Opposite(x, y) }

  function Count(b: bool): nat { if b then 1 else 0 }

  /** The adjacent pairs of a joint's samples in which it moves in both. */
  function ValidPairs(c: Config, xs: seq<real>): nat {
    if |xs| < 2 then 0
    else ValidPairs(c, xs[..|xs| - 1]) + Count(BothMoving(c, xs[|xs| - 2], xs[|xs| - 1]))
  }

  function SignChanges(c: Config, xs: seq<real>): nat {
    if |xs| < 2 then 0
    else SignChanges(c, xs[..|xs| - 1]) + Count(Reversal(c, xs[|xs| - 2], xs[|xs| - 1]))
  }

  function Ratio(c: Config, xs: seq<real>): real {
    var n := ValidPairs(c, xs);
    if n > 0 then SignChanges(c, xs) as real / n as real else 0.0
  }

  ghost predicate Shaped(c: Config, h: seq<Sample>) {
    forall k | 0 <= k < |h| :: |h[k]| == c.dims
  }

  function Column(c: Config, h: seq<Sample>, j: nat): (xs: seq<real>)
    requires Shaped(c, h) && j < c.dims
    ensures |xs| == |h|
  {
    seq(|h|, k requires 0 <= k < |h| && Shaped(c, h) && j < c.dims => h[k][j])
  }

  predicate JointOscillates(c: Config, h: seq<Sample>, j: nat)
    requires Shaped(c, h) && j < c.dims
  {
    Ratio(c, Column(c, h, j)) > c.threshold
  }

  predicate Oscillates(c: Config, h: seq<Sample>)
    requires Shaped(c, h)
  {
    exists j: nat | j < c.dims :: JointOscillates(c, h, j)
  }

  // ------------------------------------------------------------ the whole history

  /** The last window samples up to tick k, or all of them when there are fewer. */
  function Window(c: Config, h: seq<Sample>, k: nat): seq<Sample>
    requires k <= |h|
  {
    if k < c.window then h[..k] else h[k - c.window..k]
  }

  lemma WindowShaped(c: Config, h: seq<Sample>, k: nat)
    requires Shaped(c, h) && k <= |h|
    ensures Shaped(c, Window(c, h, k))
  {
  }

  /** The window ending at tick k is full and oscillates. */
  ghost predicate Bad(c: Config, h: seq<Sample>, k: nat)
    requires Shaped(c, h) && k <= |h|
  {
    WindowShaped(c, h, k);
    k >= c.window && Oscillates(c, Window(c, h, k))
  }

  /** The last n windows are all bad. */
  ghost predicate LastBad(c: Config, h: seq<Sample>, n: int)
    requires Shaped(c, h)
  {
    n <= |h| && forall k: nat | |h| - n < k <= |h| :: Bad(c, h, k)
  }

  /** update() answers True: the current window is full and so were and oscillated the last tripCount. */
  ghost predicate Trips(c: Config, h: seq<Sample>)
    requires Shaped(c, h)
  {
    |h| >= c.window && LastBad(c, h, c.tripCount)
  }

  /** The length of the run of bad windows that ends with the history. */
  ghost function Streak(c: Config, h: seq<Sample>): nat
    requires Shaped(c, h)
  {
    if h == [] || !Bad(c, h, |h|) then 0 else Streak(c, h[..|h| - 1]) + 1
  }

  lemma BadPrefix(c: Config, h: seq<Sample>, m: nat, k: nat)
    requires Shaped(c, h) && k <= m <= |h|
    ensures Bad(c, h[..m], k) == Bad(c, h, k)
  {
    assert Window(c, h[..m], k) == Window(c, h, k);
  }

  lemma LastBadStep(c: Config, h: seq<Sample>, n: int)
    requires Shaped(c, h) && n >= 1 && h != []
    ensures LastBad(c, h, n) <==> Bad(c, h, |h|) && LastBad(c, h[..|h| - 1], n - 1)
  {
    var init := h[..|h| - 1];
    forall k: nat | k <= |init| ensures Bad(c, init, k) == Bad(c, h, k) {
      BadPrefix(c, h, |init|, k);
    }
    hide Bad;
    if Bad(c, h, |h|) && LastBad(c, init, n - 1) {
      forall k: nat | |h| - n < k <= |h| ensures Bad(c, h, k) {
        if k < |h| { assert Bad(c, init, k); }
      }
    }
    if LastBad(c, h, n) {
      forall k: nat | |init| - (n - 1) < k <= |init| ensures Bad(c, init, k) {
        assert Bad(c, h, k);
      }
    }
  }

  lemma {:induction false} StreakMeaning(c: Config, h: seq<Sample>, n: int)
    requires c.Valid() && Shaped(c, h)
    ensures Streak(c, h) >= n <==> LastBad(c, h, n)
  {
    hide Bad;
    if n >= 1 && h != [] {
      LastBadStep(c, h, n);
      hide LastBad;
      StreakMeaning(c, h[..|h| - 1], n - 1);
    }
  }

  /** A run of n bad windows up to the current tick is a streak of at least n. */
  lemma StreakTrips(c: Config, h: seq<Sample>)
    requires c.Valid() && Shaped(c, h)
    ensures Trips(c, h) <==> |h| >= c.window && Streak(c, h) >= c.tripCount
  {
    StreakMeaning(c, h, c.tripCount);
  }

  // ------------------------------------------------------------ the watchdog object

  class OscillationWatchdog {
    const c: Config
    var history: seq<Sample>
    var consecutiveTrips: nat

    /** history and counter are what the whole history since reset, all, dictates. */
    ghost predicate Tracks(all: seq<Sample>)
      reads this
    {
      && c.Valid() && Shaped(c, all)
      && history == Window(c, all, |all|)
      && consecutiveTrips == Streak(c, all)
    }

    constructor (config: Config)
      requires config.Valid()
      ensures c == config && Tracks([])
    {
      c := config;
      history := [];
      consecutiveTrips := 0;
    }

    method Reset(ghost all: seq<Sample>)
      requires Tracks(all)
      modifies this
      ensures Tracks([])
    {
      history := [];
      consecutiveTrips := 0;
    }

    method Update(dq: Sample, ghost all: seq<Sample>) returns (tripped: bool)
      requires Tracks(all) && |dq| == c.dims
      modifies this
      ensures Tracks(all + [dq]) && tripped == Trips(c, all + [dq])
    {
      ghost var now := all + [dq];
      assert now[..|all|] == all;
      history := history + [dq];
      if |history| > c.window {
        history := history[1..];
      }
      assert history == Window(c, now, |now|);
      StreakTrips(c, now);
      if |history| < c.window {
        assert !Bad(c, now, |now|);
        ZeroStreak(c, all);
        return false;
      }
      var bad := AnyJoint();
      if bad {
        consecutiveTrips := consecutiveTrips + 1;
      } else {
        consecutiveTrips := 0;
      }
      tripped := consecutiveTrips >= c.tripCount;
    }

    method AnyJoint() returns (bad: bool)
      requires Shaped(c, history)
      ensures bad == Oscillates(c, history)
    {
      bad := exists j: nat | j < c.dims :: JointOscillates(c, history, j);
    }
  }

  /** Before the window is full there is no streak. */
  lemma ZeroStreak(c: Config, h: seq<Sample>)
    requires c.Valid() && Shaped(c, h) && |h| < c.window
    ensures Streak(c, h) == 0
  {
  }

  // ------------------------------------------------------------ two runs that differ only in noise

  /** Equal, or both within the deadzone. */
  predicate Alike(c: Config, x: real, y: real) { x == y || (Abs(x) <= c.deadzone && Abs(y) <= c.deadzone) }

  ghost predicate AlikeRuns(c: Config, g: seq<Sample>, h: seq<Sample>)
    requires Shaped(c, g) && Shaped(c, h)
  {
    |g| == |h| && forall k, j | 0 <= k < |g| && 0 <= j < c.dims :: Alike(c, g[k][j], h[k][j])
  }

  lemma {:induction false} AlikeCounts(c: Config, xs: seq<real>, ys: seq<real>)
    requires |xs| == |ys| && forall k | 0 <= k < |xs| :: Alike(c, xs[k], ys[k])
    ensures ValidPairs(c, xs) == ValidPairs(c, ys) && SignChanges(c, xs) == SignChanges(c, ys)
  {
    if |xs| >= 2 {
      AlikeCounts(c, xs[..|xs| - 1], ys[..|xs| - 1]);
      assert Alike(c, xs[|xs| - 2], ys[|xs| - 2]) && Alike(c, xs[|xs| - 1], ys[|xs| - 1]);
    }
  }

  lemma AlikeWindows(c: Config, g: seq<Sample>, h: seq<Sample>)
    requires Shaped(c, g) && Shaped(c, h) && AlikeRuns(c, g, h)
    ensures Oscillates(c, g) == Oscillates(c, h)
  {
    hide Ratio, Alike;
    forall j: nat | j < c.dims ensures JointOscillates(c, g, j) == JointOscillates(c, h, j) {
      AlikeCounts(c, Column(c, g, j), Column(c, h, j));
      SameRatio(c, Column(c, g, j), Column(c, h, j));
    }
  }

  lemma SameRatio(c: Config, xs: seq<real>, ys: seq<real>)
    requires ValidPairs(c, xs) == ValidPairs(c, ys) && SignChanges(c, xs) == SignChanges(c, ys)
    ensures Ratio(c, xs) == Ratio(c, ys)
  {
  }

  /** Noise within the deadzone never changes an answer. */
  lemma NoiseIsIgnored(c: Config, g: seq<Sample>, h: seq<Sample>)
    requires c.Valid() && Shaped(c, g) && Shaped(c, h) && AlikeRuns(c, g, h)
    ensures Trips(c, g) == Trips(c, h)
  {
    forall k: nat | k <= |h| ensures Bad(c, g, k) == Bad(c, h, k) {
      WindowShaped(c, g, k);
      WindowShaped(c, h, k);
      hide Oscillates, Alike;
      AlikeWindows(c, Window(c, g, k), Window(c, h, k));
    }
    hide Bad;
  }

  // ------------------------------------------------------------ what never trips, and what must

  lemma {:induction false} ChangesAtMostPairs(c: Config, xs: seq<real>)
    ensures SignChanges(c, xs) <= ValidPairs(c, xs)
  {
    if |xs| >= 2 {
      ChangesAtMostPairs(c, xs[..|xs| - 1]);
    }
  }

  /** The joint reverses between samples k and k + 1. */
  ghost predicate ReversesAt(c: Config, xs: seq<real>, k: nat) {
    k + 1 < |xs| && Reversal(c, xs[k], xs[k + 1])
  }

  lemma {:induction false} NoReversals(c: Config, xs: seq<real>)
    requires forall k: nat :: !ReversesAt(c, xs, k)
    ensures SignChanges(c, xs) == 0
  {
    if |xs| >= 2 {
      var init := xs[..|xs| - 1];
      forall k: nat ensures !ReversesAt(c, init, k) {
        assert !ReversesAt(c, xs, k);
      }
      NoReversals(c, init);
      assert !ReversesAt(c, xs, |xs| - 2);
    }
  }

  lemma {:induction false} OnlyReversals(c: Config, xs: seq<real>)
    requires forall k: nat | k + 1 < |xs| :: ReversesAt(c, xs, k)
    ensures SignChanges(c, xs) == ValidPairs(c, xs) == if |xs| < 2 then 0 else |xs| - 1
  {
    if |xs| >= 2 {
      var init := xs[..|xs| - 1];
      forall k: nat | k + 1 < |init| ensures ReversesAt(c, init, k) {
        assert ReversesAt(c, xs, k);
      }
      OnlyReversals(c, init);
      assert ReversesAt(c, xs, |xs| - 2);
    }
  }

  lemma RatioAtMostOne(c: Config, xs: seq<real>)
    ensures Ratio(c, xs) <= 1.0
  {
    ChangesAtMostPairs(c, xs);
    var n, m := ValidPairs(c, xs), SignChanges(c, xs);
    if n > 0 {
      CancelLe(m as real / n as real, 1.0, n as real);
    }
  }

  ghost predicate Steady(c: Config, h: seq<Sample>)
    requires Shaped(c, h)
  {
    forall k: nat, j: nat | j < c.dims :: !ReversesAt(c, Column(c, h, j), k)
  }

  /** A joint's samples in the window are a stretch of its samples in the history. */
  lemma WindowReversals(c: Config, h: seq<Sample>, k: nat, j: nat, i: nat)
    requires Shaped(c, h) && k <= |h| && j < c.dims
    ensures Shaped(c, Window(c, h, k)) && |Window(c, h, k)| <= k
    ensures i + 1 < |Window(c, h, k)| ==>
      (ReversesAt(c, Column(c, Window(c, h, k), j), i) <==>
       ReversesAt(c, Column(c, h, j), k - |Window(c, h, k)| + i))
  {
  }

  /** Directed motion, where no joint reverses between two samples that both move, never trips. */
  lemma SteadyNeverTrips(c: Config, h: seq<Sample>)
    requires c.Valid() && c.threshold >= 0.0 && c.tripCount >= 1 && Shaped(c, h) && Steady(c, h)
    ensures !Trips(c, h)
  {
    var w := Window(c, h, |h|);
    WindowShaped(c, h, |h|);
    forall j: nat | j < c.dims ensures !JointOscillates(c, w, j) {
      forall i: nat ensures !ReversesAt(c, Column(c, w, j), i) {
        WindowReversals(c, h, |h|, j, i);
      }
      NoReversals(c, Column(c, w, j));
    }
    assert !Bad(c, h, |h|);
  }

  /** No ratio exceeds one, so a threshold of one or more switches the watchdog off. */
  lemma ThresholdOneNeverTrips(c: Config, h: seq<Sample>)
    requires c.Valid() && c.threshold >= 1.0 && c.tripCount >= 1 && Shaped(c, h)
    ensures !Trips(c, h)
  {
    var w := Window(c, h, |h|);
    WindowShaped(c, h, |h|);
    forall j: nat | j < c.dims ensures !JointOscillates(c, w, j) {
      RatioAtMostOne(c, Column(c, w, j));
    }
    assert !Bad(c, h, |h|);
  }

  /** Joint j reverses at every sample from tick m on. */
  ghost predicate Shakes(c: Config, h: seq<Sample>, j: nat, m: nat)
    requires Shaped(c, h) && j < c.dims
  {
    forall k: nat | m <= k && k + 1 < |h| :: ReversesAt(c, Column(c, h, j), k)
  }

  lemma RatioOfShaking(c: Config, xs: seq<real>)
    requires |xs| >= 2 && forall k: nat | k + 1 < |xs| :: ReversesAt(c, xs, k)
    ensures Ratio(c, xs) == 1.0
  {
    OnlyReversals(c, xs);
    hide ValidPairs, SignChanges;
    Whole((|xs| - 1) as real);
  }

  lemma Whole(n: real)
    requires n > 0.0
    ensures n / n == 1.0
  {
    var q := n / n;
    assert q * n == n;
    CancelEq(q, 1.0, n);
  }

  lemma ShakingWindow(c: Config, h: seq<Sample>, j: nat, m: nat, k: nat)
    requires c.Valid() && c.window >= 2 && c.threshold < 1.0
    requires Shaped(c, h) && j < c.dims && Shakes(c, h, j, m) && m + c.window <= k <= |h|
    ensures Bad(c, h, k)
  {
    var w := Window(c, h, k);
    WindowShaped(c, h, k);
    assert JointOscillates(c, w, j) by {
      hide Ratio, ReversesAt;
      forall i: nat | i + 1 < |w| ensures ReversesAt(c, Column(c, w, j), i) {
        WindowReversals(c, h, k, j, i);
      }
      RatioOfShaking(c, Column(c, w, j));
    }
    hide JointOscillates;
  }

  /** A joint that keeps reversing is caught within window + tripCount - 1 samples, whatever came before. */
  lemma ShakingTrips(c: Config, h: seq<Sample>, j: nat, m: nat)
    requires c.Valid() && c.window >= 2 && c.threshold < 1.0 && c.tripCount >= 1
    requires Shaped(c, h) && j < c.dims && Shakes(c, h, j, m) && |h| >= m + c.window + c.tripCount - 1
    ensures Trips(c, h)
  {
    hide Bad;
    forall k: nat | |h| - c.tripCount < k <= |h| ensures Bad(c, h, k) {
      ShakingWindow(c, h, j, m, k);
    }
  }
}
