/**
 * safety/watchdog.py in plain counts: when a window is bad, as sizes of sets of ticks of the history.
 */
module WatchdogMeaning {
  import opened Numeric
  import opened Watchdog

  /** Joint j moves at tick m and at the next one. */
  predicate KeepsMoving(c: Config, h: seq<Sample>, j: nat, m: nat)
    requires Shaped(c, h) && j < c.dims
  {
    m + 1 < |h| && Abs(h[m][j]) > c.deadzone && Abs(h[m + 1][j]) > c.deadzone
  }

  /** And the other way at the next one. */
  predicate TurnsRound(c: Config, h: seq<Sample>, j: nat, m: nat)
    requires Shaped(c, h) && j < c.dims
  {
    && KeepsMoving(c, h, j, m)
    && ((h[m][j] > 0.0 && h[m + 1][j] < 0.0) || (h[m][j] < 0.0 && h[m + 1][j] > 0.0))
  }

  function MovingTicks(c: Config, h: seq<Sample>, j: nat, lo: nat, hi: nat): set<nat>
    requires Shaped(c, h) && j < c.dims
  {
    set m: nat | lo <= m < hi && m + 1 < hi && KeepsMoving(c, h, j, m)
  }

  function ReversingTicks(c: Config, h: seq<Sample>, j: nat, lo: nat, hi: nat): set<nat>
    requires Shaped(c, h) && j < c.dims
  {
    set m: nat | lo <= m < hi && m + 1 < hi && TurnsRound(c, h, j, m)
  }

  lemma {:induction false} CountsAre(c: Config, h: seq<Sample>, j: nat, lo: nat, hi: nat)
    requires Shaped(c, h) && j < c.dims && lo <= hi <= |h|
    ensures Shaped(c, h[lo..hi])
    ensures ValidPairs(c, Column(c, h[lo..hi], j)) == |MovingTicks(c, h, j, lo, hi)|
    ensures SignChanges(c, Column(c, h[lo..hi], j)) == |ReversingTicks(c, h, j, lo, hi)|
  {
    if hi - lo >= 2 {
      CountsAre(c, h, j, lo, hi - 1);
      ColumnInit(c, h, j, lo, hi);
      OneMoreTick(c, h, j, lo, hi);
    } else {
      assert MovingTicks(c, h, j, lo, hi) == {};
      assert ReversingTicks(c, h, j, lo, hi) == {};
    }
  }

  lemma ColumnInit(c: Config, h: seq<Sample>, j: nat, lo: nat, hi: nat)
    requires Shaped(c, h) && j < c.dims && lo + 2 <= hi <= |h|
    ensures Shaped(c, h[lo..hi]) && Shaped(c, h[lo..hi - 1])
    ensures var xs := Column(c, h[lo..hi], j);
      && |xs| == hi - lo && xs[|xs| - 2] == h[hi - 2][j] && xs[|xs| - 1] == h[hi - 1][j]
      && xs[..|xs| - 1] == Column(c, h[lo..hi - 1], j)
  {
  }

  /** The last pair of the stretch is counted once, if at all. */
  lemma OneMoreTick(c: Config, h: seq<Sample>, j: nat, lo: nat, hi: nat)
    requires Shaped(c, h) && j < c.dims && lo + 2 <= hi <= |h|
    ensures var x, y := h[hi - 2][j], h[hi - 1][j];
      && |MovingTicks(c, h, j, lo, hi)| == |MovingTicks(c, h, j, lo, hi - 1)| + Count(BothMoving(c, x, y))
      && |ReversingTicks(c, h, j, lo, hi)| == |ReversingTicks(c, h, j, lo, hi - 1)| + Count(Reversal(c, x, y))
  {
    var k: nat := hi - 2;
    MovingMore(c, h, j, lo, k);
    ReversingMore(c, h, j, lo, k);
    var m, r := MovingTicks(c, h, j, lo, k + 1), ReversingTicks(c, h, j, lo, k + 1);
    assert k !in m && k !in r;
    hide MovingTicks, ReversingTicks;
  }

  lemma MovingMore(c: Config, h: seq<Sample>, j: nat, lo: nat, k: nat)
    requires Shaped(c, h) && j < c.dims && lo <= k && k + 2 <= |h|
    ensures var m := MovingTicks(c, h, j, lo, k + 1);
      MovingTicks(c, h, j, lo, k + 2) == if BothMoving(c, h[k][j], h[k + 1][j]) then m + {k} else m
  {
    assert KeepsMoving(c, h, j, k) == BothMoving(c, h[k][j], h[k + 1][j]);
    hide KeepsMoving, BothMoving;
  }

  lemma ReversingMore(c: Config, h: seq<Sample>, j: nat, lo: nat, k: nat)
    requires Shaped(c, h) && j < c.dims && lo <= k && k + 2 <= |h|
    ensures var r := ReversingTicks(c, h, j, lo, k + 1);
      ReversingTicks(c, h, j, lo, k + 2) == if Reversal(c, h[k][j], h[k + 1][j]) then r + {k} else r
  {
    assert TurnsRound(c, h, j, k) == Reversal(c, h[k][j], h[k + 1][j]);
    hide TurnsRound, Reversal;
  }

  /** The share of reversals among the pairs in motion, without dividing; with none in motion it is zero. */
  predicate Exceeds(reversing: nat, moving: nat, threshold: real) {
    if moving == 0 then threshold < 0.0 else reversing as real > threshold * moving as real
  }

  lemma RatioExceeds(c: Config, xs: seq<real>)
    ensures Ratio(c, xs) > c.threshold <==> Exceeds(SignChanges(c, xs), ValidPairs(c, xs), c.threshold)
  {
    hide SignChanges, ValidPairs;
    var m, n := SignChanges(c, xs), ValidPairs(c, xs);
    if n > 0 {
      ShareCore(m as real / n as real, m as real, n as real, c.threshold);
    }
  }

  lemma ShareCore(x: real, m: real, n: real, threshold: real)
    requires n > 0.0 && x == m / n
    ensures x > threshold <==> m > threshold * n
  {
    assert x * n == m;
    if x > threshold {
      MulPositive(x - threshold, n);
    } else {
      MulNonneg(threshold - x, n);
    }
  }

  /** In the window that ends with the first k samples joint j reverses too much. */
  predicate JointBad(c: Config, h: seq<Sample>, k: nat, j: nat)
    requires Shaped(c, h) && j < c.dims && c.window <= k
  {
    Exceeds(|ReversingTicks(c, h, j, k - c.window, k)|, |MovingTicks(c, h, j, k - c.window, k)|, c.threshold)
  }

  /**
   * The window that ends with the first k samples is bad exactly when it is full and, for some joint, the ticks of the
   * window at which it reverses outnumber threshold times those at which it keeps moving.
   */
  lemma BadIff(c: Config, h: seq<Sample>, k: nat)
    requires c.Valid() && Shaped(c, h) && k <= |h|
    ensures Bad(c, h, k) <==> k >= c.window && exists j: nat | j < c.dims :: JointBad(c, h, k, j)
  {
    if k >= c.window {
      WindowShaped(c, h, k);
      var w := Window(c, h, k);
      assert w == h[k - c.window..k];
      forall j: nat | j < c.dims ensures JointOscillates(c, w, j) <==> JointBad(c, h, k, j) {
        CountsAre(c, h, j, k - c.window, k);
        RatioExceeds(c, Column(c, w, j));
        hide Ratio, Exceeds, ReversingTicks, MovingTicks;
      }
      hide JointOscillates, JointBad;
      assert Oscillates(c, w) <==> exists j: nat | j < c.dims :: JointBad(c, h, k, j);
    }
  }

  /** In the current window joint j reverses in at most a threshold share of the pairs in motion. */
  predicate JointCalm(c: Config, h: seq<Sample>, j: nat)
    requires Shaped(c, h) && j < c.dims && c.window <= |h|
  {
    var lo := |h| - c.window;
    |ReversingTicks(c, h, j, lo, |h|)| as real <= c.threshold * |MovingTicks(c, h, j, lo, |h|)| as real
  }

  /** When every joint does, it does not trip, whatever came before. */
  lemma CalmDoesNotTrip(c: Config, h: seq<Sample>)
    requires c.Valid() && Shaped(c, h) && c.threshold >= 0.0 && c.tripCount >= 1
    requires |h| >= c.window ==> forall j: nat | j < c.dims :: JointCalm(c, h, j)
    ensures !Trips(c, h)
  {
    BadIff(c, h, |h|);
    hide Bad, JointBad, JointCalm;
    if |h| >= c.window {
      forall j: nat | j < c.dims ensures !JointBad(c, h, |h|, j) {
        CalmIsNotBad(c, h, j);
      }
    }
    assert !Bad(c, h, |h|);
  }

  lemma CalmIsNotBad(c: Config, h: seq<Sample>, j: nat)
    requires Shaped(c, h) && j < c.dims && c.window <= |h| && c.threshold >= 0.0 && JointCalm(c, h, j)
    ensures !JointBad(c, h, |h|, j)
  {
    hide ReversingTicks, MovingTicks;
  }

  /** The window that ends with the first k samples is full, and some joint reverses too much in it. */
  predicate SomeJointBad(c: Config, h: seq<Sample>, k: nat)
    requires Shaped(c, h)
  {
    k >= c.window && exists j: nat | j < c.dims :: JointBad(c, h, k, j)
  }

  /** It trips exactly when that is so of each of the last tripCount windows. */
  lemma TripsIff(c: Config, h: seq<Sample>)
    requires c.Valid() && Shaped(c, h) && c.tripCount >= 1
    ensures Trips(c, h) <==> |h| >= c.tripCount && forall k: nat | |h| - c.tripCount < k <= |h| :: SomeJointBad(c, h, k)
  {
    forall k: nat | k <= |h| ensures Bad(c, h, k) <==> SomeJointBad(c, h, k) {
      BadIff(c, h, k);
    }
    assert SomeJointBad(c, h, |h|) ==> |h| >= c.window;
    hide SomeJointBad, Bad;
  }
}
