/**
 * Moves as long as one likes, toward a constant target: what a filter that never passes a target must have.
 *
 * A long enough move reaches vMax, and cruises until the pull turns round, at less than 2 * vMax / wn from the
 * target.  From there the brakes, or the jerk limit, may be too weak to stop in time, whatever the filter asks for.
 */
module FilterFastMoves {
  import opened Numeric
  import opened ReferenceFilter
  import opened FilterContainment
  import opened FilterNoOvershoot
  import opened FilterSmallMoves
  import opened FilterSmallApproach

  /** No target is ever passed, from any start at rest. */
  ghost predicate OvershootFree(p: Params)
    requires p.dt > 0.0
  {
    forall q0: real, t: real :: NeverPasses(p, q0, t)
  }

  // ------------------------------------------------------------ speeding up

  /** The least acceleration of a tick of full pull, and the velocity it adds. */
  function Thrust(p: Params): real { Min(p.aMax, p.D()) }

  function Boost(p: Params): real { Thrust(p) * p.dt }

  ghost predicate Speeding(p: Params, s: Joint) { Bounded(p, s) && s.v >= 0.0 && s.a >= 0.0 }

  lemma FullPull(p: Params, t: real, s: Joint)
    requires p.Positive() && Speeding(p, s) && Pull(p, s, t) >= p.aMax
    ensures Acc(p, s, t) >= Thrust(p) > 0.0
  {
    DPositive(p);
    hide Pull, Params.D;
  }

  lemma AnyPull(p: Params, t: real, s: Joint)
    requires p.Positive() && Speeding(p, s) && Pull(p, s, t) >= 0.0
    ensures Acc(p, s, t) >= 0.0
  {
    DPositive(p);
    hide Pull, Params.D;
  }

  /** A tick at a nonnegative acceleration speeds up by all of it, or reaches vMax. */
  lemma PushTick(p: Params, s: Joint, t: real, floor: real)
    requires p.Positive() && Speeding(p, s) && Acc(p, s, t) >= floor >= 0.0
    ensures var w := StepJoint(p, s, t);
      && Speeding(p, w) && w.q == s.q + w.v * p.dt && w.v >= s.v && (w.v == p.vMax || w.v >= s.v + floor * p.dt)
  {
    hide StepJoint, Acc, Pull, Moved;
    var w := StepJoint(p, s, t);
    StepMoves(p, s, t);
    if w.v == p.vMax {
      TopIsNotBraking(p, s.v, w.a, w.v);
    } else {
      VelocityGain(p, s.v, w.a, w.v, 0.0);
      VelocityGain(p, s.v, w.a, w.v, floor);
    }
  }

  /** So far away that the pull exceeds aMax at any velocity. */
  ghost predicate Far(p: Params, e: real) { p.Kp() * e >= p.aMax + p.Kd() * p.vMax }

  lemma FarPull(p: Params, t: real, s: Joint, e: real)
    requires p.Positive() && Bounded(p, s) && Far(p, e) && t - s.q >= e
    ensures Pull(p, s, t) >= p.aMax
  {
    hide Params.Kp, Params.Kd;
    KpPositive(p);
    MulNonneg(p.Kp(), t - s.q - e);
    MulNonneg(p.Kd(), p.vMax - s.v);
  }

  /** Distance at full speed. */
  function Cruised(p: Params, k: int): real { k as real * (p.vMax * p.dt) }

  function Boosted(p: Params, k: nat): real { k as real * Boost(p) }

  lemma CruisedMore(p: Params, v: real, k: int)
    requires p.Positive() && v <= p.vMax
    ensures v * p.dt <= p.vMax * p.dt && Cruised(p, k) == Cruised(p, k - 1) + p.vMax * p.dt
  {
    MulNonneg(p.vMax - v, p.dt);
    assert k as real == (k - 1) as real + 1.0;
  }

  lemma BoostPositive(p: Params)
    requires p.Positive()
    ensures Boost(p) > 0.0
  {
    DPositive(p);
    MulPositive(Thrust(p), p.dt);
  }

  lemma RampTick(p: Params, t: real, s: Joint, e: real, k: nat)
    requires p.Positive() && Speeding(p, s) && Far(p, e) && t - s.q >= e
    requires s.v == p.vMax || s.v >= Boosted(p, k)
    ensures var w := StepJoint(p, s, t);
      Speeding(p, w) && (w.v == p.vMax || w.v >= Boosted(p, k + 1)) && w.q <= s.q + p.vMax * p.dt
  {
    hide StepJoint, Acc, Boosted, Thrust, Far, Pull, Bounded;
    FarPull(p, t, s, e);
    FullPull(p, t, s);
    BoostedMore(p, k);
    PushTick(p, s, t, Thrust(p));
    SlowerTravel(p, StepJoint(p, s, t));
  }

  lemma BoostedMore(p: Params, k: nat)
    requires p.Positive()
    ensures Boosted(p, k + 1) == Boosted(p, k) + Thrust(p) * p.dt && Thrust(p) * p.dt > 0.0
  {
    BoostPositive(p);
    hide Thrust;
    assert (k + 1) as real * Boost(p) == k as real * Boost(p) + Boost(p);
  }

  lemma SlowerTravel(p: Params, s: Joint)
    requires p.Positive() && Speeding(p, s)
    ensures s.v * p.dt <= p.vMax * p.dt
  {
    MulNonneg(p.vMax - s.v, p.dt);
  }

  lemma {:induction false} Ramp(p: Params, t: real, e: real, last: nat, k: nat)
    requires p.Positive() && Far(p, e) && t >= e + Cruised(p, last) && k <= last
    ensures var s := Hold(p, Rest(0.0), t, k);
      Speeding(p, s) && (s.v == p.vMax || s.v >= Boosted(p, k)) && s.q <= Cruised(p, k)
  {
    hide StepJoint, Far, Boost;
    if k > 0 {
      Ramp(p, t, e, last, k - 1);
      CruisedMono(p, k - 1, last);
      CruisedMore(p, 0.0, k);
      hide Cruised, Boosted;
      RampTick(p, t, Hold(p, Rest(0.0), t, k - 1), e, k - 1);
    }
  }

  lemma CruisedMono(p: Params, k: nat, last: nat)
    requires p.Positive() && k <= last
    ensures Cruised(p, k) <= Cruised(p, last)
  {
    MulPositive(p.vMax, p.dt);
    MulNonneg((last - k) as real, p.vMax * p.dt);
  }

  /** At full speed, not braking. */
  ghost predicate AtTop(p: Params, s: Joint) { Speeding(p, s) && s.v == p.vMax }

  lemma RampTop(p: Params, t: real, e: real, k: nat)
    requires p.Positive() && Far(p, e) && t >= e + Cruised(p, k) && Boosted(p, k) > p.vMax
    ensures AtTop(p, Hold(p, Rest(0.0), t, k))
  {
    hide Hold, Cruised, Boosted, Far;
    Ramp(p, t, e, k, k);
  }

  /** Some move is long enough to reach vMax. */
  lemma SomeMoveReachesTop(p: Params) returns (t: real, k: nat)
    requires p.Positive()
    ensures t > 0.0 && AtTop(p, Hold(p, Rest(0.0), t, k))
  {
    hide Hold, Boost, Far, AtTop, Cruised;
    BoostPositive(p);
    k := Beyond(p.vMax, Boost(p));
    var e := FarExists(p);
    t := e + Cruised(p, k);
    CruisedNonneg(p, k);
    RampTop(p, t, e, k);
  }

  lemma CruisedNonneg(p: Params, k: nat)
    requires p.Positive()
    ensures Cruised(p, k) >= 0.0
  {
    MulPositive(p.vMax, p.dt);
    MulNonneg(k as real, p.vMax * p.dt);
  }

  lemma FarExists(p: Params) returns (e: real)
    requires p.Positive()
    ensures e > 0.0 && Far(p, e)
  {
    hide Params.Kp, Params.Kd;
    KpPositive(p);
    MulPositive(p.Kd(), p.vMax);
    e := Fraction(p.aMax + p.Kd() * p.vMax, p.Kp());
  }

  // ------------------------------------------------------------ cruising

  lemma CruiseTick(p: Params, t: real, s: Joint)
    requires p.Positive() && AtTop(p, s) && Pull(p, s, t) >= 0.0
    ensures var w := StepJoint(p, s, t); AtTop(p, w) && w.q == s.q + p.vMax * p.dt
  {
    AnyPull(p, t, s);
    hide StepJoint, Acc, Pull;
    PushTick(p, s, t, 0.0);
  }

  /** The pull has turned round at full speed. */
  ghost predicate TurnsAt(p: Params, t: real, k: nat)
    requires p.dt > 0.0
  {
    var s := Hold(p, Rest(0.0), t, k);
    AtTop(p, s) && Pull(p, s, t) < 0.0
  }

  lemma {:induction false} CruiseToTurn(p: Params, t: real, k: nat, more: nat) returns (k': nat)
    requires p.Positive() && t > 0.0 && NeverPasses(p, 0.0, t) && AtTop(p, Hold(p, Rest(0.0), t, k))
    requires Left(t, Hold(p, Rest(0.0), t, k)) < Cruised(p, more)
    ensures TurnsAt(p, t, k')
    decreases more
  {
    hide StepJoint, Pull, NeverPasses, AtTop;
    var s := Hold(p, Rest(0.0), t, k);
    k' := k;
    if Pull(p, s, t) >= 0.0 {
      LeftNonneg(p, t, k);
      if more == 0 {
        assert false;
      } else {
        CruiseTick(p, t, s);
        CruisedMore(p, 0.0, more);
        hide Cruised;
        k' := CruiseToTurn(p, t, k + 1, more - 1);
      }
    }
  }

  /** Within 2 * vMax / wn. */
  lemma TurnIsClose(p: Params, t: real, s: Joint)
    requires p.Positive() && s.v == p.vMax && Pull(p, s, t) < 0.0
    ensures p.wn * Left(t, s) < 2.0 * p.vMax
  {
    TurnCore(p.wn, Left(t, s), p.vMax);
  }

  lemma TurnCore(wn: real, e: real, v: real)
    requires wn > 0.0 && (wn * wn) * e - (2.0 * wn) * v < 0.0
    ensures wn * e < 2.0 * v
  {
    if wn * e >= 2.0 * v {
      MulNonneg(wn, wn * e - 2.0 * v);
      assert false;
    }
  }

  /** A move that never passes and turns round at full speed. */
  lemma SomeMoveTurns(p: Params) returns (t: real, k: nat)
    requires p.Positive() && OvershootFree(p)
    ensures t > 0.0 && TurnsAt(p, t, k)
  {
    hide NeverPasses, Hold;
    var k0;
    t, k0 := SomeMoveReachesTop(p);
    assert NeverPasses(p, 0.0, t);
    LeftNonneg(p, t, k0);
    MulPositive(p.vMax, p.dt);
    var more := Beyond(Left(t, Hold(p, Rest(0.0), t, k0)), p.vMax * p.dt);
    k := CruiseToTurn(p, t, k0, more);
  }

  // ------------------------------------------------------------ brakes

  /** Too fast for the distance e to stop at aMax. */
  ghost predicate TooFast(p: Params, e: real, v: real) {
    v > 0.0 && 2.0 * p.aMax * e < v * (v - p.aMax * p.dt)
  }

  lemma TooFastSpeed(p: Params, e: real, v: real)
    requires p.Positive() && TooFast(p, e, v) && e >= 0.0
    ensures v > p.aMax * p.dt
  {
    MulNonneg(p.aMax, e);
    if v <= p.aMax * p.dt {
      MulNonneg(v, p.aMax * p.dt - v);
      assert false;
    }
  }

  lemma TooFastStays(p: Params, e: real, v: real, e': real, v': real)
    requires p.Positive() && TooFast(p, e, v) && e >= 0.0 && v' >= v - p.aMax * p.dt && e' == e - v' * p.dt
    ensures TooFast(p, e', v')
  {
    TooFastSpeed(p, e, v);
    TooFastCore(p.aMax, p.dt, p.aMax * p.dt, e, v, e', v');
  }

  lemma TooFastCore(a: real, dt: real, b: real, e: real, v: real, e': real, v': real)
    requires b == a * dt && v > b >= 0.0 && v' >= v - b && e' == e - v' * dt && 2.0 * a * e < v * (v - b)
    ensures v' > 0.0 && 2.0 * a * e' < v' * (v' - b)
  {
    MulNonneg(v' + v, v' - v + b);
    assert 2.0 * a * e' == 2.0 * a * e - 2.0 * (b * v') by { assert a * (v' * dt) == b * v'; }
    assert (v' + v) * (v' - v + b) == v' * (v' - b) + 2.0 * (b * v') - v * (v - b);
  }

  lemma BrakeTick(p: Params, t: real, s: Joint)
    requires p.Positive() && Bounded(p, s) && TooFast(p, Left(t, s), s.v) && Left(t, s) >= 0.0
    ensures var w := StepJoint(p, s, t);
      && Bounded(p, w) && TooFast(p, Left(t, w), w.v) && Left(t, w) == Left(t, s) - w.v * p.dt
  {
    hide StepJoint, Acc, Pull, TooFast, Moved;
    var w := StepJoint(p, s, t);
    StepMoves(p, s, t);
    BrakeLoss(p, s.v, w.a, w.v);
    TooFastStays(p, Left(t, s), s.v, Left(t, w), w.v);
  }

  lemma BrakeLoss(p: Params, v: real, a: real, w: real)
    requires p.dt > 0.0 && Moved(p, v, a, w) && a >= -p.aMax
    ensures w >= v - p.aMax * p.dt
  {
    VelocityGain(p, v, a, w, -p.aMax);
  }

  /** The distance covered in one tick at the velocity that aMax can take away in one. */
  function Slide(p: Params): real { (p.aMax * p.dt) * p.dt }

  lemma {:induction false} Skids(p: Params, t: real, k: nat, j: nat)
    requires p.Positive() && t > 0.0 && NeverPasses(p, 0.0, t)
    requires var s := Hold(p, Rest(0.0), t, k); Bounded(p, s) && TooFast(p, Left(t, s), s.v)
    ensures var s, w := Hold(p, Rest(0.0), t, k), Hold(p, Rest(0.0), t, k + j);
      && Bounded(p, w) && TooFast(p, Left(t, w), w.v) && Left(t, w) <= Left(t, s) - j as real * Slide(p)
  {
    hide StepJoint, NeverPasses, TooFast, Bounded, Slide;
    if j > 0 {
      Skids(p, t, k, j - 1);
      var s := Hold(p, Rest(0.0), t, k + j - 1);
      LeftNonneg(p, t, k + j - 1);
      LeftNonneg(p, t, k + j);
      BrakeTick(p, t, s);
      SlideMore(p, Left(t, StepJoint(p, s, t)), StepJoint(p, s, t).v);
      assert j as real * Slide(p) == (j - 1) as real * Slide(p) + Slide(p);
    }
  }

  lemma SlideMore(p: Params, e: real, v: real)
    requires p.Positive() && TooFast(p, e, v) && e >= 0.0
    ensures v * p.dt >= Slide(p)
  {
    TooFastSpeed(p, e, v);
    MulNonneg(v - p.aMax * p.dt, p.dt);
  }

  lemma TooFastPasses(p: Params, t: real, k: nat)
    requires p.Positive() && t > 0.0
    requires var s := Hold(p, Rest(0.0), t, k); Bounded(p, s) && TooFast(p, Left(t, s), s.v)
    ensures !NeverPasses(p, 0.0, t)
  {
    hide NeverPasses, TooFast, Bounded, Hold;
    if NeverPasses(p, 0.0, t) {
      LeftNonneg(p, t, k);
      MulPositive(p.aMax, p.dt);
      MulPositive(p.aMax * p.dt, p.dt);
      var j := Beyond(Left(t, Hold(p, Rest(0.0), t, k)), Slide(p));
      Skids(p, t, k, j);
      LeftNonneg(p, t, k + j);
      assert false;
    }
  }

  lemma CancelLt(k: real, x: real, y: real)
    requires k > 0.0 && k * x < k * y
    ensures x < y
  {
    if x >= y {
      MulNonneg(k, x - y);
      assert false;
    }
  }

  lemma TurnTooFast(wn: real, aMax: real, b: real, e: real, v: real)
    requires wn > 0.0 && aMax > 0.0 && v > 0.0 && wn * e < 2.0 * v && wn * (v - b) >= 4.0 * aMax
    ensures 2.0 * aMax * e < v * (v - b)
  {
    var x, y := 2.0 * aMax * e, v * (v - b);
    MulNonneg(v, wn * (v - b) - 4.0 * aMax);
    MulPositive(2.0 * aMax, 2.0 * v - wn * e);
    assert wn * x == 2.0 * aMax * (wn * e);
    assert wn * y == v * (wn * (v - b));
    assert wn * x < wn * y;
    CancelLt(wn, x, y);
  }

  // ------------------------------------------------------------ jerk

  /** After j ticks of the largest jerk: what it can have taken from acceleration, velocity and position. */
  function Taken(j: nat): real { (j * (j + 1)) as real / 2.0 }

  function Lost(j: nat): real { (j * (j + 1) * (j + 2)) as real / 6.0 }

  lemma TakenMore(j: nat)
    requires j > 0
    ensures Taken(j) == Taken(j - 1) + j as real && Lost(j) == Lost(j - 1) + Taken(j)
  {
    assert j * (j + 1) == (j - 1) * j + 2 * j;
    assert j * (j + 1) * (j + 2) == (j - 1) * j * (j + 1) + 3 * (j * (j + 1));
  }

  function Jerked(p: Params): real { p.D() * p.dt }

  function Shift(p: Params): real { Jerked(p) * p.dt }

  ghost predicate HeldAcc(p: Params, w: Joint, j: nat) { w.a >= -(j as real * p.D()) }

  /** x fell behind y by at most k units. */
  ghost predicate Behind(y: real, k: real, unit: real, x: real) { x >= y - k * unit }

  /** Where s would be j ticks later at its own velocity. */
  function Ahead(p: Params, s: Joint, j: nat): real { s.q + j as real * (s.v * p.dt) }

  ghost predicate HeldVelocity(p: Params, s: Joint, w: Joint, j: nat) { Behind(s.v, Taken(j), Jerked(p), w.v) }

  ghost predicate HeldPosition(p: Params, s: Joint, w: Joint, j: nat) {
    Behind(Ahead(p, s, j), Lost(j), Shift(p), w.q)
  }

  ghost predicate Held(p: Params, s: Joint, w: Joint, j: nat) {
    Bounded(p, w) && HeldAcc(p, w, j) && HeldVelocity(p, s, w, j) && HeldPosition(p, s, w, j)
  }

  lemma JerkFloor(p: Params, s: Joint, t: real)
    requires p.Positive() && Bounded(p, s)
    ensures var w := StepJoint(p, s, t); w.a >= 0.0 || w.a >= s.a - p.D()
  {
    hide StepJoint, Pull, Moved, Acc, Params.D;
    AccBounded(p, s, t);
    StepMoves(p, s, t);
    var w := StepJoint(p, s, t);
    if w.v == p.vMax {
      TopIsNotBraking(p, s.v, w.a, w.v);
    }
  }

  lemma NextAcc(p: Params, x: Joint, w: Joint, j: nat)
    requires p.Positive() && j > 0 && HeldAcc(p, x, j - 1) && (w.a >= 0.0 || w.a >= x.a - p.D())
    ensures HeldAcc(p, w, j)
  {
    DPositive(p);
    hide Params.D;
    MulNonneg(j as real, p.D());
    assert (j - 1) as real * p.D() == j as real * p.D() - p.D();
  }

  lemma NextVelocity(p: Params, s: Joint, x: Joint, w: Joint, j: nat)
    requires p.Positive() && j > 0 && HeldAcc(p, w, j) && HeldVelocity(p, s, x, j - 1) && Moved(p, x.v, w.a, w.v)
    ensures HeldVelocity(p, s, w, j)
  {
    hide Params.D, Taken, Lost, Behind;
    TakenMore(j);
    var jr, d := j as real, p.D();
    VelocityCore(p.dt, d, Jerked(p), jr, Taken(j - 1), Taken(j), s.v, x.v, w.a, w.v);
  }

  lemma VelocityCore(dt: real, d: real, u: real, j: real, k: real, k': real, v0: real, v: real, a: real, w: real)
    requires dt > 0.0 && u == d * dt && k' == k + j && a >= -(j * d) && a * dt == w - v && Behind(v0, k, u, v)
    ensures Behind(v0, k', u, w)
  {
    MulNonneg(a + j * d, dt);
    assert (j * d) * dt == j * u;
    assert k' * u == k * u + j * u;
  }

  lemma NextPosition(p: Params, s: Joint, x: Joint, w: Joint, j: nat)
    requires p.Positive() && j > 0 && HeldVelocity(p, s, w, j) && HeldPosition(p, s, x, j - 1)
    requires w.q == x.q + w.v * p.dt
    ensures HeldPosition(p, s, w, j)
  {
    hide Jerked, Taken, Lost, Behind, Ahead, HeldAcc;
    TakenMore(j);
    AheadMore(p, s, j);
    PositionCore(p.dt, Jerked(p), Shift(p), Taken(j), Lost(j - 1), Lost(j), s.v, s.v * p.dt, w.v, w.v * p.dt,
                 Ahead(p, s, j - 1), x.q);
  }

  lemma AheadMore(p: Params, s: Joint, j: nat)
    requires j > 0
    ensures Ahead(p, s, j) == Ahead(p, s, j - 1) + s.v * p.dt
  {
    var x := s.v * p.dt;
    assert (j - 1) as real * x == j as real * x - x;
  }

  lemma PositionCore(dt: real, u: real, y: real, k': real, l: real, l': real, v0: real, x0: real, w: real, x: real,
                     ahead: real, q: real)
    requires dt > 0.0 && y == u * dt && x0 == v0 * dt && x == w * dt && l' == l + k'
    requires Behind(v0, k', u, w) && Behind(ahead, l, y, q)
    ensures Behind(ahead + x0, l', y, q + x)
  {
    MulNonneg(w - (v0 - k' * u), dt);
    assert (k' * u) * dt == k' * y;
    assert l' * y == l * y + k' * y;
  }

  lemma HeldStays(p: Params, s: Joint, x: Joint, t: real, j: nat)
    requires p.Positive() && j > 0 && Held(p, s, x, j - 1)
    ensures Held(p, s, StepJoint(p, x, t), j)
  {
    hide StepJoint, Pull, Moved, Acc, HeldAcc, HeldVelocity, HeldPosition;
    var w := StepJoint(p, x, t);
    JerkFloor(p, x, t);
    StepMoves(p, x, t);
    NextAcc(p, x, w, j);
    NextVelocity(p, s, x, w, j);
    NextPosition(p, s, x, w, j);
  }

  lemma HeldFirst(p: Params, s: Joint)
    requires Bounded(p, s) && s.a >= 0.0
    ensures Held(p, s, s, 0)
  {
    assert Taken(0) == 0.0 && Lost(0) == 0.0;
    hide Jerked, Shift, Params.D;
    assert 0.0 * Jerked(p) == 0.0 && 0.0 * Shift(p) == 0.0 && 0.0 * p.D() == 0.0 && 0.0 * (s.v * p.dt) == 0.0;
  }

  lemma {:induction false} Holds(p: Params, t: real, k: nat, j: nat)
    requires p.Positive() && AtTop(p, Hold(p, Rest(0.0), t, k))
    ensures Held(p, Hold(p, Rest(0.0), t, k), Hold(p, Rest(0.0), t, k + j), j)
  {
    hide StepJoint, Held;
    if j == 0 {
      HeldFirst(p, Hold(p, Rest(0.0), t, k));
    } else {
      Holds(p, t, k, j - 1);
      HeldStays(p, Hold(p, Rest(0.0), t, k), Hold(p, Rest(0.0), t, k + j - 1), t, j);
    }
  }

  /** jMax is too small against wn * wn * vMax to stop in time. */
  ghost predicate TooSoft(p: Params) {
    var h := p.H();
    2.0 * (p.wn * p.wn * p.vMax) >= p.jMax * ((3.0 + 2.0 * h) * (3.0 + 3.0 * h))
  }

  /** Three over the natural frequency, in ticks. */
  lemma ThreeSpans(p: Params) returns (n: nat)
    requires p.Positive()
    ensures n as real * p.H() >= 3.0 && n as real * p.H() <= 3.0 + p.H() && n > 0
  {
    HPositive(p);
    hide Params.H;
    var x := 3.0 / p.H();
    assert x * p.H() == 3.0;
    n := if x == x.Floor as real then x.Floor else x.Floor + 1;
    MulNonneg(n as real - x, p.H());
    MulNonneg(x + 1.0 - n as real, p.H());
  }


  /** By then the distance lost to the jerk limit is a third of the distance covered. */
  lemma SoftLoss(p: Params, n: nat)
    requires p.Positive() && TooSoft(p) && n as real * p.H() <= 3.0 + p.H()
    ensures p.wn * (Lost(n) * Shift(p)) <= (n as real * p.H()) * p.vMax / 3.0
  {
    hide Lost, TooSoft;
    var x := n as real;
    var m := (x + 1.0) * (x + 2.0);
    LostIs(n, x, m);
    HPositive(p);
    SoftArea(p, x, m);
    SoftCore(p.wn, p.dt, p.H(), x, m, p.jMax, p.jMax * (m * (p.dt * p.dt)), p.vMax, Lost(n), Shift(p));
  }

  lemma LostIs(n: nat, x: real, m: real)
    requires x == n as real && m == (x + 1.0) * (x + 2.0)
    ensures Lost(n) == x * m / 6.0
  {
    assert (n * (n + 1) * (n + 2)) as real == x * (x + 1.0) * (x + 2.0);
  }

  lemma SoftCore(wn: real, dt: real, h: real, x: real, m: real, jMax: real, z: real, vMax: real,
                 lost: real, shift: real)
    requires h == wn * dt && h >= 0.0 && x >= 0.0 && lost == x * m / 6.0 && shift == ((jMax * dt) * dt) * dt
    requires z == jMax * (m * (dt * dt)) && z <= 2.0 * vMax
    ensures wn * (lost * shift) <= (x * h) * vMax / 3.0
  {
    MulNonneg(x, h);
    MulNonneg(x * h, 2.0 * vMax - z);
    assert wn * (x * m * shift) == (x * h) * z by { assert m * shift == z * dt; }
  }

  lemma SoftArea(p: Params, x: real, m: real)
    requires p.Positive() && TooSoft(p) && x >= 0.0 && x * p.H() <= 3.0 + p.H() && m == (x + 1.0) * (x + 2.0)
    ensures p.jMax * (m * (p.dt * p.dt)) <= 2.0 * p.vMax
  {
    HPositive(p);
    KpPositive(p);
    AreaCore(p.wn, p.dt, p.H(), p.Kp(), x, m, p.jMax, p.vMax, p.jMax * (m * (p.dt * p.dt)));
  }

  lemma AreaCore(wn: real, dt: real, h: real, kp: real, x: real, m: real, jMax: real, vMax: real, y: real)
    requires h == wn * dt && kp == wn * wn && h > 0.0 && kp > 0.0 && jMax > 0.0 && x >= 0.0 && x * h <= 3.0 + h
    requires m == (x + 1.0) * (x + 2.0) && y == jMax * (m * (dt * dt))
    requires 2.0 * (wn * wn * vMax) >= jMax * ((3.0 + 2.0 * h) * (3.0 + 3.0 * h))
    ensures y <= 2.0 * vMax
  {
    AreaBound(x, h, m);
    MulNonneg(jMax, (3.0 + 2.0 * h) * (3.0 + 3.0 * h) - m * (h * h));
    AreaScale(wn, dt, h, kp, m, jMax);
    assert y * kp <= (2.0 * vMax) * kp;
    CancelLe(y, 2.0 * vMax, kp);
  }

  lemma AreaBound(x: real, h: real, m: real)
    requires x >= 0.0 && h > 0.0 && x * h <= 3.0 + h && m == (x + 1.0) * (x + 2.0)
    ensures m * (h * h) <= (3.0 + 2.0 * h) * (3.0 + 3.0 * h)
  {
    var a, b := x * h + h, x * h + 2.0 * h;
    MulNonneg(x, h);
    assert m * (h * h) == a * b;
    MulNonneg(3.0 + 2.0 * h - a, b);
    MulNonneg(3.0 + 2.0 * h, 3.0 + 3.0 * h - b);
  }

  lemma AreaScale(wn: real, dt: real, h: real, kp: real, m: real, jMax: real)
    requires h == wn * dt && kp == wn * wn
    ensures (jMax * (m * (dt * dt))) * kp == jMax * (m * (h * h))
  {
    assert h * h == kp * (dt * dt);
    assert (m * (dt * dt)) * kp == m * (kp * (dt * dt));
  }

  lemma HeldPasses(wn: real, dt: real, h: real, x: real, v: real, e: real, e': real, loss: real)
    requires wn > 0.0 && dt > 0.0 && h == wn * dt && v > 0.0 && x * h >= 3.0 && wn * e < 2.0 * v
    requires wn * loss <= (x * h) * v / 3.0 && e' <= e - x * (v * dt) + loss
    ensures e' < 0.0
  {
    MulNonneg(x * h - 3.0, v);
    MulNonneg(wn, e - x * (v * dt) + loss - e');
    assert wn * (x * (v * dt)) == (x * h) * v;
    if e' >= 0.0 {
      MulNonneg(wn, e');
      assert false;
    }
  }

  lemma HeldLeft(p: Params, t: real, s: Joint, w: Joint, n: nat)
    requires Held(p, s, w, n)
    ensures Left(t, w) <= Left(t, s) - n as real * (s.v * p.dt) + Lost(n) * Shift(p)
  {
    hide Lost, Shift, HeldAcc, HeldVelocity, Bounded;
  }

  lemma SoftTurn(p: Params, t: real, s: Joint, w: Joint, n: nat)
    requires p.Positive() && TooSoft(p) && n as real * p.H() >= 3.0 && n as real * p.H() <= 3.0 + p.H()
    requires AtTop(p, s) && Pull(p, s, t) < 0.0 && Held(p, s, w, n)
    ensures Left(t, w) < 0.0
  {
    hide TooSoft, Held, Lost, Shift, Pull, Left, Bounded;
    TurnIsClose(p, t, s);
    HeldLeft(p, t, s, w, n);
    SoftLoss(p, n);
    HeldPasses(p.wn, p.dt, p.H(), n as real, p.vMax, Left(t, s), Left(t, w), Lost(n) * Shift(p));
  }

  lemma SoftPasses(p: Params, t: real, k: nat)
    requires p.Positive() && t > 0.0 && TooSoft(p) && TurnsAt(p, t, k)
    ensures !NeverPasses(p, 0.0, t)
  {
    hide TooSoft, NeverPasses, Hold, Pull, AtTop, Held, Params.H;
    var n := ThreeSpans(p);
    Holds(p, t, k, n);
    SoftTurn(p, t, Hold(p, Rest(0.0), t, k), Hold(p, Rest(0.0), t, k + n), n);
    if NeverPasses(p, 0.0, t) {
      LeftNonneg(p, t, k + n);
      assert false;
    }
  }

  lemma WeakPasses(p: Params, t: real, k: nat)
    requires p.Positive() && t > 0.0 && TurnsAt(p, t, k) && TooWeak(p)
    ensures !NeverPasses(p, 0.0, t)
  {
    hide NeverPasses, Hold, Pull;
    var s := Hold(p, Rest(0.0), t, k);
    TurnIsClose(p, t, s);
    TurnTooFast(p.wn, p.aMax, p.aMax * p.dt, Left(t, s), p.vMax);
    TooFastPasses(p, t, k);
  }

  /** aMax is too small against wn * vMax to stop in time. */
  ghost predicate TooWeak(p: Params) { p.wn * (p.vMax - p.aMax * p.dt) >= 4.0 * p.aMax }

  // ------------------------------------------------------------ what every overshoot-free filter has

  lemma TunedIsFree(p: Params, n: nat)
    requires Tuned(p, n)
    ensures p.Positive() && OvershootFree(p)
  {
    TunedPositive(p, n);
    hide Tuned, Reached;
    forall q0: real, t: real, k: nat ensures OnSide(q0, t, Reached(p, q0, t, k)) {
      if q0 <= t { NoOvershoot(p, n, q0, t, k); } else { NoUndershoot(p, n, q0, t, k); }
    }
  }

  /**
   * No overshoot from any start toward any target needs a short tick, brakes and jerk, each a condition on the
   * constants alone.  Tuned suffices.
   */
  lemma OvershootFreeNeeds(p: Params)
    requires p.Positive() && OvershootFree(p)
    ensures ShortTick(p) && !TooWeak(p) && !TooSoft(p)
  {
    hide ShortTick, TooWeak, TooSoft, NeverPasses, TurnsAt;
    assert SmallMovesNeverPass(p) by { assert NeverPassesUpTo(p, 1.0); }
    SmallMovesApproachIff(p);
    var t, k := SomeMoveTurns(p);
    assert NeverPasses(p, 0.0, t);
    if TooWeak(p) { WeakPasses(p, t, k); assert false; }
    if TooSoft(p) { SoftPasses(p, t, k); assert false; }
  }

  /** Every run inside every range stays inside it. */
  ghost predicate AlwaysContained(p: Params)
    requires p.dt > 0.0
  {
    forall r: real :: ContainedUpTo(p, r)
  }

  lemma ContainedNeverPasses(p: Params, q0: real, t: real)
    requires p.Positive() && AlwaysContained(p)
    ensures NeverPasses(p, q0, t)
  {
    hide Run;
    forall k: nat ensures OnSide(q0, t, Reached(p, q0, t, k)) {
      var lo, hi := Min(q0, t), Max(q0, t);
      assert ContainedUpTo(p, hi - lo) && AllWithin(Constant(t, k), lo, hi);
    }
  }

  /** Containment needs at least as much. */
  lemma AlwaysContainedNeeds(p: Params)
    requires p.Positive() && AlwaysContained(p)
    ensures ShortTick(p) && !TooWeak(p) && !TooSoft(p)
  {
    hide AlwaysContained, NeverPasses, ShortTick, TooWeak, TooSoft;
    forall q0: real, t: real ensures NeverPasses(p, q0, t) {
      ContainedNeverPasses(p, q0, t);
    }
    OvershootFreeNeeds(p);
  }
}
