/**
 * The pacing of ControlLoop._run: an absolute schedule advanced by dt per tick, a sleep when early,
 * a fresh schedule when more than a period behind.
 */
module Pacing {

  /** What the clock shows before the sleep, after it, and when the schedule is renewed. */
  datatype Readings = Readings(now: real, woken: real, renewed: real)

  /** The scheduled time of the tick that just ended, and when it really ended. */
  datatype Pace = Pace(due: real, ended: real)

  function Advance(dt: real, p: Pace, r: Readings): Pace {
    var due := p.due + dt;
    var sleep := due - r.now;
    if sleep > 0.0 then Pace(due, r.woken)
    else if sleep < -dt then Pace(r.renewed, r.renewed)
    else Pace(due, r.now)
  }

  /** The end of _run's loop body, updating t_next. */
  method PaceTick(dt: real, tNext0: real, ended0: real, r: Readings) returns (tNext: real, ended: real)
    ensures Pace(tNext, ended) == Advance(dt, Pace(tNext0, ended0), r)
  {
    tNext := tNext0 + dt;
    ended := r.now;
    var sleep := tNext - r.now;
    if sleep > 0.0 {
      ended := r.woken;
    } else if sleep < -dt {
      tNext := r.renewed;
      ended := r.renewed;
    }
  }

  /** A monotonic clock that is not read early after a sleep. */
  ghost predicate ClockOk(dt: real, p: Pace, r: Readings) {
    && p.ended <= r.now <= r.renewed
    && (p.due + dt > r.now ==> r.woken >= p.due + dt)
  }

  ghost predicate Paced(dt: real, ps: seq<Pace>, rs: seq<Readings>) {
    && |ps| == |rs| + 1
    && forall k | 0 <= k < |rs| :: ClockOk(dt, ps[k], rs[k]) && ps[k + 1] == Advance(dt, ps[k], rs[k])
  }

  /** n periods. */
  function Periods(dt: real, n: int): real { n as real * dt }

  lemma OneMore(dt: real, n: int)
    ensures Periods(dt, n) == Periods(dt, n - 1) + dt && Periods(dt, 0) == 0.0
  {
    assert n as real * dt == (n - 1) as real * dt + dt;
  }

  lemma OneTick(dt: real, p: Pace, r: Readings)
    requires dt > 0.0 && ClockOk(dt, p, r)
    ensures var n := Advance(dt, p, r); n.ended >= n.due >= p.due + dt && n.due >= p.ended - dt
  {
  }

  lemma {:induction false} DueGrows(dt: real, ps: seq<Pace>, rs: seq<Readings>, i: nat, j: nat)
    requires dt > 0.0 && Paced(dt, ps, rs) && 1 <= i <= j < |ps|
    ensures ps[j].ended >= ps[j].due >= ps[i].due + Periods(dt, j - i)
    decreases j
  {
    OneMore(dt, j - i);
    assert ps[j] == Advance(dt, ps[j - 1], rs[j - 1]);
    hide Periods, Advance;
    OneTick(dt, ps[j - 1], rs[j - 1]);
    if i < j {
      DueGrows(dt, ps, rs, i, j - 1);
    }
  }

  /** However late ticks end, any n + 1 consecutive ends span at least n - 2 periods. */
  lemma RateBound(dt: real, ps: seq<Pace>, rs: seq<Readings>, k: nat, n: nat)
    requires dt > 0.0 && Paced(dt, ps, rs) && 1 <= n && k + n < |ps|
    ensures ps[k + n].ended - ps[k].ended >= Periods(dt, n - 2)
  {
    OneMore(dt, n - 1);
    hide Periods;
    OneTick(dt, ps[k], rs[k]);
    DueGrows(dt, ps, rs, k + 1, k + n);
  }

  /** A tick that oversleeps by two periods, two that catch up at once, then exact ones. */
  function Oversleep(dt: real, k: nat): Pace { Pace(Periods(dt, k), Periods(dt, if k < 2 then 2 else k)) }

  function Reading(dt: real, k: nat): Readings {
    var now := Oversleep(dt, k).ended;
    Readings(now, Periods(dt, k + 1), now)
  }

  lemma OversleepStep(dt: real, k: nat)
    requires dt > 0.0
    ensures ClockOk(dt, Oversleep(dt, k), Reading(dt, k))
    ensures Oversleep(dt, k + 1) == Advance(dt, Oversleep(dt, k), Reading(dt, k))
  {
    OneMore(dt, k + 1);
    OneMore(dt, 1);
    OneMore(dt, 2);
    hide Periods;
  }

  /** The bound is attained for every number of ticks: after an oversleep of two periods, n of them span n - 2. */
  lemma RateBoundTight(dt: real, n: nat)
    requires dt > 0.0 && n >= 2
    ensures exists ps: seq<Pace>, rs: seq<Readings> ::
              Paced(dt, ps, rs) && |ps| == n + 1 && ps[n].ended - ps[0].ended == Periods(dt, n - 2)
  {
    var ps, rs := seq(n + 1, k requires 0 <= k => Oversleep(dt, k)), seq(n, k requires 0 <= k => Reading(dt, k));
    forall k | 0 <= k < |rs| ensures ClockOk(dt, ps[k], rs[k]) && ps[k + 1] == Advance(dt, ps[k], rs[k]) {
      OversleepStep(dt, k);
    }
    Difference(dt, n);
    assert Paced(dt, ps, rs);
  }

  lemma Difference(dt: real, n: nat)
    ensures Periods(dt, n) - Periods(dt, 2) == Periods(dt, n - 2)
  {
    assert n as real * dt == (n - 2) as real * dt + 2.0 * dt;
  }

  /** Ticks whose work fits the period, with exact sleeps, end exactly on schedule. */
  lemma {:induction false} ExactSchedule(dt: real, ps: seq<Pace>, rs: seq<Readings>, k: nat)
    requires dt > 0.0 && Paced(dt, ps, rs) && k < |ps|
    requires forall j | 0 <= j < |rs| :: rs[j].now < ps[j].due + dt && rs[j].woken == ps[j].due + dt
    requires ps[0].due == ps[0].ended
    ensures ps[k].due == ps[k].ended == ps[0].due + Periods(dt, k)
  {
    OneMore(dt, k);
    hide Periods;
    if k > 0 {
      ExactSchedule(dt, ps, rs, k - 1);
      assert ps[k] == Advance(dt, ps[k - 1], rs[k - 1]);
    }
  }

  /** Tick k ends, before any sleep, more than a period after its scheduled time. */
  ghost predicate Stalls(dt: real, ps: seq<Pace>, rs: seq<Readings>, k: nat) {
    k < |rs| && k < |ps| && rs[k].now > ps[k].due + dt + dt
  }

  /** Tick k's work ends before its scheduled time, and it sleeps until exactly then. */
  ghost predicate Fits(dt: real, ps: seq<Pace>, rs: seq<Readings>, k: nat) {
    k < |rs| && k < |ps| && rs[k].now < ps[k].due + dt && rs[k].woken == ps[k].due + dt
  }

  /** A tick that does not sleep leaves the schedule at most a period behind, a stalled one exactly on time. */
  lemma StallRenews(dt: real, ps: seq<Pace>, rs: seq<Readings>, k: nat)
    requires dt > 0.0 && Paced(dt, ps, rs) && k < |rs| && rs[k].now >= ps[k].due + dt
    ensures ps[k + 1].due <= ps[k + 1].ended <= ps[k + 1].due + dt
    ensures Stalls(dt, ps, rs, k) ==> ps[k + 1].due == ps[k + 1].ended == rs[k].renewed
    ensures !Stalls(dt, ps, rs, k) ==> ps[k + 1].due == ps[k].due + dt && ps[k + 1].ended == rs[k].now
  {
    assert ps[k + 1] == Advance(dt, ps[k], rs[k]);
  }

  /** After a stall, ticks that fit end exactly one period apart, from the end of the stall. */
  lemma {:induction false} StallRecovers(dt: real, ps: seq<Pace>, rs: seq<Readings>, k: nat, m: nat)
    requires dt > 0.0 && Paced(dt, ps, rs) && Stalls(dt, ps, rs, k) && k < m < |ps|
    requires forall j: nat | k < j < m :: Fits(dt, ps, rs, j)
    ensures ps[m].due == ps[m].ended == ps[k + 1].ended + Periods(dt, m - k - 1)
    decreases m
  {
    OneMore(dt, m - k - 1);
    StallRenews(dt, ps, rs, k);
    hide Periods;
    if m > k + 1 {
      StallRecovers(dt, ps, rs, k, m - 1);
      assert Fits(dt, ps, rs, m - 1);
      assert ps[m] == Advance(dt, ps[m - 1], rs[m - 1]);
    }
  }
}
