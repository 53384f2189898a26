/**
 * What the three clamps guarantee on every run, and exactly when the jerk limit itself holds.
 *
 * The velocity clamp acts after the jerk clamp, so the tick that reaches vMax can drop the surviving
 * acceleration by more than jMax * dt.
 */
module FilterRates {
  import opened Numeric
  import opened ReferenceFilter
  import opened FilterContainment

  ghost predicate Cut(p: Params, s: Joint, t: real)
    requires p.dt > 0.0
  {
    StepJoint(p, s, t).a != Acc(p, s, t)
  }

  lemma {:induction false} RunBounded(p: Params, q0: real, targets: seq<real>)
    requires p.Positive()
    ensures Bounded(p, Run(p, Rest(q0), targets))
  {
    if targets != [] {
      RunBounded(p, q0, targets[..|targets| - 1]);
      StepBounded(p, Run(p, Rest(q0), targets[..|targets| - 1]), targets[|targets| - 1]);
    }
  }

  /** The change of the surviving acceleration in one tick of any run. */
  function Change(p: Params, s: Joint, t: real): real
    requires p.dt > 0.0
  {
    Abs(StepJoint(p, s, t).a - s.a)
  }

  /** Velocity, acceleration and jerk over every run and every target sequence. */
  lemma RunRates(p: Params, q0: real, targets: seq<real>, t: real)
    requires p.Positive()
    ensures var s := Run(p, Rest(q0), targets);
            var w := StepJoint(p, s, t);
            && Abs(w.v) <= p.vMax && Abs(w.a) <= p.aMax && w.q == s.q + w.v * p.dt
            && (!Cut(p, s, t) ==> Change(p, s, t) <= p.D())
            && Change(p, s, t) <= Max(p.D(), p.aMax)
  {
    var s := Run(p, Rest(q0), targets);
    RunBounded(p, q0, targets);
    hide Run, Acc, Params.D;
    AccBounded(p, s, t);
    StepBounded(p, s, t);
    VelocityClamp(p, s, Acc(p, s, t));
  }

  ghost predicate JerkKept(p: Params)
    requires p.dt > 0.0
  {
    forall q0: real, targets: seq<real>, t: real :: Change(p, Run(p, Rest(q0), targets), t) <= p.D()
  }

  /** The velocity gained in one tick of acceleration x. */
  function Gain(p: Params, x: real): real { x * p.dt }

  lemma RateOf(p: Params, s: Joint, acc: real)
    requires p.Positive() && Bounded(p, s)
    ensures var w := Advance(p, s, acc);
            Gain(p, w.a) == w.v - s.v && -p.vMax <= w.v <= p.vMax
  {
    VelocityClamp(p, s, acc);
  }

  lemma GainOrder(p: Params, x: real, y: real)
    requires p.dt > 0.0 && Gain(p, x) <= Gain(p, y)
    ensures x <= y
  {
    CancelLe(x, y, p.dt);
  }

  lemma GainOdd(p: Params, x: real)
    ensures Gain(p, -x) == -Gain(p, x)
  {
  }

  /** In a range of velocities crossed within one limit-sized tick, no acceleration exceeds the limit. */
  lemma NarrowRange(p: Params, q0: real, targets: seq<real>)
    requires p.Positive() && 2.0 * p.vMax <= Gain(p, p.D())
    ensures Abs(Run(p, Rest(q0), targets).a) <= p.D()
  {
    DPositive(p);
    if targets != [] {
      var s := Run(p, Rest(q0), targets[..|targets| - 1]);
      RunBounded(p, q0, targets[..|targets| - 1]);
      var acc := Acc(p, s, targets[|targets| - 1]);
      assert Run(p, Rest(q0), targets) == Advance(p, s, acc);
      hide Run, Acc, Params.D, Gain, Advance;
      RateOf(p, s, acc);
      var a := Advance(p, s, acc).a;
      GainOdd(p, p.D());
      GainOrder(p, a, p.D());
      GainOrder(p, -p.D(), a);
    }
  }

  // ------------------------------------------------------------ steering

  /** The target whose pull is x. */
  function Aim(p: Params, s: Joint, x: real): real
    requires p.Kp() > 0.0
  {
    s.q + (x + p.Kd() * s.v) / p.Kp()
  }

  lemma KpPositive(p: Params)
    requires p.Positive()
    ensures p.Kp() > 0.0
  {
    ProductPositive(p.wn, p.wn, p.Kp());
  }

  lemma AimPulls(p: Params, s: Joint, x: real)
    requires p.Kp() > 0.0
    ensures Pull(p, s, Aim(p, s, x)) == x
  {
    hide Params.Kp, Params.Kd;
    QuotientBack(x + p.Kd() * s.v, p.Kp());
  }

  lemma QuotientBack(y: real, k: real)
    requires k > 0.0
    ensures k * (y / k) == y
  {
  }

  lemma SteeredAcc(p: Params, s: Joint, x: real)
    requires p.Positive() && p.Kp() > 0.0 && Abs(x) <= p.aMax && Abs(x - s.a) <= p.D()
    ensures Acc(p, s, Aim(p, s, x)) == x
  {
    hide Pull, Aim, Params.D, Params.Kp;
    AimPulls(p, s, x);
  }

  lemma FreeAdvance(p: Params, s: Joint, x: real)
    requires p.Positive() && -p.vMax <= s.v + Gain(p, x) <= p.vMax
    ensures var w := Advance(p, s, x); w.v == s.v + Gain(p, x) && w.a == x
  {
    var w := Advance(p, s, x);
    assert w.a * p.dt == w.v - s.v;
    CancelEq(w.a, x, p.dt);
  }

  /** A tick can be given any acceleration the clamps admit. */
  lemma Steer(p: Params, s: Joint, x: real)
    requires p.Positive() && p.Kp() > 0.0
    requires Abs(x) <= p.aMax && Abs(x - s.a) <= p.D() && Abs(s.v + Gain(p, x)) <= p.vMax
    ensures var w := StepJoint(p, s, Aim(p, s, x)); w.v == s.v + Gain(p, x) && w.a == x
  {
    hide Acc, Aim, Params.D, Params.Kp, Gain, Advance;
    SteeredAcc(p, s, x);
    FreeAdvance(p, s, x);
  }

  /** A run extended by a tick of acceleration x. */
  lemma SteerRun(p: Params, targets: seq<real>, x: real) returns (longer: seq<real>)
    requires p.Positive() && Abs(x) <= p.aMax
    requires var s := Run(p, Rest(0.0), targets); Abs(x - s.a) <= p.D() && Abs(s.v + Gain(p, x)) <= p.vMax
    ensures var s, w := Run(p, Rest(0.0), targets), Run(p, Rest(0.0), longer);
            w.v == s.v + Gain(p, x) && w.a == x
  {
    var s := Run(p, Rest(0.0), targets);
    KpPositive(p);
    longer := targets + [Aim(p, s, x)];
    assert longer[..|targets|] == targets;
    assert Run(p, Rest(0.0), longer) == StepJoint(p, s, Aim(p, s, x));
    hide Run, StepJoint, Aim, Params.D, Params.Kp, Gain;
    Steer(p, s, x);
  }

  /** k equal velocity gains. */
  function Steps(k: nat, y: real): real { k as real * y }

  lemma FewerSteps(k: nat, y: real)
    requires k > 0
    ensures Abs(Steps(k - 1, y)) <= Abs(Steps(k, y)) && Steps(k, y) == Steps(k - 1, y) + y
  {
    if y >= 0.0 {
      MulNonneg((k - 1) as real, y);
    } else {
      MulNonneg((k - 1) as real, -y);
    }
  }

  /** k ticks of the small acceleration x from rest. */
  lemma {:induction false} Coast(p: Params, x: real, k: nat) returns (targets: seq<real>)
    requires p.Positive() && Abs(x) <= p.aMax && Abs(x) <= p.D() && Abs(Steps(k, Gain(p, x))) <= p.vMax
    ensures var s := Run(p, Rest(0.0), targets);
            s.v == Steps(k, Gain(p, x)) && s.a == if k == 0 then 0.0 else x
  {
    targets := [];
    if k > 0 {
      DPositive(p);
      FewerSteps(k, Gain(p, x));
      hide Steps, Gain, Run, Params.D;
      targets := Coast(p, x, k - 1);
      targets := SteerRun(p, targets, x);
    }
  }

  /** Every admissible velocity is reached at zero acceleration. */
  lemma Cruise(p: Params, v: real) returns (targets: seq<real>)
    requires p.Positive() && Abs(v) <= p.vMax
    ensures var s := Run(p, Rest(0.0), targets); s.v == v && s.a == 0.0
  {
    DPositive(p);
    assert Gain(p, 0.0) == 0.0;
    hide Steps, Gain, Run, Params.D;
    var k, x := Split(p, v, Min(p.aMax, p.D()));
    targets := Coast(p, x, k);
    targets := SteerRun(p, targets, 0.0);
  }

  /** v as k equal gains of an acceleration no larger than unit. */
  lemma Split(p: Params, v: real, unit: real) returns (k: nat, x: real)
    requires p.dt > 0.0 && unit > 0.0
    ensures Abs(x) <= unit && Steps(k, Gain(p, x)) == v
  {
    MulPositive(unit, p.dt);
    k := Ticks(Abs(v), Gain(p, unit));
    MulPositive(k as real, p.dt);
    x := v / (k as real * p.dt);
    QuotientBack(v, k as real * p.dt);
    SplitExact(k as real, p.dt, x, v);
    SplitSmall(x, k as real * p.dt, unit, v) by {
      assert unit * (k as real * p.dt) == k as real * (unit * p.dt);
    }
  }

  lemma Ticks(v: real, size: real) returns (k: nat)
    requires v >= 0.0 && size > 0.0
    ensures k >= 1 && k as real * size >= v
  {
    var need := v / size;
    assert need * size == v;
    CancelLe(0.0, need, size);
    k := need.Floor + 1;
    MulNonneg(k as real - need, size);
  }

  lemma SplitExact(n: real, dt: real, x: real, v: real)
    requires (n * dt) * x == v
    ensures n * (x * dt) == v
  {
  }

  lemma SplitSmall(x: real, m: real, unit: real, v: real)
    requires m > 0.0 && m * x == v && -(unit * m) <= v <= unit * m
    ensures Abs(x) <= unit
  {
    CancelLe(x, unit, m);
    CancelLe(-unit, x, m);
  }

  // ------------------------------------------------------------ the jerk limit, exactly

  /** A run whose last tick is cut from an acceleration above the limit down to zero. */
  lemma JerkBroken(p: Params) returns (targets: seq<real>)
    requires p.Positive() && p.aMax > p.D() && 2.0 * p.vMax > Gain(p, p.D())
    ensures forall t: real :: Change(p, Run(p, Rest(0.0), targets), t) > p.D()
  {
    DPositive(p);
    var y := Spare(p);
    var v0 := p.vMax - Gain(p, p.D() + y) - Gain(p, y);
    hide Gain, Run, Params.D;
    targets := Cruise(p, v0);
    targets := SteerRun(p, targets, y);
    targets := SteerRun(p, targets, p.D() + y);
    var s := Run(p, Rest(0.0), targets);
    assert s.v == p.vMax && s.a == p.D() + y;
    forall t: real ensures Change(p, s, t) > p.D() {
      CutToZero(p, s, t);
    }
  }

  /** Room for an acceleration y before the tick that exceeds the limit by y. */
  lemma Spare(p: Params) returns (y: real)
    requires p.Positive() && p.aMax > p.D() && 2.0 * p.vMax > Gain(p, p.D())
    ensures 0.0 < y <= p.D() && p.D() + y <= p.aMax
    ensures Gain(p, p.D() + y) >= 0.0 && Gain(p, y) >= 0.0
    ensures Gain(p, p.D() + y) + Gain(p, y) <= 2.0 * p.vMax
  {
    DPositive(p);
    var room := Room(p, 2.0 * p.vMax - Gain(p, p.D()));
    y := Min(Min(p.aMax - p.D(), p.D()), room / 2.0);
    hide Params.D;
    SpareFits(p.D(), y, room, p.dt, 2.0 * p.vMax);
  }

  lemma Room(p: Params, span: real) returns (room: real)
    requires p.dt > 0.0 && span > 0.0
    ensures room > 0.0 && room * p.dt == span
  {
    room := span / p.dt;
    QuotientBack(span, p.dt);
    if room <= 0.0 { MulNonneg(-room, p.dt); }
  }

  lemma SpareFits(d: real, y: real, room: real, dt: real, span: real)
    requires dt > 0.0 && d > 0.0 && 0.0 < y && 2.0 * y <= room && room * dt == span - d * dt
    ensures (d + y) * dt >= 0.0 && y * dt >= 0.0 && (d + y) * dt + y * dt <= span
  {
    MulNonneg(d + y, dt);
    MulNonneg(y, dt);
    MulNonneg(room - 2.0 * y, dt);
  }

  lemma CutToZero(p: Params, s: Joint, t: real)
    requires p.Positive() && s.v == p.vMax && p.D() < s.a <= p.aMax
    ensures Change(p, s, t) > p.D()
  {
    DPositive(p);
    hide Pull, Params.D;
    var acc := Acc(p, s, t);
    assert acc > 0.0;
    hide Acc;
    MulPositive(acc, p.dt);
    assert StepJoint(p, s, t).v == p.vMax;
    assert StepJoint(p, s, t).a == 0.0;
  }

  /** The jerk limit holds on every run exactly when it admits aMax, or the whole range of velocities. */
  lemma JerkKeptIff(p: Params)
    requires p.Positive()
    ensures JerkKept(p) <==> (p.aMax <= p.D() || 2.0 * p.vMax <= p.D() * p.dt)
  {
    assert Gain(p, p.D()) == p.D() * p.dt;
    if p.aMax <= p.D() || 2.0 * p.vMax <= Gain(p, p.D()) {
      forall q0: real, targets: seq<real>, t: real
        ensures Change(p, Run(p, Rest(q0), targets), t) <= p.D()
      {
        JerkKeptOn(p, q0, targets, t);
      }
    } else {
      var targets := JerkBroken(p);
      assert Change(p, Run(p, Rest(0.0), targets), 0.0) > p.D();
    }
  }

  lemma JerkKeptOn(p: Params, q0: real, targets: seq<real>, t: real)
    requires p.Positive() && (p.aMax <= p.D() || 2.0 * p.vMax <= Gain(p, p.D()))
    ensures Change(p, Run(p, Rest(q0), targets), t) <= p.D()
  {
    RunRates(p, q0, targets, t);
    if p.aMax > p.D() {
      NarrowRange(p, q0, targets);
      RunBounded(p, q0, targets);
      hide Run, Acc, Params.D, Gain;
      var s := Run(p, Rest(q0), targets);
      AccBounded(p, s, t);
      VelocityClamp(p, s, Acc(p, s, t));
    }
  }

  /** The shipped constants exceed their own jerk limit on some run; 4 rad/s^2 per tick always holds. */
  lemma ShippedJerk()
    ensures !JerkKept(SHIPPED)
    ensures forall q0: real, targets: seq<real>, t: real ::
              Change(SHIPPED, Run(SHIPPED, Rest(q0), targets), t) <= 4.0
  {
    JerkKeptIff(SHIPPED);
    forall q0: real, targets: seq<real>, t: real
      ensures Change(SHIPPED, Run(SHIPPED, Rest(q0), targets), t) <= 4.0
    {
      RunRates(SHIPPED, q0, targets, t);
    }
  }
}
