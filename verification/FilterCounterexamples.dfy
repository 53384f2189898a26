/**
 * Critical damping alone does not prevent overshoot.  Each lemma meets all hypotheses of
 * NoOvershoot but one, and passes the target within a few ticks of rest.
 */
module FilterCounterexamples {
  import opened ReferenceFilter
  import opened FilterContainment
  import opened FilterNoOvershoot

  const SLOW_JERK := Params(0.5, 100.0, 100.0, 1.0, 1.0)

  const WEAK_BRAKES := Params(0.5, 100.0, 2.0, 1000.0, 1.0)

  lemma HoldZero(p: Params, t: real)
    requires p.dt > 0.0
    ensures Hold(p, Rest(0.0), t, 0) == Rest(0.0)
  {
  }

  lemma TickSlowJerk(t: real, k: nat, s: Joint, w: Joint)
    requires Hold(SLOW_JERK, Rest(0.0), t, k) == s && StepJoint(SLOW_JERK, s, t) == w
    ensures Hold(SLOW_JERK, Rest(0.0), t, k + 1) == w
  {
  }

  lemma JerkLimitNeeded()
    ensures var p := SLOW_JERK;
            && p.Positive() && Slow(p, 0) && Brakes(p, 0) && !Agile(p)
            && Reached(p, 0.0, 1.5, 5) > 1.5
  {
    hide Hold, Reached;
    var t := 1.5;
    HoldZero(SLOW_JERK, t);
    var s1, s2, s3 := Joint(0.125, 0.25, 0.5), Joint(0.46875, 0.6875, 0.875), Joint(0.90625, 0.875, 0.375);
    var s4, s5 := Joint(1.3125, 0.8125, -0.125), Joint(1.5625, 0.5, -0.625);
    TickSlowJerk(t, 0, Rest(0.0), s1);
    TickSlowJerk(t, 1, s1, s2);
    TickSlowJerk(t, 2, s2, s3);
    TickSlowJerk(t, 3, s3, s4);
    TickSlowJerk(t, 4, s4, s5);
    ReachedIsHold(SLOW_JERK, 0.0, t, 5);
  }

  lemma TickWeakBrakes(t: real, k: nat, s: Joint, w: Joint)
    requires Hold(WEAK_BRAKES, Rest(0.0), t, k) == s && StepJoint(WEAK_BRAKES, s, t) == w
    ensures Hold(WEAK_BRAKES, Rest(0.0), t, k + 1) == w
  {
  }

  lemma WeakBrakesTo4()
    ensures Hold(WEAK_BRAKES, Rest(0.0), 29.5, 4) == Joint(5.0, 4.0, 2.0)
  {
    hide Hold;
    var t := 29.5;
    var s1, s2, s3 := Joint(0.5, 1.0, 2.0), Joint(1.5, 2.0, 2.0), Joint(3.0, 3.0, 2.0);
    HoldZero(WEAK_BRAKES, t);
    TickWeakBrakes(t, 0, Rest(0.0), s1);
    TickWeakBrakes(t, 1, s1, s2);
    TickWeakBrakes(t, 2, s2, s3);
    TickWeakBrakes(t, 3, s3, Joint(5.0, 4.0, 2.0));
  }

  lemma WeakBrakesTo8()
    ensures Hold(WEAK_BRAKES, Rest(0.0), 29.5, 8) == Joint(17.875, 7.75, 1.5)
  {
    hide Hold;
    var t := 29.5;
    var s4, s5, s6, s7 := Joint(5.0, 4.0, 2.0), Joint(7.5, 5.0, 2.0), Joint(10.5, 6.0, 2.0), Joint(14.0, 7.0, 2.0);
    WeakBrakesTo4();
    TickWeakBrakes(t, 4, s4, s5);
    TickWeakBrakes(t, 5, s5, s6);
    TickWeakBrakes(t, 6, s6, s7);
    TickWeakBrakes(t, 7, s7, Joint(17.875, 7.75, 1.5));
  }

  lemma BrakesNeeded()
    ensures var p := WEAK_BRAKES;
            && p.Positive() && Slow(p, 0) && Agile(p) && !Brakes(p, 0)
            && Reached(p, 0.0, 29.5, 13) > 29.5
  {
    hide Hold, Reached;
    var t := 29.5;
    var s8, s9, s10 := Joint(17.875, 7.75, 1.5), Joint(21.25, 6.75, -2.0), Joint(24.125, 5.75, -2.0);
    var s11, s12, s13 := Joint(26.5, 4.75, -2.0), Joint(28.375, 3.75, -2.0), Joint(29.75, 2.75, -2.0);
    WeakBrakesTo8();
    TickWeakBrakes(t, 8, s8, s9);
    TickWeakBrakes(t, 9, s9, s10);
    TickWeakBrakes(t, 10, s10, s11);
    TickWeakBrakes(t, 11, s11, s12);
    TickWeakBrakes(t, 12, s12, s13);
    ReachedIsHold(WEAK_BRAKES, 0.0, t, 13);
  }
}
