/**
 * What becomes of a loop over a run: its stub, its errors, starts of it that raise, its detections, and the clearing
 * of the installed one.
 */
module RolloutLoops {
  import opened Outcomes
  import opened Rollout
  import opened RolloutHistory

  // ------------------------------------------------------------ what a loop's stub is

  /** Loop l's own connect, or a start of it that finds no live stub. */
  predicate Attempts(w: World, e: Event, l: nat) {
    w.Valid() && l < |w.loops| && (
      || (e.Connect? && e.l == l)
      || (e.Link? && AtPhase(w, e.s, Resetting) && w.launches[e.s].owner == l && !Live(w.loops[l])))
  }

  predicate AnsweredLive(w: World, e: Event, l: nat) {
    Attempts(w, e, l) && e.rpc.Replied? && (e.Connect? ==> !e.readOnly)
  }

  predicate AnsweredReadOnly(w: World, e: Event, l: nat) {
    Attempts(w, e, l) && e.rpc.Replied? && e.Connect? && e.readOnly
  }

  function Attempting(l: nat): Mark { (w: World, e: Event) => Attempts(w, e, l) }

  function GoingLive(l: nat): Mark { (w: World, e: Event) => AnsweredLive(w, e, l) }

  function GoingReadOnly(l: nat): Mark { (w: World, e: Event) => AnsweredReadOnly(w, e, l) }

  predicate HasStub(w: World, l: nat) { l < |w.loops| && w.loops[l].client.Some? }

  predicate StubLive(w: World, l: nat) { l < |w.loops| && Live(w.loops[l]) }

  lemma StepStub(w: World, e: Event, l: nat)
    requires w.Valid()
    ensures HasStub(Step(w, e), l) <==> Attempts(w, e, l) || HasStub(w, l)
    ensures StubLive(Step(w, e), l) <==> AnsweredLive(w, e, l) || (StubLive(w, l) && !AnsweredReadOnly(w, e, l))
  {
    if e.Stop? || e.Estop? || e.Disconnect? {
      StoppedStub(w, e, l);
      hide Step;
    } else if e.Link? || e.Abandon? || e.Spawn? || e.Announce? || e.Ends? {
      ThreadStub(w, e, l);
      hide Step;
    } else {
      hide NodeConnect, NodeEstop, NodeHalt, NodeLink, Joined, Halted, LoopLink;
    }
  }

  lemma ThreadStub(w: World, e: Event, l: nat)
    requires w.Valid() && (e.Link? || e.Abandon? || e.Spawn? || e.Announce? || e.Ends?)
    ensures HasStub(Step(w, e), l) <==> Attempts(w, e, l) || HasStub(w, l)
    ensures StubLive(Step(w, e), l) <==> AnsweredLive(w, e, l) || StubLive(w, l)
  {
    if e.Link? {
      LinkStub(w, e.s, e.rpc, l);
    } else {
      hide NodeEstop;
    }
  }

  lemma LinkStub(w: World, s: nat, rpc: Rpc, l: nat)
    requires w.Valid()
    ensures var e := Link(s, rpc); var r := Step(w, e);
      && (HasStub(r, l) <==> Attempts(w, e, l) || HasStub(w, l))
      && (StubLive(r, l) <==> AnsweredLive(w, e, l) || StubLive(w, l))
  {
    hide NodeConnect, NodeLink, LinkOk;
  }

  lemma StoppedStub(w: World, e: Event, l: nat)
    requires w.Valid() && (e.Stop? || e.Estop? || e.Disconnect?)
    ensures HasStub(Step(w, e), l) <==> HasStub(w, l)
    ensures StubLive(Step(w, e), l) <==> StubLive(w, l)
  {
    StoppingKeeps(w, e);
    var t := StopTarget(w, e);
    hide Step, Halted;
    if t < |w.loops| && l < |w.loops| { HaltedStub(w, t, e.joined, l); }
  }

  lemma HaltedStub(w: World, l: nat, joined: bool, i: nat)
    requires w.Valid() && l < |w.loops| && i < |w.loops|
    ensures Halted(w, l, joined).loops[i].client == w.loops[i].client
  {
  }

  /** A loop has a stub, so that an emergency stop calls the node, exactly once a connect of it was attempted. */
  lemma HasStubIff(es: seq<Event>, l: nat)
    ensures HasStub(Run(es), l) <==> Ever(es, Attempting(l))
  {
    forall w: World, e: Event | w.Valid()
      ensures HasStub(Step(w, e), l) <==> Attempting(l)(w, e) || HasStub(w, l)
    {
      StepStub(w, e, l);
      hide Step;
    }
    hide Step;
    StateIsEver(es, (w: World) => HasStub(w, l), Attempting(l));
  }

  /** And it is live exactly when the last connect that was answered was live. */
  lemma StubLiveIff(es: seq<Event>, l: nat)
    ensures StubLive(Run(es), l) <==> Since(es, GoingLive(l), GoingReadOnly(l))
  {
    forall w: World, e: Event | w.Valid()
      ensures StubLive(Step(w, e), l) <==> GoingLive(l)(w, e) || (StubLive(w, l) && !GoingReadOnly(l)(w, e))
    {
      StepStub(w, e, l);
      hide Step;
    }
    hide Step;
    StateIsSince(es, (w: World) => StubLive(w, l), GoingLive(l), GoingReadOnly(l));
  }

  // ------------------------------------------------------------ what stops leave

  predicate Stopping(e: Event) { e.Stop? || e.Estop? || e.Disconnect? }

  lemma StopShows(w: World, e: Event)
    requires w.Valid() && Stopping(e) && StopTarget(w, e) < |w.loops|
    ensures var before, after := w.loops[StopTarget(w, e)].stage, Step(w, e).loops[StopTarget(w, e)].stage;
      after == if before.Failed? then Failed else Stopped
    ensures forall l: nat | l < |w.loops| :: w.loops[l].stage.Failed? ==> Step(w, e).loops[l].stage.Failed?
  {
    StoppingKeeps(w, e);
    hide Step;
  }

  /**
   * After any run: a thread that fails leaves its loop in ERROR, which no number of stops clears; a loop that did not
   * fail is left STOPPED by its own stop, and may be started again if it was confirmed.
   */
  lemma ErrorStays(es: seq<Event>, th: nat, rpc: Rpc, stops: seq<Event>)
    requires Lives(Run(es), th) && forall k | 0 <= k < |stops| :: Stopping(stops[k])
    ensures var l, w := Run(es).threads[th].owner, Run(es + [Ends(th, true, rpc)] + stops);
      l < |w.loops| && w.loops[l].stage.Failed?
    decreases |stops|
  {
    hide Run, Step;
    var l, fails := Run(es).threads[th].owner, es + [Ends(th, true, rpc)];
    if stops == [] {
      FailShows(Run(es), th, rpc);
      RunStep(es, Ends(th, true, rpc), Run(es), fails);
      assert fails + stops == fails;
    } else {
      var init, e := stops[..|stops| - 1], stops[|stops| - 1];
      ErrorStays(es, th, rpc, init);
      StopKeepsError(Run(fails + init), e, l);
      RunStep(fails + init, e, Run(fails + init), fails + stops);
    }
  }

  lemma StopKeepsError(w: World, e: Event, l: nat)
    requires w.Valid() && Stopping(e) && l < |w.loops| && w.loops[l].stage.Failed?
    ensures l < |Step(w, e).loops| && Step(w, e).loops[l].stage.Failed?
  {
    StoppingKeeps(w, e);
    if StopTarget(w, e) < |w.loops| { StopShows(w, e); }
    hide Step;
  }

  lemma FailShows(w: World, th: nat, rpc: Rpc)
    requires w.Valid() && Lives(w, th)
    ensures var l, r := w.threads[th].owner, Step(w, Ends(th, true, rpc));
      l < |r.loops| && r.loops[l].stage.Failed?
  {
  }

  lemma StopThenStartIff(es: seq<Event>, l: nat, joined: bool)
    requires l < |Run(es).loops|
    ensures Begins(Run(es + [Stop(l, joined)]), Begin(l)) <==>
      Run(es).loops[l].confirmed && !Run(es).loops[l].stage.Failed?
  {
    var w := Run(es);
    StopShows(w, Stop(l, joined));
    StoppingRecord(w, Stop(l, joined), l);
    StoppingKeeps(w, Stop(l, joined));
    hide Run, Step;
    RunStep(es, Stop(l, joined), w, es + [Stop(l, joined)]);
  }

  // ------------------------------------------------------------ starts that raise

  lemma StepClosed(w: World, e: Event, s: nat)
    requires w.Valid() && AtPhase(w, s, Closed)
    ensures AtPhase(Step(w, e), s, Closed)
  {
    if Stopping(e) {
      StoppingKeeps(w, e);
      hide Step;
    } else {
      hide NodeConnect, NodeLink, NodeHalt, NodeEstop, LoopConnect, LoopDetected, LoopLink;
    }
  }

  lemma AbandonCloses(w: World, s: nat)
    requires w.Valid() && Abandons(w, s)
    ensures AtPhase(Step(w, Abandon(s)), s, Closed)
  {
  }

  /** A start that raised is over: whatever happens afterwards, it connects and spawns nothing. */
  lemma AbandonedIsOver(es: seq<Event>, s: nat, more: seq<Event>)
    requires Abandons(Run(es), s)
    ensures AtPhase(Run(es + [Abandon(s)] + more), s, Closed)
    decreases |more|
  {
    hide Run, Step;
    var over := es + [Abandon(s)];
    if more == [] {
      AbandonCloses(Run(es), s);
      RunStep(es, Abandon(s), Run(es), over);
      assert over + more == over;
    } else {
      var init, e := more[..|more| - 1], more[|more| - 1];
      AbandonedIsOver(es, s, init);
      StepClosed(Run(over + init), e, s);
      RunStep(over + init, e, Run(over + init), over + more);
    }
  }

  // ------------------------------------------------------------ nothing is detected without a connect

  /** The loop has got beyond its first state toward a detection. */
  predicate Touched(w: World, l: nat) {
    l < |w.loops| && var loop := w.loops[l];
    loop.stage.Connected? || loop.stage.Detecting? || loop.stage.AwaitingConfirm? || loop.detecting > 0 || loop.detected
  }

  predicate AnswersAttempt(w: World, e: Event, l: nat) { Attempts(w, e, l) && e.rpc.Replied? }

  function Answering(l: nat): Mark { (w: World, e: Event) => AnswersAttempt(w, e, l) }

  lemma StepTouched(w: World, e: Event, l: nat)
    requires w.Valid() && Touched(Step(w, e), l)
    ensures Touched(w, l) || AnswersAttempt(w, e, l)
  {
    if Stopping(e) {
      StoppedTouched(w, e, l);
      hide Step;
    } else if e.Link? {
      LinkTouched(w, e.s, e.rpc, l);
      hide Step;
    } else {
      hide NodeConnect, NodeEstop, NodeHalt, NodeLink, Joined, Halted, LoopLink;
    }
  }

  lemma LinkTouched(w: World, s: nat, rpc: Rpc, l: nat)
    requires w.Valid() && Touched(Step(w, Link(s, rpc)), l)
    ensures Touched(w, l) || AnswersAttempt(w, Link(s, rpc), l)
  {
    hide NodeConnect, NodeLink, LinkOk;
  }

  lemma StoppedTouched(w: World, e: Event, l: nat)
    requires w.Valid() && Stopping(e) && Touched(Step(w, e), l)
    ensures Touched(w, l)
  {
    StoppingKeeps(w, e);
    var t := StopTarget(w, e);
    hide Step, Halted;
    if t < |w.loops| && l < |w.loops| { HaltedTouched(w, t, e.joined, l); }
  }

  lemma HaltedTouched(w: World, l: nat, joined: bool, i: nat)
    requires w.Valid() && l < |w.loops| && i < |w.loops|
    ensures Touched(Halted(w, l, joined), i) ==> Touched(w, i)
  {
  }

  /** Over every run a loop is only detected, and a detection only begins, after a connect of it was answered. */
  lemma {:induction false} DetectNeedsConnect(es: seq<Event>, l: nat)
    requires Touched(Run(es), l)
    ensures Ever(es, Answering(l))
  {
    hide Step, Touched;
    if es == [] {
      NothingTouched(l);
    } else {
      var n := |es| - 1;
      if Touched(Run(es[..n]), l) {
        DetectNeedsConnect(es[..n], l);
        EverBefore(es, n, Answering(l));
      } else {
        StepTouched(Run(es[..n]), es[n], l);
        assert At(es, n, Answering(l));
      }
    }
  }

  lemma NothingTouched(l: nat)
    ensures !Touched(START, l)
  {
  }

  // ------------------------------------------------------------ clearing the installed loop

  /** A disconnect whose node stop is answered, or not needed, goes on to clear the installed loop. */
  predicate Completes(w: World, e: Event) {
    w.Valid() && e.Disconnect? && w.current.Some? && (w.loops[w.current.value].client.Some? ==> e.rpc.Replied?)
  }

  /** How often p happened. */
  function Tally(es: seq<Event>, p: Mark): nat {
    if es == [] then 0
    else
      var n := |es| - 1;
      Tally(es[..n], p) + if p(Run(es[..n]), es[n]) then 1 else 0
  }

  /** Clearings never outnumber the disconnects that completed; the difference is about to happen. */
  lemma {:induction false} ClearingsCount(es: seq<Event>)
    ensures Tally(es, Completes) == Tally(es, Releases) + Run(es).releasing
  {
    hide Step;
    if es != [] {
      var n := |es| - 1;
      ClearingsCount(es[..n]);
      StepReleasing(Run(es[..n]), es[n]);
    }
  }

  lemma StepReleasing(w: World, e: Event)
    requires w.Valid()
    ensures Step(w, e).releasing ==
      if Completes(w, e) then w.releasing + 1 else if Releases(w, e) then w.releasing - 1 else w.releasing
  {
    if Stopping(e) {
      var l := StopTarget(w, e);
      hide Halted, NodeEstop;
      if l < |w.loops| { HaltedFrame(w, l, e.joined); }
    } else {
      hide NodeConnect, NodeLink, NodeHalt, NodeEstop, LoopConnect, LoopDetected;
    }
  }

  // ------------------------------------------------------------ detecting again

  /** A loop shows DETECTING only while a detection of it is under way. */
  predicate DetectingHonestly(w: World) {
    forall l | 0 <= l < |w.loops| :: LoopHonest(w.loops[l])
  }

  predicate LoopHonest(loop: Loop) { loop.stage.Detecting? ==> loop.detecting > 0 }

  lemma SetLoopHonest(w: World, l: nat, loop: Loop)
    requires w.Valid() && DetectingHonestly(w) && l < |w.loops| && LoopHonest(loop)
    requires loop.thread.Some? ==> loop.thread.value < |w.threads|
    ensures DetectingHonestly(SetLoop(w, l, loop))
  {
  }

  lemma StopHonest(w: World, e: Event)
    requires w.Valid() && DetectingHonestly(w) && (e.Stop? || e.Estop? || e.Disconnect?)
    ensures DetectingHonestly(Step(w, e))
  {
    StoppingKeeps(w, e);
    var l := StopTarget(w, e);
    hide Step;
    if l < |w.loops| { HaltedHonest(w, l, e.joined); }
  }

  lemma HaltedHonest(w: World, l: nat, joined: bool)
    requires w.Valid() && DetectingHonestly(w) && l < |w.loops|
    ensures DetectingHonestly(Halted(w, l, joined))
  {
    assert LoopHonest(w.loops[l]);
    JoinedKeeps(w, l, joined);
    hide Joined;
    SetLoopHonest(Joined(w, l, joined), l, LoopStop(w.loops[l]));
  }

  lemma StepHonest(w: World, e: Event)
    requires w.Valid() && DetectingHonestly(w)
    ensures DetectingHonestly(Step(w, e))
  {
    if e.Stop? || e.Estop? || e.Disconnect? {
      StopHonest(w, e);
      hide Step;
    } else if e.Link? || e.Abandon? || e.Spawn? || e.Announce? || e.Ends? {
      ThreadHonest(w, e);
      hide Step;
    } else {
      hide NodeConnect, NodeHalt, Joined, Halted;
    }
  }

  lemma ThreadHonest(w: World, e: Event)
    requires w.Valid() && DetectingHonestly(w) && (e.Link? || e.Abandon? || e.Spawn? || e.Announce? || e.Ends?)
    ensures DetectingHonestly(Step(w, e))
  {
    hide NodeConnect, NodeLink, NodeEstop, LinkOk;
  }

  lemma {:induction false} RunHonest(es: seq<Event>)
    ensures DetectingHonestly(Run(es))
  {
    hide Step, DetectingHonestly;
    if es == [] {
      NoLoopsHonest();
    } else {
      RunHonest(es[..|es| - 1]);
      StepHonest(Run(es[..|es| - 1]), es[|es| - 1]);
    }
  }

  lemma NoLoopsHonest()
    ensures DetectingHonestly(START)
  {
  }

  /**
   * Over every run: no loop is stranded in DETECTING without a detection under way, and when a detection ends, failed
   * or not, the next one can begin at once.
   */
  lemma DetectAgain(es: seq<Event>, l: nat, ok: bool)
    requires l < |Run(es).loops|
    ensures Run(es).loops[l].stage.Detecting? ==> Run(es).loops[l].detecting > 0
    ensures Run(es).loops[l].detecting > 0 ==>
      var again := Run(es + [EndDetect(l, ok)] + [BeginDetect(l)]);
      l < |again.loops| && again.loops[l].stage.Detecting? && again.loops[l].detecting == Run(es).loops[l].detecting
  {
    RunHonest(es);
    assert LoopHonest(Run(es).loops[l]);
    if Run(es).loops[l].detecting > 0 {
      var w := Run(es);
      EndAndBegin(w, l, ok);
      hide Run, Step;
      RunStep(es, EndDetect(l, ok), w, es + [EndDetect(l, ok)]);
      RunStep(es + [EndDetect(l, ok)], BeginDetect(l), Step(w, EndDetect(l, ok)),
              es + [EndDetect(l, ok)] + [BeginDetect(l)]);
    }
  }

  lemma EndAndBegin(w: World, l: nat, ok: bool)
    requires w.Valid() && l < |w.loops| && w.loops[l].detecting > 0
    ensures var r := Step(Step(w, EndDetect(l, ok)), BeginDetect(l));
      l < |r.loops| && r.loops[l].stage.Detecting? && r.loops[l].detecting == w.loops[l].detecting
  {
  }
}
