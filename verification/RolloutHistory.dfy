/**
 * What a run's state says about its past: when the arm moves, when a loop shows RUNNING without a thread, and what
 * came before a thread, each as events of the run.
 */
module RolloutHistory {
  import opened Outcomes
  import opened Rollout

  /** Something an event can be in the state it meets. */
  type Mark = (World, Event) -> bool

  predicate At(es: seq<Event>, k: nat, p: Mark) { k < |es| && p(Run(es[..k]), es[k]) }

  ghost predicate Ever(es: seq<Event>, p: Mark) { exists k: nat :: At(es, k, p) }

  predicate NoneAfter(es: seq<Event>, k: nat, q: Mark) { forall j | k < j < |es| :: !At(es, j, q) }

  /** p happened, and q has not happened since. */
  ghost predicate Since(es: seq<Event>, p: Mark, q: Mark) {
    exists k: nat :: At(es, k, p) && NoneAfter(es, k, q)
  }

  lemma AtPrefix(es: seq<Event>, m: nat, k: nat, p: Mark)
    requires k < m <= |es|
    ensures At(es[..m], k, p) == At(es, k, p)
  {
    hide Run;
    assert es[..m][..k] == es[..k];
  }

  lemma NoneAfterInit(es: seq<Event>, k: nat, q: Mark)
    requires es != [] && k < |es| - 1
    ensures NoneAfter(es, k, q) <==> NoneAfter(es[..|es| - 1], k, q) && !At(es, |es| - 1, q)
  {
    hide At;
    var n := |es| - 1;
    forall j: nat | k < j < n ensures At(es[..n], j, q) == At(es, j, q) {
      AtPrefix(es, n, j, q);
    }
    if NoneAfter(es[..n], k, q) && !At(es, n, q) {
      forall j: nat | k < j < |es| ensures !At(es, j, q) {
        if j < n { assert !At(es[..n], j, q); }
      }
    }
  }

  lemma SinceInit(es: seq<Event>, p: Mark, q: Mark)
    requires es != []
    ensures var n := |es| - 1; Since(es, p, q) <==> At(es, n, p) || (Since(es[..n], p, q) && !At(es, n, q))
  {
    var n := |es| - 1;
    hide At, NoneAfter, Since;
    if Since(es, p, q) { SinceShorter(es, p, q); }
    if At(es, n, p) { SinceNow(es, p, q); }
    if Since(es[..n], p, q) && !At(es, n, q) { SinceLonger(es, p, q); }
  }

  lemma SinceNow(es: seq<Event>, p: Mark, q: Mark)
    requires es != [] && At(es, |es| - 1, p)
    ensures Since(es, p, q)
  {
    hide At;
    assert NoneAfter(es, |es| - 1, q);
  }

  lemma SinceShorter(es: seq<Event>, p: Mark, q: Mark)
    requires es != [] && Since(es, p, q)
    ensures var n := |es| - 1; At(es, n, p) || (Since(es[..n], p, q) && !At(es, n, q))
  {
    var n := |es| - 1;
    var k: nat :| At(es, k, p) && NoneAfter(es, k, q);
    assert k <= n;
    hide At, NoneAfter;
    if k < n {
      AtPrefix(es, n, k, p);
      NoneAfterInit(es, k, q);
    }
  }

  lemma SinceLonger(es: seq<Event>, p: Mark, q: Mark)
    requires es != [] && Since(es[..|es| - 1], p, q) && !At(es, |es| - 1, q)
    ensures Since(es, p, q)
  {
    var n, init := |es| - 1, es[..|es| - 1];
    var k: nat :| At(init, k, p) && NoneAfter(init, k, q);
    assert k < n;
    hide At, NoneAfter;
    AtPrefix(es, n, k, p);
    NoneAfterInit(es, k, q);
  }

  /** A fact that p makes true and q false, and nothing else changes, holds exactly when p happened and not q since. */
  lemma {:induction false} StateIsSince(es: seq<Event>, s: World -> bool, p: Mark, q: Mark)
    requires !s(START)
    requires forall w: World, e: Event | w.Valid() :: s(Step(w, e)) <==> p(w, e) || (s(w) && !q(w, e))
    ensures s(Run(es)) <==> Since(es, p, q)
  {
    hide Step;
    if es != [] {
      var n := |es| - 1;
      StateIsSince(es[..n], s, p, q);
      SinceInit(es, p, q);
      hide Since;
    }
  }

  const NEVER: Mark := (w: World, e: Event) => false

  /** A fact that p makes true for good. */
  lemma StateIsEver(es: seq<Event>, s: World -> bool, p: Mark)
    requires !s(START)
    requires forall w: World, e: Event | w.Valid() :: s(Step(w, e)) <==> p(w, e) || s(w)
    ensures s(Run(es)) <==> Ever(es, p)
  {
    StateIsSince(es, s, p, NEVER);
    hide Run, Step;
    if Ever(es, p) {
      var k: nat :| At(es, k, p);
      assert NoneAfter(es, k, NEVER);
    }
  }

  // ------------------------------------------------------------ when the arm moves

  predicate ServoRuns(w: World) { w.node.Holds? && !w.node.halted }

  predicate LiveNode(w: World) { w.node.Holds? && !w.node.readOnly }

  /** A connect, or a start that connects a stub that is not live. */
  predicate Connects(w: World, e: Event) {
    w.Valid() && (
      || (e.Connect? && e.l < |w.loops|)
      || (e.Link? && AtPhase(w, e.s, Resetting) && !Live(w.loops[w.launches[e.s].owner])))
  }

  /** The node builds a runtime and starts its servo loop. */
  predicate Powers(w: World, e: Event) { Connects(w, e) && Done(e.rpc) }

  predicate PowersReadOnly(w: World, e: Event) { Powers(w, e) && e.Connect? && e.readOnly }

  predicate PowersLive(w: World, e: Event) { Powers(w, e) && !PowersReadOnly(w, e) }

  /** A stop that reaches the node. */
  predicate Reaches(loop: Loop, rpc: Rpc) { loop.client.Some? && Done(rpc) }

  /**
   * The servo loop ends: by an emergency stop or disconnect, a thread that fails, a connect that stops it and
   * cannot build another, or by itself.
   */
  predicate Halts(w: World, e: Event) {
    w.Valid() && w.node.Holds? && (
      || (e.Estop? && e.l < |w.loops| && Reaches(w.loops[e.l], e.rpc))
      || (e.Disconnect? && w.current.Some? && Reaches(w.loops[w.current.value], e.rpc))
      || (e.Ends? && Lives(w, e.th) && e.failed && Reaches(w.loops[w.threads[e.th].owner], e.rpc))
      || (Connects(w, e) && e.rpc.Refused?)
      || e.Fault?)
  }

  function NodeAfter(w: World, e: Event): Node {
    if Powers(w, e) then Holds(PowersReadOnly(w, e), false) else if Halts(w, e) then NodeHalt(w.node) else w.node
  }

  lemma StepNode(w: World, e: Event)
    requires w.Valid()
    ensures Step(w, e).node == NodeAfter(w, e)
  {
    hide LoopConnect, LoopDetected;
    if e.Stop? || e.Estop? || e.Disconnect? {
      StoppedNode(w, e);
      hide Step;
    }
  }

  lemma StoppedNode(w: World, e: Event)
    requires w.Valid() && (e.Stop? || e.Estop? || e.Disconnect?)
    ensures Step(w, e).node == NodeAfter(w, e)
  {
    hide Halted;
    var l := StopTarget(w, e);
    if l < |w.loops| { HaltedFrame(w, l, e.joined); }
  }

  /** The servo loop runs exactly when the node was powered and not halted since. */
  lemma RunningIff(es: seq<Event>)
    ensures ServoRuns(Run(es)) <==> Since(es, Powers, Halts)
  {
    forall w: World, e: Event | w.Valid()
      ensures ServoRuns(Step(w, e)) <==> Powers(w, e) || (ServoRuns(w) && !Halts(w, e))
    {
      StepNode(w, e);
      hide Step;
    }
    StateIsSince(es, ServoRuns, Powers, Halts);
  }

  predicate Down(w: World) { w.node.Holds? && w.node.halted }

  lemma DownIff(es: seq<Event>)
    ensures Down(Run(es)) <==> Since(es, Halts, Powers)
  {
    forall w: World, e: Event | w.Valid()
      ensures Down(Step(w, e)) <==> Halts(w, e) || (Down(w) && !Powers(w, e))
    {
      StepNode(w, e);
      hide Step;
    }
    StateIsSince(es, Down, Halts, Powers);
  }

  /** And it is live exactly when it was powered live and not read-only since. */
  lemma LiveNodeIff(es: seq<Event>)
    ensures LiveNode(Run(es)) <==> Since(es, PowersLive, PowersReadOnly)
  {
    forall w: World, e: Event | w.Valid()
      ensures LiveNode(Step(w, e)) <==> PowersLive(w, e) || (LiveNode(w) && !PowersReadOnly(w, e))
    {
      StepNode(w, e);
      hide Step;
    }
    StateIsSince(es, LiveNode, PowersLive, PowersReadOnly);
  }

  // ------------------------------------------------------------ when a thread lives

  /** Event e starts thread th. */
  predicate SpawnsThread(w: World, e: Event, th: nat) { Spawns(w, e) && |w.threads| == th }

  /** Event e is thread th's own end, or a stop of its loop that joined it. */
  predicate EndsThread(w: World, e: Event, th: nat) {
    w.Valid() && Lives(w, th) && (
      || (e.Ends? && e.th == th)
      || (e.Stop? && e.joined && e.l < |w.loops| && w.loops[e.l].thread == Some(th))
      || (e.Estop? && e.joined && e.l < |w.loops| && w.loops[e.l].thread == Some(th))
      || (e.Disconnect? && e.joined && w.current.Some? && w.loops[w.current.value].thread == Some(th)))
  }

  function Spawning(th: nat): Mark { (w: World, e: Event) => SpawnsThread(w, e, th) }

  function Ending(th: nat): Mark { (w: World, e: Event) => EndsThread(w, e, th) }

  lemma StepThread(w: World, e: Event, th: nat)
    requires w.Valid()
    ensures Lives(Step(w, e), th) <==> SpawnsThread(w, e, th) || (Lives(w, th) && !EndsThread(w, e, th))
    ensures th < |Step(w, e).threads| <==> SpawnsThread(w, e, th) || th < |w.threads|
    ensures th < |w.threads| ==> Step(w, e).threads[th].owner == w.threads[th].owner
  {
    hide NodeEstop, NodeLink, NodeConnect, LoopConnect, LoopDetected;
    if e.Stop? || e.Estop? || e.Disconnect? {
      StoppedThread(w, e, th);
      hide Step;
    }
  }

  lemma StoppedThread(w: World, e: Event, th: nat)
    requires w.Valid() && (e.Stop? || e.Estop? || e.Disconnect?)
    ensures Lives(Step(w, e), th) <==> Lives(w, th) && !EndsThread(w, e, th)
    ensures |Step(w, e).threads| == |w.threads|
    ensures th < |w.threads| ==> Step(w, e).threads[th].owner == w.threads[th].owner
  {
    StoppingKeeps(w, e);
    var l := StopTarget(w, e);
    hide Step;
    if l < |w.loops| { HaltedThread(w, l, e.joined, th); }
  }

  lemma HaltedThread(w: World, l: nat, joined: bool, th: nat)
    requires w.Valid() && l < |w.loops|
    ensures var r := Halted(w, l, joined);
      && (Lives(r, th) <==> Lives(w, th) && !(joined && w.loops[l].thread == Some(th)))
      && |r.threads| == |w.threads| && (th < |w.threads| ==> r.threads[th].owner == w.threads[th].owner)
  {
  }

  lemma LivesIff(es: seq<Event>, th: nat)
    ensures Lives(Run(es), th) <==> Since(es, Spawning(th), Ending(th))
  {
    forall w: World, e: Event | w.Valid()
      ensures Lives(Step(w, e), th) <==> Spawning(th)(w, e) || (Lives(w, th) && !Ending(th)(w, e))
    {
      StepThread(w, e, th);
      hide Step, EndsThread, SpawnsThread;
    }
    hide Step;
    StateIsSince(es, (w: World) => Lives(w, th), Spawning(th), Ending(th));
  }

  predicate Over(w: World, th: nat) { th < |w.threads| && !w.threads[th].alive }

  lemma OverIff(es: seq<Event>, th: nat)
    ensures Over(Run(es), th) <==> Ever(es, Ending(th))
  {
    forall w: World, e: Event | w.Valid() ensures Over(Step(w, e), th) <==> Ending(th)(w, e) || Over(w, th) {
      StepThread(w, e, th);
      hide Step;
    }
    hide Step;
    StateIsEver(es, (w: World) => Over(w, th), Ending(th));
  }

  /**
   * Over every interleaving, a thread's targets move the arm exactly when it was spawned and neither ended nor was
   * joined since, the node was powered and not halted since, and powered live and not read-only since.
   */
  lemma MovesIff(es: seq<Event>, th: nat)
    ensures Moves(Run(es), th) <==>
      && Since(es, Spawning(th), Ending(th)) && Since(es, Powers, Halts) && Since(es, PowersLive, PowersReadOnly)
  {
    LivesIff(es, th);
    RunningIff(es);
    LiveNodeIff(es);
    hide Run, Since;
  }

  /** Targets are taken and move nothing exactly when, since it was last powered, the node was halted. */
  lemma AcceptedMovesNothingIff(es: seq<Event>, th: nat)
    requires Accepts(Run(es), th)
    ensures !Moves(Run(es), th) <==> Since(es, Halts, Powers)
  {
    DownIff(es);
    hide Run, Since;
  }

  // ------------------------------------------------------------ starting again

  /** A start on loop l that goes through: the next launch and the next thread. */
  function FullStart(w: World, l: nat): seq<Event> {
    [Begin(l), Link(|w.launches|, Replied), Spawn(|w.launches|)]
  }

  lemma FullStartSteps(w: World, l: nat)
    requires w.Valid() && Begins(w, Begin(l))
    ensures var fs := FullStart(w, l);
      var r := Step(Step(Step(w, fs[0]), fs[1]), fs[2]);
      && Lives(r, |w.threads|) && r.threads[|w.threads|].owner == l
      && r.node == if Live(w.loops[l]) then w.node else Holds(false, false)
  {
    var s := |w.launches|;
    var w1 := Step(w, Begin(l));
    assert w1.launches[s] == Launch(l, Resetting, None) && w1.loops == w.loops && w1.threads == w.threads;
    var w2 := Step(w1, Link(s, Replied));
    assert w2 == Linked(w1, s, Replied);
    LinkedFrame(w1, s, Replied);
    hide Linked, LoopConnect;
  }

  lemma LinkedFrame(w: World, s: nat, rpc: Rpc)
    requires w.Valid() && s < |w.launches|
    ensures var r, l := Linked(w, s, rpc), w.launches[s].owner;
      && |r.launches| == |w.launches| && r.launches[s].owner == l && r.threads == w.threads
      && |r.loops| == |w.loops| && r.node == NodeLink(w.node, w.loops[l], rpc)
      && r.launches[s].phase == if LinkOk(w.loops[l], rpc) then Connecting else Closed
  {
  }

  lemma RunOfThree(es: seq<Event>, a: Event, b: Event, c: Event)
    ensures Run(es + [a, b, c]) == Step(Step(Step(Run(es), a), b), c)
  {
    hide Run, Step;
    var x, y, z := es + [a], es + [a, b], es + [a, b, c];
    RunStep(es, a, Run(es), x);
    RunStep(x, b, Run(x), y);
    RunStep(y, c, Run(y), z);
  }

  /**
   * A start that goes through on a loop whose stub is not live always moves the arm.  On a live stub it skips the
   * connect, and moves the arm exactly when the node is still powered: not halted since it was last powered, not
   * read-only since it was last powered live.
   */
  lemma StartMovesIff(es: seq<Event>, l: nat)
    requires Begins(Run(es), Begin(l))
    ensures var w := Run(es); var th := |w.threads|; var after := Run(es + FullStart(w, l));
      && Lives(after, th) && after.threads[th].owner == l
      && (Moves(after, th) <==>
            (Live(w.loops[l]) ==> Since(es, Powers, Halts) && Since(es, PowersLive, PowersReadOnly)))
  {
    var w := Run(es);
    FullStartSteps(w, l);
    RunOfThree(es, Begin(l), Link(|w.launches|, Replied), Spawn(|w.launches|));
    RunningIff(es);
    LiveNodeIff(es);
    hide Run, Step, Since;
  }

  // ------------------------------------------------------------ RUNNING without a thread

  /**
   * The RUNNING a start writes at its end names a thread that is already over exactly when that thread ended, or
   * was joined by a stop, in between.
   */
  lemma AnnouncedDeadIff(es: seq<Event>, s: nat)
    requires AtPhase(Run(es), s, Spawned)
    ensures var w := Run(es); var th := w.launches[s].thread.value; var r := Run(es + [Announce(s)]);
      && th < |w.threads| && r.loops[w.launches[s].owner].stage == Running
      && (!Lives(r, th) <==> Ever(es, Ending(th)))
  {
    hide Run, Ever, Step;
    AnnounceStep(Run(es), s);
    OverIff(es, Run(es).launches[s].thread.value);
    RunStep(es, Announce(s), Run(es), es + [Announce(s)]);
  }

  lemma AnnounceStep(w: World, s: nat)
    requires w.Valid() && AtPhase(w, s, Spawned)
    ensures w.launches[s].thread.Some? && w.launches[s].thread.value < |w.threads|
    ensures var r := Step(w, Announce(s)); r.threads == w.threads && r.loops[w.launches[s].owner].stage == Running
  {
    assert w.Started(w.launches[s]);
  }

  // ------------------------------------------------------------ what came before a thread

  predicate DetectsLoop(w: World, e: Event, l: nat) {
    e.EndDetect? && e.l == l && e.ok && l < |w.loops| && w.loops[l].detecting > 0
  }

  function Detects(l: nat): Mark { (w: World, e: Event) => DetectsLoop(w, e, l) }

  predicate WasDetected(w: World, l: nat) { l < |w.loops| && w.loops[l].detected }

  lemma StepDetected(w: World, e: Event, l: nat)
    requires w.Valid()
    ensures WasDetected(Step(w, e), l) <==> DetectsLoop(w, e, l) || WasDetected(w, l)
  {
    if e.Stop? || e.Estop? || e.Disconnect? {
      StoppedDetected(w, e, l);
      hide Step;
    } else if e.Link? || e.Abandon? || e.Spawn? || e.Announce? || e.Ends? {
      ThreadDetected(w, e, l);
      hide Step;
    } else {
      hide NodeConnect, NodeEstop, NodeHalt, Joined, Halted;
    }
  }

  lemma ThreadDetected(w: World, e: Event, l: nat)
    requires w.Valid() && (e.Link? || e.Abandon? || e.Spawn? || e.Announce? || e.Ends?)
    ensures WasDetected(Step(w, e), l) <==> WasDetected(w, l)
  {
    hide NodeConnect, NodeLink, NodeEstop, LinkOk;
  }

  lemma StoppedDetected(w: World, e: Event, l: nat)
    requires w.Valid() && (e.Stop? || e.Estop? || e.Disconnect?)
    ensures WasDetected(Step(w, e), l) <==> WasDetected(w, l)
  {
    StoppingKeeps(w, e);
    var t := StopTarget(w, e);
    hide Step, Halted;
    if t < |w.loops| && l < |w.loops| { HaltedLoopDetected(w, t, e.joined, l); }
  }

  lemma HaltedLoopDetected(w: World, l: nat, joined: bool, i: nat)
    requires w.Valid() && l < |w.loops| && i < |w.loops|
    ensures Halted(w, l, joined).loops[i].detected == w.loops[i].detected
  {
  }

  lemma DetectedIff(es: seq<Event>, l: nat)
    ensures WasDetected(Run(es), l) <==> Ever(es, Detects(l))
  {
    forall w: World, e: Event | w.Valid()
      ensures WasDetected(Step(w, e), l) <==> Detects(l)(w, e) || WasDetected(w, l)
    {
      StepDetected(w, e, l);
      hide Step;
    }
    hide Step;
    StateIsEver(es, (w: World) => WasDetected(w, l), Detects(l));
  }

  /** p happened before event k. */
  ghost predicate Before(es: seq<Event>, k: nat, p: Mark) { exists j: nat :: j < k && At(es, j, p) }

  lemma EverBefore(es: seq<Event>, k: nat, p: Mark)
    requires k <= |es|
    ensures Ever(es[..k], p) <==> Before(es, k, p)
  {
    forall j: nat | j < k ensures At(es[..k], j, p) == At(es, j, p) { AtPrefix(es, k, j, p); }
    if Ever(es[..k], p) { var j: nat :| At(es[..k], j, p); }
    if Before(es, k, p) { var j: nat :| j < k && At(es, j, p); }
  }

  /** The guard that /confirm does not have: the loop it finds or makes has been detected. */
  predicate ConfirmGuarded(es: seq<Event>) {
    forall k | 0 <= k < |es| && es[k].Confirm? :: MeetsDetected(Run(es[..k]))
  }

  predicate MeetsDetected(w: World)
    requires w.Valid()
  {
    WasDetected(w, Ensured(w).current.value)
  }

  /** The staged rollout as documented: every loop is detected before any of its confirms. */
  ghost predicate DetectedFirst(es: seq<Event>) {
    forall k: nat, l: nat | ConfirmedAt(es, k, l) :: Before(es, k, Detects(l))
  }

  lemma ConfirmsTarget(es: seq<Event>, k: nat, l: nat)
    requires k < |es| && es[k].Confirm?
    ensures ConfirmedAt(es, k, l) <==> Ensured(Run(es[..k])).current == Some(l)
  {
    hide Run, Step, Ensured;
    ConfirmKeepsInstalled(Run(es[..k]));
    RunStep(es[..k], es[k], Run(es[..k]), es[..k + 1]);
  }

  lemma ConfirmKeepsInstalled(w: World)
    requires w.Valid()
    ensures Step(w, Confirm).current == Ensured(w).current
  {
    hide Ensured;
  }

  /** A whole run detects before it confirms exactly when every confirm meets a loop already detected. */
  lemma DetectedFirstIff(es: seq<Event>)
    ensures DetectedFirst(es) <==> ConfirmGuarded(es)
  {
    hide Run, Before, Ensured;
    forall k: nat, l: nat | k < |es| ensures WasDetected(Run(es[..k]), l) <==> Before(es, k, Detects(l)) {
      DetectedIff(es[..k], l);
      EverBefore(es, k, Detects(l));
    }
    forall k: nat, l: nat | k < |es| && es[k].Confirm?
      ensures ConfirmedAt(es, k, l) <==> Ensured(Run(es[..k])).current == Some(l)
    {
      ConfirmsTarget(es, k, l);
    }
    if DetectedFirst(es) {
      forall k | 0 <= k < |es| && es[k].Confirm? ensures MeetsDetected(Run(es[..k])) {
        assert ConfirmedAt(es, k, Ensured(Run(es[..k])).current.value);
      }
    }
    if ConfirmGuarded(es) {
      forall k: nat, l: nat | ConfirmedAt(es, k, l) ensures Before(es, k, Detects(l)) {
        assert MeetsDetected(Run(es[..k]));
      }
    }
  }

  // ------------------------------------------------------------ the order of a thread's steps

  predicate OwnedBy(w: World, th: nat, l: nat) { th < |w.threads| && w.threads[th].owner == l }

  predicate LaunchedFor(w: World, s: nat, l: nat) { s < |w.launches| && w.launches[s].owner == l }

  predicate SpawnsFor(w: World, e: Event, th: nat, l: nat) {
    SpawnsThread(w, e, th) && w.launches[e.s].owner == l
  }

  predicate BeginsLaunch(w: World, e: Event, s: nat, l: nat) { Begins(w, e) && e.l == l && |w.launches| == s }

  function SpawningFor(th: nat, l: nat): Mark { (w: World, e: Event) => SpawnsFor(w, e, th, l) }

  function Beginning(s: nat, l: nat): Mark { (w: World, e: Event) => BeginsLaunch(w, e, s, l) }

  lemma StepOwned(w: World, e: Event, th: nat, l: nat)
    requires w.Valid()
    ensures OwnedBy(Step(w, e), th, l) <==> SpawnsFor(w, e, th, l) || OwnedBy(w, th, l)
  {
    StepThread(w, e, th);
    if Spawns(w, e) {
      hide SetLoop;
    } else {
      hide Step;
    }
  }

  lemma OwnedIff(es: seq<Event>, th: nat, l: nat)
    ensures OwnedBy(Run(es), th, l) <==> Ever(es, SpawningFor(th, l))
  {
    forall w: World, e: Event | w.Valid()
      ensures OwnedBy(Step(w, e), th, l) <==> SpawningFor(th, l)(w, e) || OwnedBy(w, th, l)
    {
      StepOwned(w, e, th, l);
      hide Step;
    }
    hide Step;
    StateIsEver(es, (w: World) => OwnedBy(w, th, l), SpawningFor(th, l));
  }

  lemma StepLaunched(w: World, e: Event, s: nat, l: nat)
    requires w.Valid()
    ensures LaunchedFor(Step(w, e), s, l) <==> BeginsLaunch(w, e, s, l) || LaunchedFor(w, s, l)
  {
    if e.Stop? || e.Estop? || e.Disconnect? { StoppingKeeps(w, e); }
    hide Halted, NodeEstop, NodeLink, NodeConnect, LoopConnect, LoopDetected;
  }

  lemma LaunchedIff(es: seq<Event>, s: nat, l: nat)
    ensures LaunchedFor(Run(es), s, l) <==> Ever(es, Beginning(s, l))
  {
    forall w: World, e: Event | w.Valid()
      ensures LaunchedFor(Step(w, e), s, l) <==> Beginning(s, l)(w, e) || LaunchedFor(w, s, l)
    {
      StepLaunched(w, e, s, l);
      hide Step;
    }
    hide Step;
    StateIsEver(es, (w: World) => LaunchedFor(w, s, l), Beginning(s, l));
  }

  lemma PrefixConfirm(es: seq<Event>, m: nat, k: nat, l: nat)
    requires m <= |es| && ConfirmedAt(es[..m], k, l)
    ensures ConfirmedAt(es, k, l)
  {
    assert es[..m][..k + 1] == es[..k + 1];
  }

  lemma PrefixLink(es: seq<Event>, m: nat, k: nat, l: nat)
    requires m <= |es| && LinkedAt(es[..m], k, l)
    ensures LinkedAt(es, k, l)
  {
    assert es[..m][..k] == es[..k];
  }

  /**
   * In every interleaving a thread's loop was confirmed, then a start began on it, then the thread was spawned, and
   * before the spawn the loop was connected live.
   */
  lemma StagedOrder(es: seq<Event>, th: nat) returns (confirm: nat, begin: nat, link: nat, spawn: nat)
    requires th < |Run(es).threads|
    ensures var l := Run(es).threads[th].owner;
      && confirm < begin < spawn && link < spawn
      && ConfirmedAt(es, confirm, l) && LinkedAt(es, link, l) && At(es, spawn, SpawningFor(th, l))
      && Begins(Run(es[..begin]), es[begin]) && es[begin].l == l
  {
    var l := Run(es).threads[th].owner;
    OwnedIff(es, th, l);
    spawn :| At(es, spawn, SpawningFor(th, l));
    var s := es[spawn].s;
    LaunchedIff(es[..spawn], s, l);
    EverBefore(es, spawn, Beginning(s, l));
    begin :| begin < spawn && At(es, begin, Beginning(s, l));
    BegunConfirmed(es, begin, l);
    ConfirmedWasConfirmed(es[..begin], l);
    confirm :| ConfirmedAt(es[..begin], confirm, l);
    PrefixConfirm(es, begin, confirm, l);
    SpawnedLinked(es, spawn, l);
    LinkedWasLinked(es[..spawn], l);
    link :| LinkedAt(es[..spawn], link, l);
    PrefixLink(es, spawn, link, l);
  }

  lemma BegunConfirmed(es: seq<Event>, k: nat, l: nat)
    requires k < |es| && Begins(Run(es[..k]), es[k]) && es[k].l == l
    ensures WasConfirmed(Run(es[..k]), l)
  {
  }

  lemma SpawnedLinked(es: seq<Event>, k: nat, l: nat)
    requires k < |es| && Spawns(Run(es[..k]), es[k]) && Run(es[..k]).launches[es[k].s].owner == l
    ensures WasLinked(Run(es[..k]), l)
  {
    var w := Run(es[..k]);
    RunEarned(es[..k]);
    assert LaunchEarned(w.loops[w.launches[es[k].s].owner], w.launches[es[k].s].phase);
    hide Run;
  }

  // ------------------------------------------------------------ inputs on which they fail

  const STOPPED := World([LOOP.(stage := Stopped)], Some(0), [Thread(0, false)], [Launch(0, Spawned, Some(0))], 0,
                         Holds(false, false))

  lemma StopSteps()
    ensures Step(STARTED, Stop(0, true)) == STOPPED
  {
    assert [LOOP][0 := LOOP.(stage := Stopped)] == [LOOP.(stage := Stopped)];
    assert [Thread(0, true)][0 := Thread(0, false)] == [Thread(0, false)];
  }

  lemma LateAnnounce()
    ensures var w := Step(STOPPED, Announce(0));
      w.current == Some(0) && |w.loops| == 1 && w.loops[0].stage == Running && NoneAlive(w)
  {
  }

  /** A clean stop that overtakes the end of a start: the loop shows RUNNING, and no thread is left to stop. */
  lemma RunningAfterStop()
    ensures var w := Run(GO + [Stop(0, true), Announce(0)]);
      w.current == Some(0) && |w.loops| == 1 && w.loops[0].stage == Running && NoneAlive(w)
  {
    ConfirmAndStart();
    StopSteps();
    LateAnnounce();
    hide Step, Run, NoneAlive;
    var a := GO + [Stop(0, true)];
    RunStep(GO, Stop(0, true), STARTED, a);
    RunStep(a, Announce(0), STOPPED, GO + [Stop(0, true), Announce(0)]);
  }
}
