/**
 * The staged rollout: api/routes_control.py's handlers over control_loop.py's lifecycle, the policy threads
 * they start, and robot/robot_node.py's runtime, as one state machine over interleaved events.
 *
 * Handlers run concurrently.  Those that block (connect, detect, start, stop) act on the loop they looked up
 * when they began, so their events name a loop, which need no longer be the installed one; start is one event
 * per stretch between its blocking calls, disconnect one for its stop and one for clearing the installed loop.
 */
module Rollout {
  import opened Outcomes

  datatype Stage = Idle | Connected | Detecting | AwaitingConfirm | Armed | Running | Stopped | Failed

  /** How a call to the robot node ends: done, raised there, done but the reply timed out, or never heard there. */
  datatype Rpc = Replied | Refused | Lost | Unheard

  predicate Done(rpc: Rpc) { rpc.Replied? || rpc.Lost? }

  /**
   * A ControlLoop: confirmed once it has an adapter; client is the node stub's own read_only flag; thread is
   * its latest policy thread; detected once it has a last_detection.  linked records whether it was ever
   * connected live, and detecting how many detections are under way.
   */
  datatype Loop = Loop(stage: Stage, confirmed: bool, client: Option<bool>, thread: Option<nat>, detected: bool,
                       linked: bool, detecting: nat)

  const FRESH := Loop(Idle, false, None, None, false, false, 0)

  /** What the robot node holds: no runtime yet, or one that is read-only or live, its servo loop running or halted. */
  datatype Node = Empty | Holds(readOnly: bool, halted: bool)

  function NodeHalt(node: Node): Node { if node.Empty? then node else node.(halted := true) }

  /** The runtime there is stopped first; one that cannot be built leaves it in its place. */
  function NodeConnect(node: Node, readOnly: bool, rpc: Rpc): Node {
    if Done(rpc) then Holds(readOnly, false) else if rpc.Refused? then NodeHalt(node) else node
  }

  predicate Live(loop: Loop) { loop.client.Some? && !loop.client.value }

  /** connect(): the stub is created first, read-only; only an answered call updates it and the stage. */
  function LoopConnect(loop: Loop, readOnly: bool, rpc: Rpc): Loop {
    if rpc.Replied? then
      loop.(client := Some(readOnly), stage := Connected, linked := loop.linked || !readOnly)
    else loop.(client := if loop.client.None? then Some(true) else loop.client)
  }

  function LoopConfirm(loop: Loop): Loop { loop.(confirmed := true, stage := Armed) }

  function LoopDetecting(loop: Loop): Loop { loop.(stage := Detecting, detecting := loop.detecting + 1) }

  /** A detection ends: its result is kept, or the loop falls back to CONNECTED. */
  function LoopDetected(loop: Loop, ok: bool): Loop
    requires loop.detecting > 0
  {
    loop.(stage := if ok then AwaitingConfirm else Connected, detected := loop.detected || ok,
          detecting := loop.detecting - 1)
  }

  function LoopStop(loop: Loop): Loop { if loop.stage.Failed? then loop else loop.(stage := Stopped) }

  /** estop() calls the node only through an existing stub. */
  function NodeEstop(node: Node, loop: Loop, rpc: Rpc): Node {
    if loop.client.Some? && Done(rpc) then NodeHalt(node) else node
  }

  /** start() connects live unless the stub is already live. */
  function LoopLink(loop: Loop, rpc: Rpc): Loop { if Live(loop) then loop else LoopConnect(loop, false, rpc) }

  function NodeLink(node: Node, loop: Loop, rpc: Rpc): Node {
    if Live(loop) then node else NodeConnect(node, false, rpc)
  }

  predicate LinkOk(loop: Loop, rpc: Rpc) { Live(loop) || rpc.Replied? }

  /** The lifecycle object of control_loop.py; what the robot node holds is passed along. */
  class ControlLoop {
    var stage: Stage
    var confirmed: bool
    var client: Option<bool>
    var thread: Option<nat>
    var detected: bool
    ghost var linked: bool
    ghost var detecting: nat

    ghost function Model(): Loop
      reads this
    {
      Loop(stage, confirmed, client, thread, detected, linked, detecting)
    }

    constructor ()
      ensures Model() == FRESH
    {
      stage, confirmed, client, thread, detected := Idle, false, None, None, false;
      linked, detecting := false, 0;
    }

    /** Raises unless the node answers. */
    method Connect(readOnly: bool, rpc: Rpc, node: Node) returns (ok: bool, after: Node)
      modifies this
      ensures Model() == LoopConnect(old(Model()), readOnly, rpc)
      ensures ok == rpc.Replied? && after == NodeConnect(node, readOnly, rpc)
    {
      if client.None? {
        client := Some(true);
      }
      after := NodeConnect(node, readOnly, rpc);
      if !rpc.Replied? {
        return false, after;
      }
      client := Some(readOnly);
      linked := linked || !readOnly;
      stage := Connected;
      ok := true;
    }

    /** detect() run without interruption; ok tells whether reset, reading, predict and classification went through. */
    method Detect(ok: bool)
      modifies this
      ensures Model() == LoopDetected(LoopDetecting(old(Model())), ok)
    {
      stage := Detecting;
      if !ok {
        stage := Connected;
        return;
      }
      detected := true;
      stage := AwaitingConfirm;
    }

    method Confirm()
      modifies this
      ensures Model() == LoopConfirm(old(Model()))
    {
      confirmed := true;
      stage := Armed;
    }

    /** start() run without interruption: the policy reset, the live connect, reading the joints, the thread. */
    method Start(reset: bool, rpc: Rpc, read: bool, newThread: nat, node: Node) returns (spawned: bool, after: Node)
      modifies this
      ensures spawned == (old(confirmed) && reset && LinkOk(old(Model()), rpc) && read)
      ensures var begun := old(confirmed) && reset;
        var linkedUp := if begun then LoopLink(old(Model()), rpc) else old(Model());
        && after == (if begun then NodeLink(node, old(Model()), rpc) else node)
        && Model() == if spawned then linkedUp.(thread := Some(newThread), stage := Running) else linkedUp
    {
      after := node;
      if !confirmed || !reset {
        return false, node;
      }
      if client.None? || client.value {
        var ok;
        ok, after := Connect(false, rpc, node);
        if !ok {
          return false, after;
        }
      }
      if !read {
        return false, after;
      }
      thread := Some(newThread);
      stage := Running;
      spawned := true;
    }

    method Stop()
      modifies this
      ensures Model() == LoopStop(old(Model()))
    {
      if stage != Failed {
        stage := Stopped;
      }
    }

    /** stop(), then the node's own stop. */
    method Estop(rpc: Rpc, node: Node) returns (ok: bool, after: Node)
      modifies this
      ensures Model() == LoopStop(old(Model()))
      ensures after == NodeEstop(node, old(Model()), rpc) && ok == (old(client).Some? ==> rpc.Replied?)
    {
      Stop();
      after, ok := node, true;
      if client.Some? {
        ok := rpc.Replied?;
        after := if Done(rpc) then NodeHalt(node) else node;
      }
    }
  }

  // ------------------------------------------------------------ the whole system

  /** How far a start() has come. */
  datatype Phase = Resetting | Connecting | Spawned | Closed

  /** A start(), and the thread it started. */
  datatype Launch = Launch(owner: nat, phase: Phase, thread: Option<nat>)

  datatype Thread = Thread(owner: nat, alive: bool)

  /**
   * Every loop, thread and start() ever made; current is the loop the routes see; releasing counts the disconnects
   * about to clear it.
   */
  datatype World = World(loops: seq<Loop>, current: Option<nat>, threads: seq<Thread>, launches: seq<Launch>,
                         releasing: nat, node: Node) {
    /** A spawned start knows its thread. */
    predicate Started(launch: Launch) {
      && (launch.thread.Some? ==> launch.thread.value < |threads|)
      && (launch.phase.Spawned? ==> launch.thread.Some?)
    }

    predicate Valid() {
      && (current.Some? ==> current.value < |loops|)
      && (forall l | 0 <= l < |loops| :: loops[l].thread.Some? ==> loops[l].thread.value < |threads|)
      && (forall th | 0 <= th < |threads| :: threads[th].owner < |loops|)
      && (forall s | 0 <= s < |launches| :: launches[s].owner < |loops| && Started(launches[s]))
    }
  }

  const START := World([], None, [], [], 0, Empty)

  /** joined tells whether stop()'s join saw the thread end. */
  datatype Event =
    | Ensure                                        // _ensure_loop
    | Connect(l: nat, readOnly: bool, rpc: Rpc)
    | BeginDetect(l: nat)
    | EndDetect(l: nat, ok: bool)
    | Confirm
    | Begin(l: nat)                                 // start(): the guards pass, the policy reset is under way
    | Link(s: nat, rpc: Rpc)                        // the reset is done; connect live if need be
    | Abandon(s: nat)                               // the reset, or reading the joints, raises
    | Spawn(s: nat)                                 // the joints were read; clear the stop flag, start the thread
    | Announce(s: nat)                              // write RUNNING
    | Stop(l: nat, joined: bool)
    | Estop(l: nat, joined: bool, rpc: Rpc)
    | Disconnect(joined: bool, rpc: Rpc)            // the estop of a disconnect
    | Release                                       // and its clearing of the installed loop
    | Send(th: nat)
    | Ends(th: nat, failed: bool, rpc: Rpc)         // rpc: the node's stop, called only after a failure
    | Fault                                         // the servo loop dies by itself

  function Ensured(w: World): (r: World)
    requires w.Valid()
    ensures r.Valid() && r.current.Some?
  {
    if w.current.Some? then w else w.(loops := w.loops + [FRESH], current := Some(|w.loops|))
  }

  function SetLoop(w: World, l: nat, loop: Loop): (r: World)
    requires w.Valid() && l < |w.loops| && (loop.thread.Some? ==> loop.thread.value < |w.threads|)
    ensures r.Valid()
  {
    w.(loops := w.loops[l := loop])
  }

  /** The thread that a successful join waited for is over. */
  function Joined(w: World, l: nat, joined: bool): (r: World)
    requires w.Valid() && l < |w.loops|
    ensures r.Valid()
  {
    var t := w.loops[l].thread;
    if joined && t.Some? then w.(threads := w.threads[t.value := w.threads[t.value].(alive := false)]) else w
  }

  function Halted(w: World, l: nat, joined: bool): (r: World)
    requires w.Valid() && l < |w.loops|
    ensures r.Valid()
  {
    SetLoop(Joined(w, l, joined), l, LoopStop(w.loops[l]))
  }

  /** The guards of /start and start() pass on loop l. */
  predicate Begins(w: World, e: Event) {
    e.Begin? && e.l < |w.loops| && (w.loops[e.l].stage.Armed? || w.loops[e.l].stage.Stopped?) && w.loops[e.l].confirmed
  }

  predicate AtPhase(w: World, s: nat, phase: Phase) { s < |w.launches| && w.launches[s].phase == phase }

  predicate Spawns(w: World, e: Event) { e.Spawn? && AtPhase(w, e.s, Connecting) }

  predicate Releases(w: World, e: Event) { e.Release? && w.releasing > 0 }

  function Linked(w: World, s: nat, rpc: Rpc): (r: World)
    requires w.Valid() && s < |w.launches|
    ensures r.Valid()
  {
    var l := w.launches[s].owner;
    var phase := if LinkOk(w.loops[l], rpc) then Connecting else Closed;
    SetLoop(w, l, LoopLink(w.loops[l], rpc)).(
      launches := w.launches[s := w.launches[s].(phase := phase)], node := NodeLink(w.node, w.loops[l], rpc))
  }

  function Launched(w: World, s: nat): (r: World)
    requires w.Valid() && s < |w.launches|
    ensures r.Valid()
  {
    var l := w.launches[s].owner;
    var v := w.(threads := w.threads + [Thread(l, true)],
                launches := w.launches[s := Launch(l, Spawned, Some(|w.threads|))]);
    SetLoop(v, l, v.loops[l].(thread := Some(|w.threads|)))
  }

  function Announced(w: World, s: nat): (r: World)
    requires w.Valid() && s < |w.launches|
    ensures r.Valid()
  {
    var l := w.launches[s].owner;
    SetLoop(w, l, w.loops[l].(stage := Running)).(launches := w.launches[s := w.launches[s].(phase := Closed)])
  }

  function Abandoned(w: World, s: nat): (r: World)
    requires w.Valid() && s < |w.launches|
    ensures r.Valid()
  {
    w.(launches := w.launches[s := w.launches[s].(phase := Closed)])
  }

  predicate UnderWay(launch: Launch) { launch.phase.Resetting? || launch.phase.Connecting? }

  predicate Abandons(w: World, s: nat) { s < |w.launches| && UnderWay(w.launches[s]) }

  predicate Lives(w: World, th: nat) { th < |w.threads| && w.threads[th].alive }

  /** A thread ends; one that fails writes ERROR and has the node stop its runtime. */
  function Ended(w: World, th: nat, failed: bool, rpc: Rpc): (r: World)
    requires w.Valid() && th < |w.threads|
    ensures r.Valid()
  {
    var l := w.threads[th].owner;
    var v := w.(threads := w.threads[th := Thread(l, false)]);
    if failed then SetLoop(v, l, v.loops[l].(stage := Failed)).(node := NodeEstop(w.node, w.loops[l], rpc)) else v
  }

  function DisconnectStops(w: World, joined: bool, rpc: Rpc): (r: World)
    requires w.Valid() && w.current.Some?
    ensures r.Valid()
  {
    var l := w.current.value;
    var completes := w.loops[l].client.Some? ==> rpc.Replied?;
    Halted(w, l, joined).(node := NodeEstop(w.node, w.loops[l], rpc),
                          releasing := if completes then w.releasing + 1 else w.releasing)
  }

  function Step(w: World, e: Event): (r: World)
    requires w.Valid()
    ensures r.Valid()
  {
    match e
    case Ensure => Ensured(w)
    case Connect(l, readOnly, rpc) =>
      if l < |w.loops| then
        SetLoop(w, l, LoopConnect(w.loops[l], readOnly, rpc)).(node := NodeConnect(w.node, readOnly, rpc))
      else w
    case BeginDetect(l) =>
      if l < |w.loops| && (w.loops[l].stage.Connected? || w.loops[l].stage.AwaitingConfirm?) then
        SetLoop(w, l, LoopDetecting(w.loops[l]))
      else w
    case EndDetect(l, ok) =>
      if l < |w.loops| && w.loops[l].detecting > 0 then SetLoop(w, l, LoopDetected(w.loops[l], ok)) else w
    case Confirm =>
      var v := Ensured(w);
      SetLoop(v, v.current.value, LoopConfirm(v.loops[v.current.value]))
    case Begin(l) => if Begins(w, e) then w.(launches := w.launches + [Launch(l, Resetting, None)]) else w
    case Link(s, rpc) => if AtPhase(w, s, Resetting) then Linked(w, s, rpc) else w
    case Abandon(s) => if Abandons(w, s) then Abandoned(w, s) else w
    case Spawn(s) => if AtPhase(w, s, Connecting) then Launched(w, s) else w
    case Announce(s) => if AtPhase(w, s, Spawned) then Announced(w, s) else w
    case Stop(l, joined) => if l < |w.loops| then Halted(w, l, joined) else w
    case Estop(l, joined, rpc) =>
      if l < |w.loops| then Halted(w, l, joined).(node := NodeEstop(w.node, w.loops[l], rpc)) else w
    case Disconnect(joined, rpc) => if w.current.Some? then DisconnectStops(w, joined, rpc) else w
    case Release => if w.releasing > 0 then w.(current := None, releasing := w.releasing - 1) else w
    case Send(th) => w
    case Ends(th, failed, rpc) => if Lives(w, th) then Ended(w, th, failed, rpc) else w
    case Fault => w.(node := NodeHalt(w.node))
  }

  function Run(es: seq<Event>): (w: World)
    ensures w.Valid()
  {
    if es == [] then START else Step(Run(es[..|es| - 1]), es[|es| - 1])
  }

  /** The node takes a target from this thread: the thread lives and the runtime is not read-only. */
  predicate Accepts(w: World, th: nat) {
    th < |w.threads| && w.threads[th].alive && w.node.Holds? && !w.node.readOnly
  }

  /** And the servo loop is running, so the arm follows it. */
  predicate Moves(w: World, th: nat) { Accepts(w, th) && !w.node.halted }

  // ------------------------------------------------------------ what every step keeps

  /** Live stubs were linked; starts belong to confirmed loops, past their connect to linked ones, like threads. */
  predicate Earned(w: World)
    requires w.Valid()
  {
    && (forall l | 0 <= l < |w.loops| :: Live(w.loops[l]) ==> w.loops[l].linked)
    && (forall s | 0 <= s < |w.launches| :: LaunchEarned(w.loops[w.launches[s].owner], w.launches[s].phase))
    && (forall th | 0 <= th < |w.threads| :: OwnerEarned(w.loops[w.threads[th].owner]))
  }

  predicate OwnerEarned(loop: Loop) { loop.confirmed && loop.linked }

  predicate LaunchEarned(loop: Loop, phase: Phase) {
    loop.confirmed && (phase.Connecting? || phase.Spawned? ==> loop.linked)
  }

  /** A loop after an event: nothing it has earned is taken back. */
  predicate Grows(before: Loop, after: Loop) {
    && (before.confirmed ==> after.confirmed) && (before.linked ==> after.linked) && (Live(after) ==> after.linked)
  }

  lemma SetLoopEarned(w: World, l: nat, loop: Loop)
    requires w.Valid() && Earned(w) && l < |w.loops| && (loop.thread.Some? ==> loop.thread.value < |w.threads|)
    requires Grows(w.loops[l], loop)
    ensures Earned(SetLoop(w, l, loop))
  {
  }

  lemma EnsuredEarned(w: World)
    requires w.Valid() && Earned(w)
    ensures Earned(Ensured(w))
  {
  }

  lemma HaltedEarned(w: World, l: nat, joined: bool)
    requires w.Valid() && Earned(w) && l < |w.loops|
    ensures Earned(Halted(w, l, joined))
  {
    JoinedEarned(w, l, joined);
    hide Joined, Earned;
    JoinedKeeps(w, l, joined);
    LiveLinked(w, l);
    SetLoopEarned(Joined(w, l, joined), l, LoopStop(w.loops[l]));
  }

  lemma JoinedEarned(w: World, l: nat, joined: bool)
    requires w.Valid() && Earned(w) && l < |w.loops|
    ensures Earned(Joined(w, l, joined))
  {
  }

  lemma JoinedKeeps(w: World, l: nat, joined: bool)
    requires w.Valid() && l < |w.loops|
    ensures Joined(w, l, joined).loops == w.loops && |Joined(w, l, joined).threads| == |w.threads|
  {
  }

  lemma LiveLinked(w: World, l: nat)
    requires w.Valid() && Earned(w) && l < |w.loops|
    ensures Live(w.loops[l]) ==> w.loops[l].linked
  {
  }

  lemma LinkedEarned(w: World, s: nat, rpc: Rpc)
    requires w.Valid() && Earned(w) && s < |w.launches|
    ensures Earned(Linked(w, s, rpc))
  {
    var l := w.launches[s].owner;
    LiveLinked(w, l);
    assert LaunchEarned(w.loops[l], w.launches[s].phase);
    var v := SetLoop(w, l, LoopLink(w.loops[l], rpc));
    SetLoopEarned(w, l, LoopLink(w.loops[l], rpc));
    hide SetLoop, LoopConnect;
    var phase := if LinkOk(w.loops[l], rpc) then Connecting else Closed;
    LaunchChangeEarned(v, s, phase, NodeLink(w.node, w.loops[l], rpc)) by {
      LinkLinks(w, l, rpc);
    }
  }

  lemma LinkLinks(w: World, l: nat, rpc: Rpc)
    requires w.Valid() && l < |w.loops| && (Live(w.loops[l]) ==> w.loops[l].linked)
    ensures LinkOk(w.loops[l], rpc) ==> LoopLink(w.loops[l], rpc).linked
    ensures LoopLink(w.loops[l], rpc).confirmed == w.loops[l].confirmed
    ensures var v := SetLoop(w, l, LoopLink(w.loops[l], rpc));
      v.launches == w.launches && v.loops[l] == LoopLink(w.loops[l], rpc) && |v.loops| == |w.loops|
  {
  }

  lemma LaunchChangeEarned(w: World, s: nat, phase: Phase, node: Node)
    requires w.Valid() && Earned(w) && s < |w.launches| && LaunchEarned(w.loops[w.launches[s].owner], phase)
    requires phase.Spawned? ==> w.launches[s].thread.Some?
    ensures Earned(w.(launches := w.launches[s := w.launches[s].(phase := phase)], node := node))
  {
  }

  lemma LaunchedEarned(w: World, s: nat)
    requires w.Valid() && Earned(w) && AtPhase(w, s, Connecting)
    ensures Earned(Launched(w, s))
  {
    assert LaunchEarned(w.loops[w.launches[s].owner], Connecting);
  }

  lemma AnnouncedEarned(w: World, s: nat)
    requires w.Valid() && Earned(w) && s < |w.launches|
    ensures Earned(Announced(w, s))
  {
    assert LaunchEarned(w.loops[w.launches[s].owner], w.launches[s].phase);
  }

  lemma AbandonedEarned(w: World, s: nat)
    requires w.Valid() && Earned(w) && s < |w.launches|
    ensures Earned(Abandoned(w, s))
  {
    assert LaunchEarned(w.loops[w.launches[s].owner], w.launches[s].phase);
  }

  lemma EndedEarned(w: World, th: nat, failed: bool, rpc: Rpc)
    requires w.Valid() && Earned(w) && th < |w.threads|
    ensures Earned(Ended(w, th, failed, rpc))
  {
    assert OwnerEarned(w.loops[w.threads[th].owner]);
  }

  lemma NodeEarned(w: World, node: Node, current: Option<nat>, releasing: nat)
    requires w.Valid() && Earned(w) && (current.Some? ==> current.value < |w.loops|)
    ensures Earned(w.(node := node, current := current, releasing := releasing))
  {
  }

  lemma BegunEarned(w: World, e: Event)
    requires w.Valid() && Earned(w) && Begins(w, e)
    ensures Earned(w.(launches := w.launches + [Launch(e.l, Resetting, None)]))
  {
  }

  lemma LoopStepEarned(w: World, l: nat, loop: Loop, node: Node)
    requires w.Valid() && Earned(w) && l < |w.loops| && loop.thread == w.loops[l].thread
    requires Live(w.loops[l]) ==> w.loops[l].linked
    requires Grows(w.loops[l], loop)
    ensures Earned(SetLoop(w, l, loop).(node := node)) && Earned(SetLoop(w, l, loop))
  {
    SetLoopEarned(w, l, loop);
    hide Earned, SetLoop;
    var v := SetLoop(w, l, loop);
    NodeEarned(v, node, v.current, v.releasing);
  }

  lemma StopStepEarned(w: World, e: Event)
    requires w.Valid() && Earned(w) && (e.Stop? || e.Estop? || e.Disconnect?)
    ensures Earned(Step(w, e))
  {
    var l := if e.Disconnect? then if w.current.Some? then w.current.value else |w.loops| else e.l;
    hide Earned, Halted, NodeEstop;
    if l < |w.loops| {
      HaltedEarned(w, l, e.joined);
      var v, r := Halted(w, l, e.joined), Step(w, e);
      NodeEarned(v, r.node, v.current, r.releasing);
      HaltedFrame(w, l, e.joined);
    }
  }

  lemma HaltedFrame(w: World, l: nat, joined: bool)
    requires w.Valid() && l < |w.loops|
    ensures var v := Halted(w, l, joined);
      && v.current == w.current && v.releasing == w.releasing && v.node == w.node && v.launches == w.launches
      && |v.loops| == |w.loops| && |v.threads| == |w.threads|
  {
  }

  lemma HaltedLoop(w: World, l: nat, joined: bool, i: nat)
    requires w.Valid() && l < |w.loops| && i < |w.loops|
    ensures var before, after := w.loops[i], Halted(w, l, joined).loops[i];
      before.confirmed == after.confirmed && before.linked == after.linked && before.thread == after.thread
  {
  }

  lemma StepEarned(w: World, e: Event)
    requires w.Valid() && Earned(w)
    ensures Earned(Step(w, e))
  {
    if e.Stop? || e.Estop? || e.Disconnect? {
      StopStepEarned(w, e);
    } else {
      hide Earned, SetLoop, Linked, Launched, Announced, Abandoned, Ended, NodeHalt, NodeConnect, Begins, Ensured;
      match e
      case Ensure => EnsuredEarned(w);
      case Connect(l, readOnly, rpc) =>
        if l < |w.loops| {
          LiveLinked(w, l);
          LoopStepEarned(w, l, LoopConnect(w.loops[l], readOnly, rpc), NodeConnect(w.node, readOnly, rpc));
        }
      case BeginDetect(l) =>
        if l < |w.loops| { LiveLinked(w, l); SetLoopEarned(w, l, LoopDetecting(w.loops[l])); }
      case EndDetect(l, ok) =>
        if l < |w.loops| && w.loops[l].detecting > 0 {
          LiveLinked(w, l);
          SetLoopEarned(w, l, LoopDetected(w.loops[l], ok));
        }
      case Confirm =>
        var v := Ensured(w);
        EnsuredEarned(w);
        LiveLinked(v, v.current.value);
        SetLoopEarned(v, v.current.value, LoopConfirm(v.loops[v.current.value]));
      case Begin(l) => if Begins(w, e) { BegunEarned(w, e); }
      case Link(s, rpc) => if AtPhase(w, s, Resetting) { LinkedEarned(w, s, rpc); }
      case Abandon(s) => if Abandons(w, s) { AbandonedEarned(w, s); }
      case Spawn(s) => if AtPhase(w, s, Connecting) { LaunchedEarned(w, s); }
      case Announce(s) => if AtPhase(w, s, Spawned) { AnnouncedEarned(w, s); }
      case Release => if w.releasing > 0 { NodeEarned(w, w.node, None, w.releasing - 1); }
      case Send(th) =>
      case Ends(th, failed, rpc) => if Lives(w, th) { EndedEarned(w, th, failed, rpc); }
      case Fault => NodeEarned(w, NodeHalt(w.node), w.current, w.releasing);
    }
  }

  lemma {:induction false} RunEarned(es: seq<Event>)
    ensures Earned(Run(es))
  {
    hide Earned, Step;
    if es == [] {
      NothingYet();
    } else {
      RunEarned(es[..|es| - 1]);
      StepEarned(Run(es[..|es| - 1]), es[|es| - 1]);
    }
  }

  lemma NothingYet()
    ensures Earned(START)
  {
  }

  // ------------------------------------------------------------ what has happened to a loop

  predicate ConfirmedAt(es: seq<Event>, k: nat, l: nat) {
    k < |es| && es[k].Confirm? && Run(es[..k + 1]).current == Some(l)
  }

  /** Event e connects loop l live, and the node answers. */
  predicate LinksLive(w: World, e: Event, l: nat)
    requires w.Valid()
  {
    || (e.Connect? && e.l == l && l < |w.loops| && !e.readOnly && e.rpc.Replied?)
    || (e.Link? && AtPhase(w, e.s, Resetting) && w.launches[e.s].owner == l && MustLink(w.loops[l]) && e.rpc.Replied?)
  }

  predicate MustLink(loop: Loop) { !Live(loop) }

  predicate LinkedAt(es: seq<Event>, k: nat, l: nat) { k < |es| && LinksLive(Run(es[..k]), es[k], l) }

  ghost predicate EverConfirmed(es: seq<Event>, l: nat) { exists k: nat :: ConfirmedAt(es, k, l) }

  ghost predicate EverLinked(es: seq<Event>, l: nat) { exists k: nat :: LinkedAt(es, k, l) }

  predicate WasConfirmed(w: World, l: nat) { l < |w.loops| && w.loops[l].confirmed }

  predicate WasLinked(w: World, l: nat) { l < |w.loops| && w.loops[l].linked }

  /** The loop a stopping event acts on. */
  function StopTarget(w: World, e: Event): nat
    requires e.Stop? || e.Estop? || e.Disconnect?
  {
    if e.Disconnect? then if w.current.Some? then w.current.value else |w.loops| else e.l
  }

  /** Stopping changes no loop's record and installs or clears nothing. */
  lemma StoppingKeeps(w: World, e: Event)
    requires w.Valid() && (e.Stop? || e.Estop? || e.Disconnect?)
    ensures var l := StopTarget(w, e); var r := Step(w, e);
      && (l < |w.loops| ==> r.loops == Halted(w, l, e.joined).loops && r.threads == Halted(w, l, e.joined).threads)
      && (l >= |w.loops| ==> r == w)
      && r.current == w.current && r.launches == w.launches && |r.loops| == |w.loops|
  {
    var l := StopTarget(w, e);
    hide Halted, NodeEstop;
    if l < |w.loops| { HaltedFrame(w, l, e.joined); }
  }

  lemma StoppingRecord(w: World, e: Event, i: nat)
    requires w.Valid() && (e.Stop? || e.Estop? || e.Disconnect?)
    ensures WasConfirmed(Step(w, e), i) == WasConfirmed(w, i) && WasLinked(Step(w, e), i) == WasLinked(w, i)
  {
    StoppingKeeps(w, e);
    var l := StopTarget(w, e);
    hide Step, Halted;
    if l < |w.loops| && i < |w.loops| { HaltedLoop(w, l, e.joined, i); }
  }

  /** A loop becomes confirmed only by a confirm while it is installed. */
  lemma StepConfirms(w: World, e: Event, l: nat)
    requires w.Valid() && WasConfirmed(Step(w, e), l) && !WasConfirmed(w, l)
    ensures e.Confirm? && Step(w, e).current == Some(l)
  {
    if e.Stop? || e.Estop? || e.Disconnect? {
      StoppingRecord(w, e, l);
      assert false;
    }
    hide Halted, NodeHalt, NodeConnect, Live;
  }

  /** And linked only by an answered live connect. */
  lemma StepLinks(w: World, e: Event, l: nat)
    requires w.Valid() && Earned(w) && WasLinked(Step(w, e), l) && !WasLinked(w, l)
    ensures LinksLive(w, e, l)
  {
    if e.Stop? || e.Estop? || e.Disconnect? {
      StoppingRecord(w, e, l);
      assert false;
    }
    if e.Link? && AtPhase(w, e.s, Resetting) { LiveLinked(w, w.launches[e.s].owner); }
    hide Halted, NodeHalt, NodeConnect, Earned;
  }

  lemma {:induction false} ConfirmedWasConfirmed(es: seq<Event>, l: nat)
    requires WasConfirmed(Run(es), l)
    ensures EverConfirmed(es, l)
  {
    hide WasConfirmed, Step;
    if es == [] {
      NoLoops(l);
    } else {
      var init, e := es[..|es| - 1], es[|es| - 1];
      assert es[..|init| + 1] == es;
      if WasConfirmed(Run(init), l) {
        ConfirmedWasConfirmed(init, l);
        var k: nat :| ConfirmedAt(init, k, l);
        assert es[..k + 1] == init[..k + 1];
        assert ConfirmedAt(es, k, l);
      } else {
        StepConfirms(Run(init), e, l);
        assert ConfirmedAt(es, |init|, l);
      }
    }
  }

  lemma NoLoops(l: nat)
    ensures !WasConfirmed(START, l) && !WasLinked(START, l)
  {
  }

  lemma {:induction false} LinkedWasLinked(es: seq<Event>, l: nat)
    requires WasLinked(Run(es), l)
    ensures EverLinked(es, l)
  {
    hide WasLinked, Step, LinksLive;
    if es == [] {
      NoLoops(l);
    } else {
      var init, e := es[..|es| - 1], es[|es| - 1];
      if WasLinked(Run(init), l) {
        LinkedWasLinked(init, l);
        var k: nat :| LinkedAt(init, k, l);
        assert es[..k] == init[..k];
        assert LinkedAt(es, k, l);
      } else {
        RunEarned(init);
        StepLinks(Run(init), e, l);
        assert es[..|init|] == init;
        assert LinkedAt(es, |init|, l);
      }
    }
  }

  /**
   * Over every interleaving, with handlers overlapping in any way: a target is only taken from a thread whose
   * loop was confirmed while installed and connected live, and only while the node's runtime is not read-only.
   */
  lemma AcceptedTargetWasEarned(es: seq<Event>, th: nat)
    requires Accepts(Run(es), th)
    ensures var w := Run(es); var l := w.threads[th].owner;
      EverConfirmed(es, l) && EverLinked(es, l) && w.node.Holds? && !w.node.readOnly
  {
    RunEarned(es);
    var l := Run(es).threads[th].owner;
    assert OwnerEarned(Run(es).loops[l]);
    hide Run, Earned;
    ConfirmedWasConfirmed(es, l);
    LinkedWasLinked(es, l);
  }

  // ------------------------------------------------------------ since the last disconnect

  /** From event k on no disconnect cleared the installed loop. */
  predicate NoRelease(es: seq<Event>, k: nat) {
    forall j | k <= j < |es| :: !Releases(Run(es[..j]), es[j])
  }

  /** Confirmed, and connected live, since the last disconnect that took effect. */
  ghost predicate EarnedSinceRelease(es: seq<Event>, l: nat) {
    && (exists k: nat :: ConfirmedAt(es, k, l) && NoRelease(es, k + 1))
    && (exists k: nat :: LinkedAt(es, k, l) && NoRelease(es, k + 1))
  }

  /** Only a release clears the installed loop, and a loop installed later is a new one. */
  lemma InstalledStep(w: World, e: Event)
    requires w.Valid()
    ensures var r := Step(w, e);
      && |w.loops| <= |r.loops|
      && (w.current.Some? ==> r.current == if Releases(w, e) then None else w.current)
      && (w.current.None? ==> r.current.None? || r.current.value >= |w.loops|)
  {
    if e.Stop? || e.Estop? || e.Disconnect? { StoppingKeeps(w, e); }
    hide Halted, NodeHalt, NodeConnect, NodeLink, LoopLink;
  }

  /** While nothing is released, the installed loop stays installed. */
  lemma {:induction false} StaysInstalled(es: seq<Event>, k: nat, l: nat)
    requires k <= |es| && Run(es[..k]).current == Some(l) && NoRelease(es, k)
    ensures Run(es).current == Some(l)
  {
    hide Step, Releases;
    if k == |es| {
      assert es[..k] == es;
    } else {
      var init := es[..|es| - 1];
      assert init[..k] == es[..k];
      NoReleaseInit(es, k);
      StaysInstalled(init, k, l);
      InstalledStep(Run(init), es[|es| - 1]);
    }
  }

  lemma NoReleaseInit(es: seq<Event>, k: nat)
    requires k < |es|
    ensures var init := es[..|es| - 1];
      NoRelease(es, k) <==> NoRelease(init, k) && !Releases(Run(init), es[|es| - 1])
  {
    hide Run, Releases;
    var init := es[..|es| - 1];
    forall j | k <= j < |init| ensures Releases(Run(init[..j]), init[j]) == Releases(Run(es[..j]), es[j]) {
      assert init[..j] == es[..j];
    }
    if NoRelease(es, k) {
      assert !Releases(Run(es[..|init|]), es[|init|]);
    }
    if NoRelease(init, k) && !Releases(Run(init), es[|es| - 1]) {
      forall j | k <= j < |es| ensures !Releases(Run(es[..j]), es[j]) {
        if j < |init| { assert !Releases(Run(init[..j]), init[j]); }
      }
    }
  }

  /** A loop that existed then and is installed now was installed throughout, and nothing was released since. */
  lemma {:induction false} InstalledThroughout(es: seq<Event>, k: nat, l: nat)
    requires k <= |es| && l < |Run(es[..k]).loops| && Run(es).current == Some(l)
    ensures Run(es[..k]).current == Some(l) && NoRelease(es, k)
  {
    hide Step, Releases;
    if k == |es| {
      assert es[..k] == es;
    } else {
      var init := es[..|es| - 1];
      assert init[..k] == es[..k];
      LoopsGrow(init, k);
      InstalledStep(Run(init), es[|es| - 1]);
      InstalledThroughout(init, k, l);
      NoReleaseInit(es, k);
    }
  }

  lemma {:induction false} LoopsGrow(es: seq<Event>, k: nat)
    requires k <= |es|
    ensures |Run(es[..k]).loops| <= |Run(es).loops|
  {
    hide Step;
    if k == |es| {
      assert es[..k] == es;
    } else {
      var init := es[..|es| - 1];
      assert init[..k] == es[..k];
      LoopsGrow(init, k);
      InstalledStep(Run(init), es[|es| - 1]);
    }
  }

  lemma NoReleaseAfter(es: seq<Event>, k: nat)
    requires k <= |es| && NoRelease(es, k)
    ensures NoRelease(es, k + 1)
  {
    hide Run, Releases;
  }

  lemma LinkedExists(es: seq<Event>, k: nat, l: nat)
    requires LinkedAt(es, k, l)
    ensures k < |es| && l < |Run(es[..k]).loops|
  {
  }

  lemma InstalledExists(es: seq<Event>, l: nat)
    requires Run(es).current == Some(l)
    ensures l < |Run(es).loops|
  {
  }

  lemma InstalledWasEarned(es: seq<Event>, l: nat)
    requires EverConfirmed(es, l) && EverLinked(es, l) && Run(es).current == Some(l)
    ensures EarnedSinceRelease(es, l)
  {
    hide Run, NoRelease, LinkedAt;
    var k: nat :| ConfirmedAt(es, k, l);
    InstalledExists(es[..k + 1], l);
    InstalledThroughout(es, k + 1, l);
    var c: nat :| LinkedAt(es, c, l);
    LinkedExists(es, c, l);
    InstalledThroughout(es, c, l);
    NoReleaseAfter(es, c);
  }

  lemma EarnedIsInstalled(es: seq<Event>, l: nat)
    requires EarnedSinceRelease(es, l)
    ensures Run(es).current == Some(l)
  {
    hide Run, NoRelease, LinkedAt;
    var k: nat :| ConfirmedAt(es, k, l) && NoRelease(es, k + 1);
    StaysInstalled(es, k + 1, l);
  }

  /**
   * The confirm and the live connect behind an accepted target lie after the last disconnect exactly when the
   * sending thread's loop is still the installed one.
   */
  lemma EarnedSinceReleaseIff(es: seq<Event>, th: nat)
    requires Accepts(Run(es), th)
    ensures var l := Run(es).threads[th].owner;
      EarnedSinceRelease(es, l) <==> Run(es).current == Some(l)
  {
    var l := Run(es).threads[th].owner;
    AcceptedTargetWasEarned(es, th);
    hide Run, Accepts, EarnedSinceRelease, EverConfirmed, EverLinked;
    if Run(es).current == Some(l) { InstalledWasEarned(es, l); }
    if EarnedSinceRelease(es, l) { EarnedIsInstalled(es, l); }
  }

  // ------------------------------------------------------------ when there is one thread

  predicate NoneAlive(w: World) { forall th | 0 <= th < |w.threads| :: !w.threads[th].alive }

  predicate NoneUnderWay(w: World) { forall s | 0 <= s < |w.launches| :: !UnderWay(w.launches[s]) }

  /** The only thread that can be alive is the installed loop's own, and only its starts can be under way. */
  predicate Safe(w: World) {
    && (forall th | 0 <= th < |w.threads| && w.threads[th].alive :: Own(w, th))
    && (forall s | 0 <= s < |w.launches| && UnderWay(w.launches[s]) :: w.current == Some(w.launches[s].owner))
  }

  predicate Own(w: World, th: nat) {
    && th < |w.threads| && w.current == Some(w.threads[th].owner) && w.threads[th].owner < |w.loops|
    && w.loops[w.threads[th].owner].thread == Some(th)
  }

  /**
   * What an event must respect, each readable before it: a start begins on the installed loop, a thread is
   * started when none is alive, and the installed loop is cleared when no thread is alive and no start under way.
   */
  predicate OrderlyStep(w: World, e: Event) {
    && (Begins(w, e) ==> w.current == Some(e.l))
    && (Spawns(w, e) ==> NoneAlive(w))
    && (Releases(w, e) ==> NoneAlive(w) && NoneUnderWay(w))
  }

  predicate Orderly(es: seq<Event>) { forall k | 0 <= k < |es| :: OrderlyStep(Run(es[..k]), es[k]) }

  predicate AlwaysSafe(es: seq<Event>) { forall k | 0 <= k <= |es| :: Safe(Run(es[..k])) }

  /** Threads, starts, the installed loop and the loops' latest threads all as before, or threads fewer. */
  predicate Calmer(w: World, r: World) {
    && r.current == w.current && r.launches == w.launches && |r.threads| == |w.threads| && |r.loops| == |w.loops|
    && (forall th | 0 <= th < |w.threads| ::
          r.threads[th].owner == w.threads[th].owner && (r.threads[th].alive ==> w.threads[th].alive))
    && (forall l | 0 <= l < |w.loops| :: r.loops[l].thread == w.loops[l].thread)
  }

  lemma CalmerSafe(w: World, r: World)
    requires Safe(w) && Calmer(w, r)
    ensures Safe(r)
  {
    forall th | 0 <= th < |r.threads| && r.threads[th].alive ensures Own(r, th) {
      assert Own(w, th);
    }
  }

  lemma SetLoopCalmer(w: World, l: nat, loop: Loop, node: Node)
    requires w.Valid() && l < |w.loops| && loop.thread == w.loops[l].thread
    ensures Calmer(w, SetLoop(w, l, loop).(node := node)) && Calmer(w, SetLoop(w, l, loop))
  {
  }

  lemma HaltedCalmer(w: World, l: nat, joined: bool)
    requires w.Valid() && l < |w.loops|
    ensures Calmer(w, Halted(w, l, joined))
  {
  }

  lemma EndedCalmer(w: World, th: nat, failed: bool, rpc: Rpc)
    requires w.Valid() && th < |w.threads|
    ensures Calmer(w, Ended(w, th, failed, rpc))
  {
  }

  lemma StoppingCalmer(w: World, e: Event)
    requires w.Valid() && (e.Stop? || e.Estop? || e.Disconnect?)
    ensures Calmer(w, Step(w, e))
  {
    StoppingKeeps(w, e);
    var l := StopTarget(w, e);
    hide Step, Halted;
    if l < |w.loops| { HaltedCalmer(w, l, e.joined); }
  }

  lemma EnsuredSafe(w: World)
    requires w.Valid() && Safe(w)
    ensures Safe(Ensured(w))
  {
    var v := Ensured(w);
    forall th | 0 <= th < |v.threads| && v.threads[th].alive ensures Own(v, th) {
      assert Own(w, th);
    }
  }

  lemma BeginSafeIff(w: World, e: Event)
    requires w.Valid() && Safe(w) && Begins(w, e)
    ensures Safe(Step(w, e)) <==> w.current == Some(e.l)
  {
    var r := Step(w, e);
    assert UnderWay(r.launches[|w.launches|]) && r.launches[|w.launches|].owner == e.l;
    forall th | 0 <= th < |r.threads| && r.threads[th].alive ensures Own(r, th) {
      assert Own(w, th);
    }
  }

  lemma PhaseSafe(w: World, s: nat, phase: Phase)
    requires w.Valid() && Safe(w) && s < |w.launches| && (UnderWay(Launch(0, phase, None)) ==> UnderWay(w.launches[s]))
    ensures Safe(w.(launches := w.launches[s := w.launches[s].(phase := phase)]))
  {
    var r := w.(launches := w.launches[s := w.launches[s].(phase := phase)]);
    forall th | 0 <= th < |r.threads| && r.threads[th].alive ensures Own(r, th) {
      assert Own(w, th);
    }
  }

  lemma LinkSafe(w: World, s: nat, rpc: Rpc)
    requires w.Valid() && Safe(w) && AtPhase(w, s, Resetting)
    ensures Safe(Linked(w, s, rpc))
  {
    var l := w.launches[s].owner;
    var phase := if LinkOk(w.loops[l], rpc) then Connecting else Closed;
    PhaseSafe(w, s, phase);
    var v := w.(launches := w.launches[s := w.launches[s].(phase := phase)]);
    hide Safe;
    SetLoopCalmer(v, l, LoopLink(w.loops[l], rpc), NodeLink(w.node, w.loops[l], rpc));
    CalmerSafe(v, Linked(w, s, rpc));
  }

  lemma AnnounceSafe(w: World, s: nat)
    requires w.Valid() && Safe(w) && s < |w.launches|
    ensures Safe(Announced(w, s))
  {
    var l := w.launches[s].owner;
    PhaseSafe(w, s, Closed);
    var v := w.(launches := w.launches[s := w.launches[s].(phase := Closed)]);
    hide Safe;
    SetLoopCalmer(v, l, w.loops[l].(stage := Running), w.node);
    CalmerSafe(v, Announced(w, s));
  }

  lemma SpawnSafeIff(w: World, s: nat)
    requires w.Valid() && Safe(w) && AtPhase(w, s, Connecting)
    ensures Safe(Launched(w, s)) <==> NoneAlive(w)
  {
    var l, r := w.launches[s].owner, Launched(w, s);
    assert UnderWay(w.launches[s]);
    assert r.loops[l].thread == Some(|w.threads|);
    if !NoneAlive(w) {
      var th :| 0 <= th < |w.threads| && w.threads[th].alive;
      assert Own(w, th) && r.threads[th] == w.threads[th] && !Own(r, th);
    }
  }

  lemma ReleaseSafeIff(w: World)
    requires w.Valid() && Safe(w) && w.releasing > 0
    ensures Safe(Step(w, Release)) <==> NoneAlive(w) && NoneUnderWay(w)
  {
    var r := Step(w, Release);
    if !NoneAlive(w) {
      var th :| 0 <= th < |w.threads| && w.threads[th].alive;
      assert r.threads[th].alive && !Own(r, th);
    }
    if !NoneUnderWay(w) {
      var s :| 0 <= s < |w.launches| && UnderWay(w.launches[s]);
      assert UnderWay(r.launches[s]) && r.current != Some(r.launches[s].owner);
    }
  }

  predicate Quiet(e: Event) {
    || e.Stop? || e.Estop? || e.Disconnect? || e.Connect? || e.BeginDetect? || e.EndDetect? || e.Ends? || e.Fault?
    || e.Send?
  }

  lemma LoopEventCalmer(w: World, e: Event)
    requires w.Valid() && (e.Connect? || e.BeginDetect? || e.EndDetect?)
    ensures Calmer(w, Step(w, e))
  {
    SameCalmer(w);
    hide Calmer, SetLoop, NodeConnect;
    if e.l < |w.loops| {
      match e
      case Connect(l, readOnly, rpc) =>
        SetLoopCalmer(w, l, LoopConnect(w.loops[l], readOnly, rpc), NodeConnect(w.node, readOnly, rpc));
      case BeginDetect(l) => SetLoopCalmer(w, l, LoopDetecting(w.loops[l]), w.node);
      case EndDetect(l, ok) =>
        if w.loops[l].detecting > 0 { SetLoopCalmer(w, l, LoopDetected(w.loops[l], ok), w.node); }
    }
  }

  lemma SameCalmer(w: World)
    ensures Calmer(w, w) && Calmer(w, w.(node := NodeHalt(w.node)))
  {
  }

  /** Events that start nothing, spawn nothing and release nothing. */
  lemma QuietCalmer(w: World, e: Event)
    requires w.Valid() && Quiet(e)
    ensures Calmer(w, Step(w, e))
  {
    if e.Stop? || e.Estop? || e.Disconnect? {
      StoppingCalmer(w, e);
    } else if e.Connect? || e.BeginDetect? || e.EndDetect? {
      LoopEventCalmer(w, e);
    } else {
      SameCalmer(w);
      hide Calmer, Ended, NodeHalt;
      if e.Ends? && Lives(w, e.th) { EndedCalmer(w, e.th, e.failed, e.rpc); }
    }
  }

  lemma ConfirmSafe(w: World)
    requires w.Valid() && Safe(w)
    ensures Safe(Step(w, Confirm))
  {
    var v := Ensured(w);
    EnsuredSafe(w);
    hide Safe, Ensured;
    SetLoopCalmer(v, v.current.value, LoopConfirm(v.loops[v.current.value]), v.node);
    CalmerSafe(v, Step(w, Confirm));
  }

  lemma ProgressSafe(w: World, e: Event)
    requires w.Valid() && Safe(w) && (e.Ensure? || e.Confirm? || e.Link? || e.Abandon? || e.Announce?)
    ensures Safe(Step(w, e))
  {
    hide Safe, Linked, Announced, Ensured, SetLoop;
    match e
    case Ensure => EnsuredSafe(w);
    case Confirm => ConfirmSafe(w);
    case Link(s, rpc) => if AtPhase(w, s, Resetting) { LinkSafe(w, s, rpc); }
    case Abandon(s) => if Abandons(w, s) { PhaseSafe(w, s, Closed); }
    case Announce(s) => if AtPhase(w, s, Spawned) { AnnounceSafe(w, s); }
  }

  /** The three events that need a guard. */
  lemma GuardedSafeIff(w: World, e: Event)
    requires w.Valid() && Safe(w) && (e.Begin? || e.Spawn? || e.Release?)
    ensures Safe(Step(w, e)) <==> OrderlyStep(w, e)
  {
    hide Safe, Launched, NoneAlive, NoneUnderWay;
    match e
    case Begin(l) => if Begins(w, e) { BeginSafeIff(w, e); }
    case Spawn(s) => if AtPhase(w, s, Connecting) { SpawnSafeIff(w, s); }
    case Release => if w.releasing > 0 { ReleaseSafeIff(w); }
  }

  /** From a safe state an event leads to a safe one exactly when it is orderly. */
  lemma StepSafeIff(w: World, e: Event)
    requires w.Valid() && Safe(w)
    ensures Safe(Step(w, e)) <==> OrderlyStep(w, e)
  {
    if e.Begin? || e.Spawn? || e.Release? {
      GuardedSafeIff(w, e);
    } else if Quiet(e) {
      QuietCalmer(w, e);
      hide Step, Safe, Calmer;
      CalmerSafe(w, Step(w, e));
    } else {
      ProgressSafe(w, e);
      hide Step, Safe;
    }
  }

  lemma StartSafe()
    ensures Safe(START)
  {
  }

  /** A run stays safe throughout exactly when every event of it is orderly. */
  lemma {:induction false} AlwaysSafeIff(es: seq<Event>)
    ensures AlwaysSafe(es) <==> Orderly(es)
  {
    hide Step, Safe, OrderlyStep;
    StartSafe();
    assert es[..|es|] == es;
    if es != [] {
      var init, e := es[..|es| - 1], es[|es| - 1];
      AlwaysSafeIff(init);
      OrderlyInit(es);
      AlwaysSafeInit(es);
      if AlwaysSafe(init) {
        assert init[..|init|] == init;
        StepSafeIff(Run(init), e);
      }
    }
  }

  lemma OrderlyInit(es: seq<Event>)
    requires es != []
    ensures Orderly(es) <==> Orderly(es[..|es| - 1]) && OrderlyStep(Run(es[..|es| - 1]), es[|es| - 1])
  {
    hide Run, OrderlyStep;
    var init := es[..|es| - 1];
    forall k | 0 <= k < |init| ensures OrderlyStep(Run(init[..k]), init[k]) == OrderlyStep(Run(es[..k]), es[k]) {
      assert init[..k] == es[..k];
    }
    if Orderly(es) { assert OrderlyStep(Run(es[..|init|]), es[|init|]); }
    if Orderly(init) && OrderlyStep(Run(init), es[|init|]) {
      forall k | 0 <= k < |es| ensures OrderlyStep(Run(es[..k]), es[k]) {
        if k < |init| { assert OrderlyStep(Run(init[..k]), init[k]); }
      }
    }
  }

  lemma AlwaysSafeInit(es: seq<Event>)
    requires es != []
    ensures AlwaysSafe(es) <==> AlwaysSafe(es[..|es| - 1]) && Safe(Run(es))
  {
    hide Run, Safe;
    var init := es[..|es| - 1];
    assert es[..|es|] == es;
    forall k | 0 <= k <= |init| ensures Safe(Run(init[..k])) == Safe(Run(es[..k])) {
      assert init[..k] == es[..k];
    }
    if AlwaysSafe(es) { assert Safe(Run(es[..|es|])); }
    if AlwaysSafe(init) && Safe(Run(es)) {
      forall k | 0 <= k <= |es| ensures Safe(Run(es[..k])) {
        if k < |es| { assert Safe(Run(init[..k])); }
      }
    }
  }

  /** In an orderly run at most one thread is alive, and every accepted target was earned since the last disconnect. */
  lemma OrderlyRunsAreSafe(es: seq<Event>, th: nat, other: nat)
    requires Orderly(es) && Accepts(Run(es), th)
    ensures EarnedSinceRelease(es, Run(es).threads[th].owner)
    ensures other < |Run(es).threads| && Run(es).threads[other].alive ==> other == th
  {
    AlwaysSafeIff(es);
    assert es[..|es|] == es;
    assert Safe(Run(es));
    EarnedSinceReleaseIff(es, th);
    assert Own(Run(es), th);
    hide Run, Orderly, AlwaysSafe, EarnedSinceRelease;
  }

  // ------------------------------------------------------------ what the routes do not prevent

  const LOOP := Loop(Connected, true, Some(false), Some(0), false, true, 0)

  const STARTED :=
    World([LOOP], Some(0), [Thread(0, true)], [Launch(0, Spawned, Some(0))], 0, Holds(false, false))

  const GO := [Confirm, Begin(0), Link(0, Replied), Spawn(0)]

  lemma RunStep(es: seq<Event>, e: Event, w: World, longer: seq<Event>)
    requires Run(es) == w && longer == es + [e]
    ensures Run(longer) == Step(w, e)
  {
    assert longer[..|es|] == es;
  }

  const ARMED := Loop(Armed, true, None, None, false, false, 0)

  const RESETTING := World([ARMED], Some(0), [], [Launch(0, Resetting, None)], 0, Empty)

  lemma ConfirmAndBegin()
    ensures Run([Confirm, Begin(0)]) == RESETTING
  {
    var w := World([ARMED], Some(0), [], [], 0, Empty);
    assert Step(START, Confirm) == w;
    assert Step(w, Begin(0)) == RESETTING;
    hide Step;
    RunStep([], Confirm, START, [Confirm]);
    RunStep([Confirm], Begin(0), w, [Confirm, Begin(0)]);
  }

  lemma ConnectAndSpawn()
    ensures var linkedUp := Step(RESETTING, Link(0, Replied));
      linkedUp.current == Some(0) && Step(linkedUp, Spawn(0)) == STARTED
  {
    var w := World([Loop(Connected, true, Some(false), None, false, true, 0)], Some(0), [],
                   [Launch(0, Connecting, None)], 0,
                   Holds(false, false));
    assert Step(RESETTING, Link(0, Replied)) == w;
  }

  lemma ConfirmAndStart()
    ensures Run(GO) == STARTED
  {
    ConfirmAndBegin();
    ConnectAndSpawn();
    hide Step, Run;
    RunStep([Confirm, Begin(0)], Link(0, Replied), RESETTING, [Confirm, Begin(0), Link(0, Replied)]);
    RunStep([Confirm, Begin(0), Link(0, Replied)], Spawn(0), Step(RESETTING, Link(0, Replied)), GO);
  }

  predicate NoneDetected(es: seq<Event>) {
    forall k | 0 <= k < |es| :: !es[k].BeginDetect? && !es[k].EndDetect? && !es[k].Connect?
  }

  /** No detection and no /connect is needed: confirming a spec and starting is enough to move the robot. */
  lemma DetectIsNotNeeded()
    ensures Moves(Run(GO), 0) && NoneDetected(GO)
  {
    ConfirmAndStart();
    hide Run;
  }

  const RUNNING := STARTED.(loops := [LOOP.(stage := Running)], launches := [Launch(0, Closed, Some(0))])

  const REARMED := RUNNING.(loops := [LOOP.(stage := Armed)])

  const SECOND := REARMED.(launches := [Launch(0, Closed, Some(0)), Launch(0, Connecting, None)])

  lemma RearmSteps()
    ensures Step(STARTED, Announce(0)) == RUNNING && Step(RUNNING, Confirm) == REARMED
  {
    assert [LOOP][0 := LOOP.(stage := Running)] == [LOOP.(stage := Running)];
    assert [LOOP.(stage := Running)][0 := LOOP.(stage := Armed)] == [LOOP.(stage := Armed)];
  }

  lemma SecondSteps()
    ensures Step(Step(REARMED, Begin(0)), Link(1, Replied)) == SECOND
  {
    var loop := LOOP.(stage := Armed);
    assert Step(REARMED, Begin(0)) == REARMED.(launches := [Launch(0, Closed, Some(0)), Launch(0, Resetting, None)]);
    assert [loop][0 := loop] == [loop];
  }

  lemma SecondSpawns()
    ensures var w := Step(SECOND, Spawn(1));
      Moves(w, 0) && Moves(w, 1) && w.threads[0].owner == w.threads[1].owner
  {
  }

  /** Confirming again while running re-arms the loop, and a second start leaves two threads alive. */
  lemma TwoThreads()
    ensures var w := Run(GO + [Announce(0), Confirm, Begin(0), Link(1, Replied), Spawn(1)]);
      Moves(w, 0) && Moves(w, 1) && w.threads[0].owner == w.threads[1].owner
  {
    ConfirmAndStart();
    RearmSteps();
    SecondSteps();
    SecondSpawns();
    hide Step, Run, Moves;
    var a, b := GO + [Announce(0)], GO + [Announce(0), Confirm];
    var c, d := GO + [Announce(0), Confirm, Begin(0)], GO + [Announce(0), Confirm, Begin(0), Link(1, Replied)];
    RunStep(GO, Announce(0), STARTED, a);
    RunStep(a, Confirm, RUNNING, b);
    RunStep(b, Begin(0), REARMED, c);
    RunStep(c, Link(1, Replied), Step(REARMED, Begin(0)), d);
    RunStep(d, Spawn(1), SECOND, GO + [Announce(0), Confirm, Begin(0), Link(1, Replied), Spawn(1)]);
  }

  const CLEARED := World([ARMED.(stage := Stopped)], None, [], [Launch(0, Resetting, None)], 0, Empty)

  lemma DisconnectSteps()
    ensures Step(Step(RESETTING, Disconnect(true, Replied)), Release) == CLEARED
  {
    assert [ARMED][0 := ARMED.(stage := Stopped)] == [ARMED.(stage := Stopped)];
  }

  lemma LateSteps()
    ensures var w := Step(Step(CLEARED, Link(0, Replied)), Spawn(0)); Moves(w, 0) && w.current == None
  {
    var up := Loop(Connected, true, Some(false), None, false, true, 0);
    var w := Step(CLEARED, Link(0, Replied));
    assert w == World([up], None, [], [Launch(0, Connecting, None)], 0, Holds(false, false));
  }

  /**
   * A disconnect during start()'s policy reset finds no thread to join, yet the start goes on: it connects
   * live and moves the robot from a loop that no route reaches any more.
   */
  lemma DisconnectDuringStart()
    ensures var es := [Confirm, Begin(0), Disconnect(true, Replied), Release, Link(0, Replied), Spawn(0)];
      var w := Run(es);
      Moves(w, 0) && w.current == None && !EarnedSinceRelease(es, w.threads[0].owner)
  {
    var es := [Confirm, Begin(0), Disconnect(true, Replied), Release, Link(0, Replied), Spawn(0)];
    ConfirmAndBegin();
    DisconnectSteps();
    LateSteps();
    var w1, w2 := Step(RESETTING, Disconnect(true, Replied)), Step(CLEARED, Link(0, Replied));
    hide Step, Run;
    RunStep(es[..2], Disconnect(true, Replied), RESETTING, es[..3]);
    RunStep(es[..3], Release, w1, es[..4]);
    RunStep(es[..4], Link(0, Replied), CLEARED, es[..5]);
    RunStep(es[..5], Spawn(0), w2, es);
    EarnedSinceReleaseIff(es, 0);
  }

  const LEFT :=
    World([LOOP.(stage := Stopped)], None, [Thread(0, true)], [Launch(0, Spawned, Some(0))], 0, Holds(false, true))

  lemma LeaveSteps()
    ensures Step(Step(STARTED, Disconnect(false, Replied)), Release) == LEFT
  {
    assert [LOOP][0 := LOOP.(stage := Stopped)] == [LOOP.(stage := Stopped)];
  }

  /** A disconnect whose join timed out leaves a thread whose targets the node stores, though its servo is halted. */
  lemma TimedOutThreadStillSends()
    ensures var es := GO + [Disconnect(false, Replied), Release];
      var w := Run(es);
      Accepts(w, 0) && !Moves(w, 0) && !EarnedSinceRelease(es, w.threads[0].owner)
  {
    var es := GO + [Disconnect(false, Replied), Release];
    LeftBehind();
    hide Run;
    EarnedSinceReleaseIff(es, 0);
  }

  lemma LeftBehind()
    ensures Run(GO + [Disconnect(false, Replied), Release]) == LEFT
  {
    ConfirmAndStart();
    LeaveSteps();
    hide Step, Run;
    var a := GO + [Disconnect(false, Replied)];
    RunStep(GO, Disconnect(false, Replied), STARTED, a);
    RunStep(a, Release, Step(STARTED, Disconnect(false, Replied)), GO + [Disconnect(false, Replied), Release]);
  }

  lemma NextSteps()
    ensures var w := Step(Step(LEFT, Ensure), Connect(1, false, Replied));
      Moves(w, 0) && w.current == Some(1) && w.threads[0].owner == 0
  {
  }

  /** And moves the robot again as soon as the next session connects live, unconfirmed. */
  lemma OldThreadMovesNextSession()
    ensures var w := Run(GO + [Disconnect(false, Replied), Release, Ensure, Connect(1, false, Replied)]);
      Moves(w, 0) && w.current == Some(1) && w.threads[0].owner == 0
  {
    LeftBehind();
    NextSteps();
    hide Step, Run, Moves;
    var a := GO + [Disconnect(false, Replied), Release];
    var b := GO + [Disconnect(false, Replied), Release, Ensure];
    RunStep(a, Ensure, LEFT, b);
    RunStep(b, Connect(1, false, Replied), Step(LEFT, Ensure),
            GO + [Disconnect(false, Replied), Release, Ensure, Connect(1, false, Replied)]);
  }

  const ESTOPPED :=
    World([LOOP.(stage := Stopped)], Some(0), [Thread(0, false)], [Launch(0, Spawned, Some(0))], 0, Holds(false, true))

  lemma EstopSteps()
    ensures Step(STARTED, Estop(0, true, Replied)) == ESTOPPED
  {
    assert [LOOP][0 := LOOP.(stage := Stopped)] == [LOOP.(stage := Stopped)];
    assert [Thread(0, true)][0 := Thread(0, false)] == [Thread(0, false)];
  }

  lemma RestartSteps()
    ensures var w := Step(Step(Step(ESTOPPED, Begin(0)), Link(1, Replied)), Spawn(1)); Accepts(w, 1) && !Moves(w, 1)
  {
    var loop := LOOP.(stage := Stopped);
    var w := Step(ESTOPPED, Begin(0));
    assert w == ESTOPPED.(launches := [Launch(0, Spawned, Some(0)), Launch(0, Resetting, None)]);
    assert Step(w, Link(1, Replied)).node == Holds(false, true);
  }

  /** A start after an emergency stop skips the connect and runs against a halted servo: its targets move nothing. */
  lemma StartAfterEstopIsDead()
    ensures var w := Run(GO + [Estop(0, true, Replied), Begin(0), Link(1, Replied), Spawn(1)]);
      Accepts(w, 1) && !Moves(w, 1)
  {
    ConfirmAndStart();
    EstopSteps();
    RestartSteps();
    hide Step, Run, Moves, Accepts;
    var a, b := GO + [Estop(0, true, Replied)], GO + [Estop(0, true, Replied), Begin(0)];
    var c := GO + [Estop(0, true, Replied), Begin(0), Link(1, Replied)];
    RunStep(GO, Estop(0, true, Replied), STARTED, a);
    RunStep(a, Begin(0), ESTOPPED, b);
    RunStep(b, Link(1, Replied), Step(ESTOPPED, Begin(0)), c);
    RunStep(c, Spawn(1), Step(Step(ESTOPPED, Begin(0)), Link(1, Replied)),
            GO + [Estop(0, true, Replied), Begin(0), Link(1, Replied), Spawn(1)]);
  }

  lemma FailSteps()
    ensures var w := Step(Step(STARTED, Ends(0, true, Replied)), Announce(0));
      w.current == Some(0) && |w.loops| == 1 && w.loops[0].stage == Running && NoneAlive(w)
  {
  }

  /** A thread that fails before start() announces it leaves the loop showing RUNNING with no thread. */
  lemma RunningWithoutThread()
    ensures var w := Run(GO + [Ends(0, true, Replied), Announce(0)]);
      w.current == Some(0) && |w.loops| == 1 && w.loops[0].stage == Running && NoneAlive(w)
  {
    ConfirmAndStart();
    FailSteps();
    hide Step, Run, NoneAlive;
    var a := GO + [Ends(0, true, Replied)];
    RunStep(GO, Ends(0, true, Replied), STARTED, a);
    RunStep(a, Announce(0), Step(STARTED, Ends(0, true, Replied)), GO + [Ends(0, true, Replied), Announce(0)]);
  }
}
