/**
 * One _run as the policy server sees it: the scheduler issues the requests, the client numbers them, and the
 * pool of one worker thread sends the ones issued in the background.
 */
module SessionRun {
  import opened Outcomes
  import opened Scheduler
  import opened PolicyClient

  /**
   * Over every run after a reset, with one sequence field: the chunk being executed answers the request
   * numbered n_replans - 1, so chunks are consumed in the order 0, 1, 2, ... without a gap, and if a request
   * is outstanding it is number n_replans and the last one sent.
   */
  lemma ChunksFollowSequence(c: Config, len: nat, es: seq<Inputs>, fields: seq<Field>, ctxs: seq<Context>,
                             id: Json, s: nat)
    requires c.dt > 0.0 && Scheduler.Run(c, len, es).Ran? && |ctxs| == Scheduler.Run(c, len, es).loop.issued
    requires PrefixFree(fields) && s < |fields| && fields[s].source.Sequence? && Sequences(fields) == 1
    requires forall k | 0 <= k < |ctxs| :: AllResolve(fields, ctxs[k])
    ensures var loop, sent := Scheduler.Run(c, len, es).loop, Calls(fields, ctxs, id, 0);
      && |sent| == loop.issued && loop.source.id < |sent|
      && Carries(sent[loop.source.id], fields[s].path, loop.nReplans - 1)
      && (loop.pending.Some? ==> loop.pending.value.id == |sent| - 1)
      && (loop.pending.Some? ==> Carries(sent[|sent| - 1], fields[s].path, loop.nReplans))
      && (loop.pending.None? ==> loop.source.id == |sent| - 1)
  {
    RunKeepsBooks(c, len, es);
    CallsLength(fields, ctxs, id, 0);
    hide Scheduler.Run, PrefixFree, AllResolve, Sequences, Calls, Carries;
    var loop := Scheduler.Run(c, len, es).loop;
    SequenceNumbers(fields, ctxs, id, 0, s, loop.source.id);
    if loop.pending.Some? {
      SequenceNumbers(fields, ctxs, id, 0, s, loop.pending.value.id);
    }
  }

  // ------------------------------------------------------------ the pool, and its shutdown

  /** A prediction: waiting for the worker, in its hands, returned or raised, or cancelled before it was sent. */
  datatype Task = Queued | Active | Finished | Cancelled

  /**
   * Where the loop body is left: before it changed anything, in a predict on the control thread that raised after
   * it was sent, after the swap, after the firing.
   */
  datatype Place = Before | Raised | Swapped | Fired

  /** The control thread and the worker, one move each; tasks[i] is prediction i. */
  datatype Event = Tick(e: Inputs) | Leave(e: Inputs, at: Place) | Shutdown | Pick(i: nat) | Finish(i: nat)

  datatype Stage = Looping | Leaving | Ended

  /** raised: the last task is a predict of the control thread that raised, which the loop never counted. */
  datatype Session = Session(loop: Loop, tasks: seq<Task>, stage: Stage, raised: bool)

  /** The first prediction is made before the loop, on the control thread. */
  function Opening(len: nat): Session { Session(Start(len), [Finished], Looping, false) }

  /** The loop where an exception, or the stop event, leaves it. */
  function LeftAt(c: Config, s: Loop, e: Inputs, at: Place): Loop
    requires c.dt > 0.0
  {
    match at
    case Before => s
    case Raised => s
    case Swapped => Swap(c, s, e)
    case Fired => Fire(c, Swap(c, s, e), e)
  }

  function Put(tasks: seq<Task>, i: nat, t: Task): seq<Task> {
    if i < |tasks| then tasks[i := t] else tasks
  }

  /** A swap waits for the pending prediction, or makes one itself. */
  function TasksOfSwap(c: Config, s: Loop, tasks: seq<Task>): seq<Task> {
    if !Exhausted(c, s) then tasks
    else match s.pending
      case None => tasks + [Finished]
      case Some(f) => Put(tasks, f.id, Finished)
  }

  function TasksAt(c: Config, s: Loop, e: Inputs, at: Place, tasks: seq<Task>): seq<Task>
    requires c.dt > 0.0
  {
    if at == Before then tasks
    else if at == Raised then tasks + [Finished]
    else
      var swapped := TasksOfSwap(c, s, tasks);
      if at == Fired && LeftAt(c, s, e, Fired).issued > Swap(c, s, e).issued then swapped + [Queued] else swapped
  }

  /** The worker holds one task at a time and takes them in order. */
  predicate CanPick(tasks: seq<Task>, i: nat) {
    i < |tasks| && tasks[i] == Queued && Active !in tasks && Queued !in tasks[..i]
  }

  /** shutdown(wait=True, cancel_futures=True): what is queued is cancelled, what is running is waited for. */
  function Settle(t: Task): Task {
    match t
    case Queued => Cancelled
    case Active => Finished
    case _ => t
  }

  function Settled(tasks: seq<Task>): seq<Task> { seq(|tasks|, i requires 0 <= i < |tasks| => Settle(tasks[i])) }

  /** One move, if it is possible now. */
  function Move(c: Config, x: Session, ev: Event): Option<Session>
    requires c.dt > 0.0
  {
    match ev
    case Tick(e) =>
      if x.stage != Looping then None
      else (match Step(c, x.loop, e)
        case Ran(n, _) => Some(x.(loop := n, tasks := TasksAt(c, x.loop, e, Fired, x.tasks)))
        case Crashed => None)
    case Leave(e, at) =>
      if x.stage != Looping || (at == Raised && !CallsSync(c, x.loop)) then None
      else Some(Session(LeftAt(c, x.loop, e, at), TasksAt(c, x.loop, e, at, x.tasks), Leaving, at == Raised))
    case Shutdown =>
      if x.stage != Leaving then None else Some(x.(tasks := Settled(x.tasks), stage := Ended))
    case Pick(i) =>
      if CanPick(x.tasks, i) then Some(x.(tasks := Put(x.tasks, i, Active))) else None
    case Finish(i) =>
      if i < |x.tasks| && x.tasks[i] == Active then Some(x.(tasks := Put(x.tasks, i, Finished))) else None
  }

  function Play(c: Config, len: nat, evs: seq<Event>): Option<Session>
    requires c.dt > 0.0
  {
    if evs == [] then Some(Opening(len))
    else match Play(c, len, evs[..|evs| - 1])
      case None => None
      case Some(x) => Move(c, x, evs[|evs| - 1])
  }

  // ------------------------------------------------------------ what every interleaving keeps

  /** Every prediction but the pending one is finished; the pending one is not cancelled before the shutdown. */
  ghost predicate Kept(x: Session) {
    && Ledger(x.loop) && |x.tasks| == x.loop.issued + (if x.raised then 1 else 0)
    && (forall i | 0 <= i < x.loop.nReplans :: x.tasks[i] == Finished)
    && (x.loop.pending.Some? ==> Allowed(x.stage, x.tasks[x.loop.nReplans]))
    && (x.raised ==> x.loop.pending.None? && x.stage != Looping && x.tasks[x.loop.nReplans] == Finished)
  }

  ghost predicate Allowed(stage: Stage, t: Task) {
    if stage == Ended then t == Finished || t == Cancelled else t != Cancelled
  }

  lemma LeavingKeeps(c: Config, x: Session, e: Inputs, at: Place)
    requires c.dt > 0.0 && Kept(x) && x.stage == Looping && (at == Raised ==> CallsSync(c, x.loop))
    ensures Kept(Session(LeftAt(c, x.loop, e, at), TasksAt(c, x.loop, e, at, x.tasks), Leaving, at == Raised))
  {
    hide FirstRow, Skip, Horizon;
  }

  lemma MoveKeeps(c: Config, x: Session, ev: Event)
    requires c.dt > 0.0 && Kept(x) && Move(c, x, ev).Some?
    ensures Kept(Move(c, x, ev).value)
  {
    hide LeftAt, TasksAt;
    match ev
    case Tick(e) =>
      LeavingKeeps(c, x, e, Fired);
      TickIsFired(c, x.loop, e);
    case Leave(e, at) =>
      LeavingKeeps(c, x, e, at);
    case _ =>
  }

  lemma TickIsFired(c: Config, s: Loop, e: Inputs)
    requires c.dt > 0.0 && Step(c, s, e).Ran?
    ensures var n, f := Step(c, s, e).loop, LeftAt(c, s, e, Fired);
      n == f.(idx := n.idx, tick := n.tick)
  {
  }

  lemma {:induction false} PlayKeeps(c: Config, len: nat, evs: seq<Event>)
    requires c.dt > 0.0 && Play(c, len, evs).Some?
    ensures Kept(Play(c, len, evs).value)
  {
    if evs != [] {
      PlayKeeps(c, len, evs[..|evs| - 1]);
      hide Kept, Move;
      MoveKeeps(c, Play(c, len, evs[..|evs| - 1]).value, evs[|evs| - 1]);
    }
  }

  /** The inputs of the iterations that completed. */
  function Ticks(evs: seq<Event>): seq<Inputs> {
    if evs == [] then []
    else
      var init, ev := Ticks(evs[..|evs| - 1]), evs[|evs| - 1];
      if ev.Tick? then init + [ev.e] else init
  }

  /** Whatever the worker does in between, while looping the scheduler is where its completed iterations put it. */
  lemma {:induction false} PlayIsRun(c: Config, len: nat, evs: seq<Event>)
    requires c.dt > 0.0 && Play(c, len, evs).Some? && Play(c, len, evs).value.stage == Looping
    ensures Scheduler.Run(c, len, Ticks(evs)).Ran?
    ensures Scheduler.Run(c, len, Ticks(evs)).loop == Play(c, len, evs).value.loop
  {
    if evs != [] {
      var init, ev := evs[..|evs| - 1], evs[|evs| - 1];
      hide Step, TasksAt, Settled;
      PlayIsRun(c, len, init);
      if ev.Tick? {
        assert Ticks(evs)[..|Ticks(evs)| - 1] == Ticks(init);
      }
    }
  }

  /** The requests handed to the client: all but those still queued or cancelled. */
  function Sent(tasks: seq<Task>): nat {
    if tasks == [] then 0
    else
      var t := tasks[|tasks| - 1];
      Sent(tasks[..|tasks| - 1]) + (if t == Active || t == Finished then 1 else 0)
  }

  lemma {:induction false} AllSent(tasks: seq<Task>)
    requires forall i | 0 <= i < |tasks| :: tasks[i] == Finished
    ensures Sent(tasks) == |tasks|
  {
    if tasks != [] { AllSent(tasks[..|tasks| - 1]); }
  }

  /**
   * In every interleaving at most one prediction runs, none runs while the control thread makes its own, and
   * what was handed to the client is an initial part of what was issued.
   */
  lemma OnePredictionRuns(c: Config, len: nat, evs: seq<Event>)
    requires c.dt > 0.0 && Play(c, len, evs).Some?
    ensures var x := Play(c, len, evs).value;
      && (forall i, j | 0 <= i < |x.tasks| && 0 <= j < |x.tasks| && x.tasks[i] == x.tasks[j] == Active :: i == j)
      && (CallsSync(c, x.loop) ==> Active !in x.tasks && Queued !in x.tasks)
      && (forall i | 0 <= i < |x.tasks| :: (x.tasks[i] == Active || x.tasks[i] == Finished) <==> i < Sent(x.tasks))
  {
    PlayKeeps(c, len, evs);
    SentIsPrefix(Play(c, len, evs).value);
  }

  lemma SentIsPrefix(x: Session)
    requires Kept(x)
    ensures x.loop.nReplans <= Sent(x.tasks) <= |x.tasks| <= x.loop.nReplans + 1
    ensures forall i | 0 <= i < |x.tasks| :: (x.tasks[i] == Active || x.tasks[i] == Finished) <==> i < Sent(x.tasks)
  {
    var n := x.loop.nReplans;
    AllSent(x.tasks[..n]);
    if |x.tasks| > n {
      assert x.tasks[..|x.tasks| - 1] == x.tasks[..n];
    } else {
      assert x.tasks[..n] == x.tasks;
    }
  }

  lemma EndedSettled(x: Session)
    requires Kept(x) && x.stage == Ended
    ensures forall i | 0 <= i < |x.tasks| :: x.tasks[i] == if i < Sent(x.tasks) then Finished else Cancelled
  {
    SentIsPrefix(x);
    hide Sent;
  }

  /**
   * After the shutdown nothing is outstanding: each of the requests handed to the client has returned, there are
   * n_replans or n_replans + 1 of them, they carry the numbers 0, 1, 2, ... of the session, and at most one
   * prediction was issued beyond them, which was cancelled before it was numbered.
   */
  lemma NothingOutstanding(c: Config, len: nat, evs: seq<Event>, fields: seq<Field>, ctxs: seq<Context>,
                           id: Json, s: nat)
    requires c.dt > 0.0 && Play(c, len, evs).Some? && Play(c, len, evs).value.stage == Ended
    requires |ctxs| == Sent(Play(c, len, evs).value.tasks)
    requires PrefixFree(fields) && s < |fields| && fields[s].source.Sequence? && Sequences(fields) == 1
    requires forall k | 0 <= k < |ctxs| :: AllResolve(fields, ctxs[k])
    ensures var x, sent := Play(c, len, evs).value, Calls(fields, ctxs, id, 0);
      && |sent| == |ctxs| && x.loop.nReplans <= |sent| <= |x.tasks| <= x.loop.nReplans + 1
      && (forall i | 0 <= i < |x.tasks| :: x.tasks[i] == if i < |sent| then Finished else Cancelled)
      && (forall i | 0 <= i < |sent| :: Carries(sent[i], fields[s].path, i))
  {
    PlayKeeps(c, len, evs);
    SentIsPrefix(Play(c, len, evs).value);
    EndedSettled(Play(c, len, evs).value);
    CallsLength(fields, ctxs, id, 0);
    hide Kept, Play, PrefixFree, AllResolve, Sequences, Calls, Carries, Sent;
    forall i | 0 <= i < |ctxs| ensures Carries(Calls(fields, ctxs, id, 0)[i], fields[s].path, i) {
      SequenceNumbers(fields, ctxs, id, 0, s, i);
    }
  }

  /** The shutdown itself sends nothing: what was queued is cancelled, what was running had been sent. */
  lemma {:induction false} ShutdownSendsNothing(tasks: seq<Task>)
    ensures Sent(Settled(tasks)) == Sent(tasks)
    ensures forall i | 0 <= i < |tasks| ::
      Settled(tasks)[i] == Cancelled <==> tasks[i] == Queued || tasks[i] == Cancelled
  {
    if tasks != [] {
      var init := tasks[..|tasks| - 1];
      assert Settled(tasks)[..|tasks| - 1] == Settled(init);
      ShutdownSendsNothing(init);
    }
  }

  /** Firing ahead sends nothing yet: after an iteration that fires, what was sent is what was swapped in. */
  lemma FiringOnlyQueues(c: Config, len: nat, evs: seq<Event>, e: Inputs)
    requires c.dt > 0.0 && Play(c, len, evs).Some?
    requires var y := Move(c, Play(c, len, evs).value, Tick(e));
      y.Some? && y.value.loop.issued > Swap(c, Play(c, len, evs).value.loop, e).issued
    ensures var y := Move(c, Play(c, len, evs).value, Tick(e)).value;
      && y.loop.pending.Some? && |y.tasks| == y.loop.nReplans + 1
      && y.tasks[y.loop.nReplans] == Queued && Sent(y.tasks) == y.loop.nReplans
  {
    PlayKeeps(c, len, evs);
    var x := Play(c, len, evs).value;
    MoveKeeps(c, x, Tick(e));
    TickIsFired(c, x.loop, e);
    SentIsPrefix(Move(c, x, Tick(e)).value);
    hide Play, Sent;
  }

  /** A pool that was shut down was left before: by the stop event, or by an exception. */
  lemma {:induction false} EndsAfterLeaving(c: Config, len: nat, evs: seq<Event>)
    requires c.dt > 0.0 && Play(c, len, evs).Some? && Play(c, len, evs).value.stage != Looping
    ensures exists k | 0 <= k < |evs| :: evs[k].Leave?
  {
    hide Step, LeftAt, TasksAt, Settled, CanPick;
    var init := evs[..|evs| - 1];
    if Play(c, len, init).value.stage != Looping {
      EndsAfterLeaving(c, len, init);
      var k :| 0 <= k < |init| && init[k].Leave?;
      assert evs[k].Leave?;
    }
  }

  /** The worker takes the pending prediction, and taking it is sending it. */
  lemma PickSends(c: Config, len: nat, evs: seq<Event>, i: nat)
    requires c.dt > 0.0 && Play(c, len, evs).Some? && Move(c, Play(c, len, evs).value, Pick(i)).Some?
    ensures var x, y := Play(c, len, evs).value, Move(c, Play(c, len, evs).value, Pick(i)).value;
      && i == x.loop.nReplans && y.tasks[i] == Active && Sent(y.tasks) == Sent(x.tasks) + 1
      && y.tasks[..i] == x.tasks[..i]
  {
    PlayKeeps(c, len, evs);
    var x := Play(c, len, evs).value;
    hide Play;
    AllSent(x.tasks[..i]);
  }
}
