/**
 * The chunk scheduler of ControlLoop._run, one loop iteration a step.
 *
 * Clock readings, chunk lengths and whether the background prediction is done are inputs.  A step
 * also carries, for the record, which prediction a chunk came from and when its observation was made.
 */
module Scheduler {
  import opened Numeric
  import opened Outcomes
  import opened Pacing

  /** exec_horizon, lead_ticks and 1 / fps. */
  datatype Config = Config(horizon: int, lead: int, dt: real)

  /** A prediction: its number in issue order, the iteration and the time of its observation. */
  datatype Prediction = Prediction(id: nat, tick: nat, obs: real)

  datatype Loop = Loop(len: nat, source: Prediction, idx: int, pending: Option<Prediction>,
                       tObs: real, nReplans: nat, nLate: nat, issued: nat, tick: nat)

  /** What one iteration reads: the clock at the three places, the arriving chunk, the future's state. */
  datatype Inputs = Inputs(syncNow: real, swapNow: real, leadNow: real, len: nat, done: bool)

  /** A row was executed, or indexing the chunk raised. */
  datatype Outcome = Ran(loop: Loop, row: int) | Crashed

  function MinInt(a: int, b: int): int { if a <= b then a else b }

  function MaxInt(a: int, b: int): int { if a >= b then a else b }

  /** Python's round: half to even. */
  function Round(x: real): int {
    var f := x.Floor;
    var d := x - f as real;
    if d < 0.5 then f else if d > 0.5 then f + 1 else if f % 2 == 0 then f else f + 1
  }

  lemma RoundNear(x: real)
    ensures -0.5 <= Round(x) as real - x <= 0.5
  {
  }

  /** A tie goes to the even neighbour. */
  lemma RoundTie(k: int)
    ensures Round(k as real + 0.5) % 2 == 0 && k <= Round(k as real + 0.5) <= k + 1
  {
    var x := k as real + 0.5;
    assert x.Floor == k;
  }

  lemma RoundInt(k: int)
    ensures Round(k as real) == k
  {
  }

  function Horizon(c: Config, len: nat): int { MinInt(len, c.horizon) }

  function Start(len: nat): Loop {
    Loop(len, Prediction(0, 0, 0.0), 0, None, 0.0, 1, 0, 1, 0)
  }

  predicate Exhausted(c: Config, s: Loop) { s.idx >= Horizon(c, s.len) }

  /** Rows that went stale while the prediction was on its way. */
  function Skip(c: Config, elapsed: real): int
    requires c.dt > 0.0
  {
    Round(elapsed / c.dt)
  }

  function FirstRow(c: Config, len: nat, skip: int): int {
    MinInt(MaxInt(skip, 0), Horizon(c, len) - 1)
  }

  /** Chunk exhausted: swap in the next one and drop the rows that went stale. */
  function Swap(c: Config, s: Loop, e: Inputs): Loop
    requires c.dt > 0.0
  {
    if !Exhausted(c, s) then s
    else
      var s1 := match s.pending
        case None =>
          s.(tObs := e.syncNow, source := Prediction(s.issued, s.tick, e.syncNow), issued := s.issued + 1)
        case Some(f) =>
          s.(nLate := if e.done then s.nLate else s.nLate + 1, source := f, pending := None);
      s1.(len := e.len, nReplans := s1.nReplans + 1, idx := FirstRow(c, e.len, Skip(c, e.swapNow - s1.tObs)))
  }

  /** lead_ticks before the boundary: fire the next inference in the background. */
  function Fire(c: Config, s: Loop, e: Inputs): Loop {
    if s.pending.None? && c.lead > 0 && s.idx >= Horizon(c, s.len) - c.lead then
      s.(tObs := e.leadNow, pending := Some(Prediction(s.issued, s.tick, e.leadNow)), issued := s.issued + 1)
    else s
  }

  /** Python indexing: negative indices count from the end. */
  predicate Indexable(row: int, len: nat) { -(len as int) <= row < len }

  function Step(c: Config, s: Loop, e: Inputs): Outcome
    requires c.dt > 0.0
  {
    var s1 := Fire(c, Swap(c, s, e), e);
    if Indexable(s1.idx, s1.len) then Ran(s1.(idx := s1.idx + 1, tick := s1.tick + 1), s1.idx) else Crashed
  }

  function Run(c: Config, len: nat, es: seq<Inputs>): Outcome
    requires c.dt > 0.0
  {
    if es == [] then Ran(Start(len), -1)
    else match Run(c, len, es[..|es| - 1])
      case Crashed => Crashed
      case Ran(s, _) => Step(c, s, es[|es| - 1])
  }

  // ------------------------------------------------------------ the loop itself

  /** The variables of _run, and the phases of its loop body that update them. */
  class PolicyLoop {
    const c: Config
    var len: nat
    var source: Prediction
    var idx: int
    var pending: Option<Prediction>
    var tObs: real
    var nReplans: nat
    var nLate: nat
    var issued: nat
    var tick: nat

    ghost function Model(): Loop
      reads this
    {
      Loop(len, source, idx, pending, tObs, nReplans, nLate, issued, tick)
    }

    constructor (config: Config, firstLen: nat)
      ensures c == config && Model() == Start(firstLen)
    {
      c := config;
      len, idx, tick := firstLen, 0, 0;
      source, pending, tObs := Prediction(0, 0, 0.0), None, 0.0;
      nReplans, nLate, issued := 1, 0, 1;
    }

    method SwapIn(e: Inputs)
      requires c.dt > 0.0
      modifies this
      ensures Model() == Swap(c, old(Model()), e)
    {
      var horizon := MinInt(len, c.horizon);
      if idx >= horizon {
        if pending.None? {
          tObs := e.syncNow;
          source := Prediction(issued, tick, e.syncNow);
          issued := issued + 1;
        } else {
          if !e.done {
            nLate := nLate + 1;
          }
          source := pending.value;
          pending := None;
        }
        len := e.len;
        nReplans := nReplans + 1;
        horizon := MinInt(len, c.horizon);
        var skip := Skip(c, e.swapNow - tObs);
        idx := MinInt(MaxInt(skip, 0), horizon - 1);
      }
    }

    method FireAhead(e: Inputs)
      modifies this
      ensures Model() == Fire(c, old(Model()), e)
    {
      var horizon := MinInt(len, c.horizon);
      if pending.None? && c.lead > 0 && idx >= horizon - c.lead {
        tObs := e.leadNow;
        pending := Some(Prediction(issued, tick, e.leadNow));
        issued := issued + 1;
      }
    }

    /** One pass of the loop body; ok is false when indexing the chunk raises. */
    method Iterate(e: Inputs) returns (ok: bool, row: int)
      requires c.dt > 0.0
      modifies this
      ensures Step(c, old(Model()), e) == if ok then Ran(Model(), row) else Crashed
    {
      SwapIn(e);
      FireAhead(e);
      hide Swap, Fire;
      row := idx;
      ok := Indexable(row, len);
      if ok {
        idx := idx + 1;
        tick := tick + 1;
      }
    }

    /** The loop over its iterations; rows lists the rows it executed. */
    method RunLoop(es: seq<Inputs>) returns (ok: bool, rows: seq<int>)
      requires c.dt > 0.0 && Model() == Start(len)
      modifies this
      ensures ok ==> |rows| == |es| && Run(c, old(len), es) == Ran(Model(), if es == [] then -1 else rows[|es| - 1])
      ensures !ok ==> Run(c, old(len), es) == Crashed
    {
      ghost var firstLen := len;
      rows := [];
      RunBegins(c, firstLen, es);
      hide Run, Step;
      var k := 0;
      while k < |es|
        invariant 0 <= k <= |es| && |rows| == k
        invariant Run(c, firstLen, es[..k]) == Ran(Model(), if k == 0 then -1 else rows[k - 1])
      {
        RunContinues(c, firstLen, es, k);
        var row;
        ok, row := Iterate(es[k]);
        k := k + 1;
        if !ok {
          CrashIsFinal(c, firstLen, es, k);
          return;
        }
        rows := rows + [row];
      }
      RunEnds(c, firstLen, es);
      ok := true;
    }
  }

  lemma RunBegins(c: Config, len: nat, es: seq<Inputs>)
    requires c.dt > 0.0
    ensures Run(c, len, es[..0]) == Ran(Start(len), -1)
  {
  }

  lemma RunEnds(c: Config, len: nat, es: seq<Inputs>)
    requires c.dt > 0.0
    ensures Run(c, len, es[..|es|]) == Run(c, len, es)
  {
    assert es[..|es|] == es;
  }

  lemma RunContinues(c: Config, len: nat, es: seq<Inputs>, k: nat)
    requires c.dt > 0.0 && k < |es| && Run(c, len, es[..k]).Ran?
    ensures Run(c, len, es[..k + 1]) == Step(c, Run(c, len, es[..k]).loop, es[k])
  {
    assert es[..k + 1][..k] == es[..k];
  }

  lemma {:induction false} CrashIsFinal(c: Config, len: nat, es: seq<Inputs>, k: nat)
    requires c.dt > 0.0 && k <= |es| && Run(c, len, es[..k]) == Crashed
    ensures Run(c, len, es) == Crashed
  {
    if k == |es| {
      assert es[..k] == es;
    } else {
      var init := es[..|es| - 1];
      assert init[..k] == es[..k];
      CrashIsFinal(c, len, init, k);
    }
  }

  // ------------------------------------------------------------ what every iteration keeps

  /** Which predictions were consumed, and which one is in flight; this holds inside an iteration too. */
  ghost predicate Ledger(s: Loop) {
    && s.nReplans >= 1 && s.source.id + 1 == s.nReplans
    && s.issued == s.nReplans + (if s.pending.Some? then 1 else 0)
    && (s.pending.Some? ==> s.pending.value.id == s.nReplans)
  }

  ghost predicate Books(s: Loop) {
    && Ledger(s) && (s.pending.Some? ==> s.pending.value.obs == s.tObs)
    && s.nLate <= s.nReplans - 1
    && s.nReplans <= s.tick + 1
  }

  lemma StepKeepsBooks(c: Config, s: Loop, e: Inputs)
    requires c.dt > 0.0 && Books(s) && Step(c, s, e).Ran?
    ensures Books(Step(c, s, e).loop)
    ensures Step(c, s, e).loop.source.id == s.source.id + (if Exhausted(c, s) then 1 else 0)
  {
  }

  /**
   * Over every run: at most one prediction is in flight, every prediction but the one in flight was
   * consumed exactly once and in issue order, a late one is counted at most once per swap, and every
   * iteration runs a row, so swaps never outnumber rows.
   */
  lemma {:induction false} RunKeepsBooks(c: Config, len: nat, es: seq<Inputs>)
    requires c.dt > 0.0 && Run(c, len, es).Ran?
    ensures Books(Run(c, len, es).loop) && Run(c, len, es).loop.tick == |es|
  {
    if es != [] {
      RunKeepsBooks(c, len, es[..|es| - 1]);
      StepKeepsBooks(c, Run(c, len, es[..|es| - 1]).loop, es[|es| - 1]);
    }
  }

  /** Iteration k swaps in a chunk. */
  predicate SwapsAt(c: Config, len: nat, es: seq<Inputs>, k: nat)
    requires c.dt > 0.0
  {
    k < |es| && Run(c, len, es[..k]).Ran? && Exhausted(c, Run(c, len, es[..k]).loop)
  }

  /** And it is a prediction made in the background that is not done when it is needed. */
  predicate SwapsLate(c: Config, len: nat, es: seq<Inputs>, k: nat)
    requires c.dt > 0.0
  {
    SwapsAt(c, len, es, k) && Run(c, len, es[..k]).loop.pending.Some? && !es[k].done
  }

  function Swaps(c: Config, len: nat, es: seq<Inputs>): set<nat>
    requires c.dt > 0.0
  {
    set k: nat | k < |es| && SwapsAt(c, len, es, k)
  }

  function LateSwaps(c: Config, len: nat, es: seq<Inputs>): set<nat>
    requires c.dt > 0.0
  {
    set k: nat | k < |es| && SwapsLate(c, len, es, k)
  }

  lemma SwapsInit(c: Config, len: nat, es: seq<Inputs>)
    requires c.dt > 0.0 && es != []
    ensures var n, init := |es| - 1, es[..|es| - 1];
      && Swaps(c, len, es) == (if SwapsAt(c, len, es, n) then Swaps(c, len, init) + {n} else Swaps(c, len, init))
      && LateSwaps(c, len, es) ==
        (if SwapsLate(c, len, es, n) then LateSwaps(c, len, init) + {n} else LateSwaps(c, len, init))
      && n !in Swaps(c, len, init) && n !in LateSwaps(c, len, init)
  {
    var n, init := |es| - 1, es[..|es| - 1];
    forall k: nat | k < n
      ensures SwapsAt(c, len, init, k) == SwapsAt(c, len, es, k)
      ensures SwapsLate(c, len, init, k) == SwapsLate(c, len, es, k)
    {
      assert init[..k] == es[..k];
    }
    hide SwapsAt, SwapsLate;
  }

  /** Over every run n_replans counts the swaps and the first chunk, and n_late the swaps that had to wait. */
  lemma {:induction false} CountersCount(c: Config, len: nat, es: seq<Inputs>)
    requires c.dt > 0.0 && Run(c, len, es).Ran?
    ensures var s := Run(c, len, es).loop;
      s.nReplans == 1 + |Swaps(c, len, es)| && s.nLate == |LateSwaps(c, len, es)|
  {
    if es == [] {
      assert Swaps(c, len, es) == {} && LateSwaps(c, len, es) == {};
    } else {
      var n, init := |es| - 1, es[..|es| - 1];
      CountersCount(c, len, init);
      SwapsInit(c, len, es);
      StepCounts(c, Run(c, len, init).loop, es[n]);
      hide Swaps, LateSwaps, Step;
    }
  }

  lemma StepCounts(c: Config, s: Loop, e: Inputs)
    requires c.dt > 0.0 && Step(c, s, e).Ran?
    ensures var r := Step(c, s, e).loop;
      && r.nReplans == s.nReplans + (if Exhausted(c, s) then 1 else 0)
      && r.nLate == s.nLate + (if Exhausted(c, s) && s.pending.Some? && !e.done then 1 else 0)
  {
  }

  // ------------------------------------------------------------ rows and crashes, for every configuration

  /** The shortest chunk that a swap can index; a horizon below one runs chunks from their end. */
  function Need(c: Config): int { if c.horizon >= 1 then 1 else 1 - c.horizon }

  /** Never below the row a swap starts with. */
  predicate Placed(c: Config, s: Loop) { s.idx >= MinInt(0, c.horizon) }

  lemma StepCrashesIff(c: Config, s: Loop, e: Inputs)
    requires c.dt > 0.0 && Placed(c, s)
    ensures Step(c, s, e) == Crashed <==> Exhausted(c, s) && e.len < Need(c)
    ensures Step(c, s, e).Ran? ==> Placed(c, Step(c, s, e).loop)
    ensures Step(c, s, e).Ran? && c.horizon >= 1 ==> 0 <= Step(c, s, e).row < Horizon(c, Step(c, s, e).loop.len)
    ensures Step(c, s, e).Ran? && c.horizon <= 0 ==> Step(c, s, e).row == c.horizon - 1
  {
  }

  /** Iteration k swaps in a chunk too short to index. */
  predicate SwapsShort(c: Config, len: nat, es: seq<Inputs>, k: nat)
    requires c.dt > 0.0
  {
    k < |es| && Run(c, len, es[..k]).Ran? && Exhausted(c, Run(c, len, es[..k]).loop) && es[k].len < Need(c)
  }

  lemma {:induction false} RunPlaced(c: Config, len: nat, es: seq<Inputs>)
    requires c.dt > 0.0 && Run(c, len, es).Ran?
    ensures Placed(c, Run(c, len, es).loop)
  {
    if es != [] {
      hide Step;
      RunPlaced(c, len, es[..|es| - 1]);
      StepCrashesIff(c, Run(c, len, es[..|es| - 1]).loop, es[|es| - 1]);
    }
  }

  /**
   * A run raises on a row exactly when some iteration swaps in a chunk too short, for exec_horizon >= 1 an empty
   * one.
   */
  lemma {:induction false} CrashesIff(c: Config, len: nat, es: seq<Inputs>)
    requires c.dt > 0.0
    ensures Run(c, len, es) == Crashed <==> exists k: nat :: SwapsShort(c, len, es, k)
  {
    hide Step, Exhausted;
    if es != [] {
      var init, e := es[..|es| - 1], es[|es| - 1];
      CrashesIff(c, len, init);
      forall k: nat | k < |init| ensures SwapsShort(c, len, es, k) == SwapsShort(c, len, init, k) {
        assert es[..k] == init[..k];
      }
      assert es[..|init|] == init;
      if Run(c, len, init).Ran? {
        RunPlaced(c, len, init);
        StepCrashesIff(c, Run(c, len, init).loop, e);
        if Run(c, len, es) == Crashed { assert SwapsShort(c, len, es, |init|); }
      } else {
        var k: nat :| SwapsShort(c, len, init, k);
        assert SwapsShort(c, len, es, k);
      }
    }
  }

  /** With exec_horizon below one every iteration swaps, and runs a row counted from the end of the new chunk. */
  lemma NonpositiveHorizon(c: Config, len: nat, es: seq<Inputs>)
    requires c.dt > 0.0 && c.horizon <= 0 && es != [] && Run(c, len, es).Ran?
    ensures Run(c, len, es).row == c.horizon - 1 < 0 && Run(c, len, es).loop.nReplans == |es| + 1
  {
    var init, e := es[..|es| - 1], es[|es| - 1];
    RunPlaced(c, len, init);
    StepCrashesIff(c, Run(c, len, init).loop, e);
    hide FirstRow, Fire, Skip;
    if init != [] {
      NonpositiveHorizon(c, len, init);
    }
    AlwaysExhausted(c, len, init);
  }

  lemma AlwaysExhausted(c: Config, len: nat, es: seq<Inputs>)
    requires c.dt > 0.0 && c.horizon <= 0 && Run(c, len, es).Ran?
    ensures Exhausted(c, Run(c, len, es).loop)
  {
    RunPlaced(c, len, es);
  }

  ghost predicate RowsAlwaysInRange(c: Config)
    requires c.dt > 0.0
  {
    forall len: nat, es: seq<Inputs> | es != [] && Run(c, len, es).Ran? ::
      0 <= Run(c, len, es).row < Horizon(c, Run(c, len, es).loop.len)
  }

  /** Every row executed lies in the executed part of its chunk, on every run, exactly when exec_horizon >= 1. */
  lemma RowsInRangeIff(c: Config)
    requires c.dt > 0.0
    ensures RowsAlwaysInRange(c) <==> c.horizon >= 1
  {
    if c.horizon >= 1 {
      forall len: nat, es: seq<Inputs> | es != [] && Run(c, len, es).Ran?
        ensures 0 <= Run(c, len, es).row < Horizon(c, Run(c, len, es).loop.len)
      {
        RunPlaced(c, len, es[..|es| - 1]);
        StepCrashesIff(c, Run(c, len, es[..|es| - 1]).loop, es[|es| - 1]);
        hide Step;
      }
    } else {
      var e := Inputs(0.0, 0.0, 0.0, Need(c), true);
      assert Run(c, 1, [e]) == Step(c, Start(1), e) by { assert [e][..0] == []; }
      StepCrashesIff(c, Start(1), e);
      hide Step;
    }
  }

  ghost predicate NonemptyChunks(len: nat, es: seq<Inputs>) {
    len >= 1 && forall i | 0 <= i < |es| :: es[i].len >= 1
  }

  ghost predicate InChunk(c: Config, s: Loop) { s.len >= 1 && 0 <= s.idx <= Horizon(c, s.len) }

  lemma StepInChunk(c: Config, s: Loop, e: Inputs)
    requires c.dt > 0.0 && c.horizon >= 1 && InChunk(c, s) && e.len >= 1
    ensures var o := Step(c, s, e);
            o.Ran? && InChunk(c, o.loop) && 0 <= o.row < Horizon(c, o.loop.len) && o.loop.idx == o.row + 1
  {
  }

  lemma {:induction false} NonemptyRuns(c: Config, len: nat, es: seq<Inputs>)
    requires c.dt > 0.0 && c.horizon >= 1 && NonemptyChunks(len, es)
    ensures var o := Run(c, len, es); o.Ran? && InChunk(c, o.loop)
  {
    if es != [] {
      NonemptyRuns(c, len, es[..|es| - 1]);
      StepInChunk(c, Run(c, len, es[..|es| - 1]).loop, es[|es| - 1]);
    }
  }

  // ------------------------------------------------------------ the synchronous predict

  /** The iteration calls predict on the control thread. */
  predicate CallsSync(c: Config, s: Loop) { Exhausted(c, s) && s.pending.None? }

  /** The row just run was so near the end of its chunk that the next prediction is on its way. */
  ghost predicate Covered(c: Config, s: Loop) {
    s.idx - 1 >= Horizon(c, s.len) - c.lead ==> s.pending.Some?
  }

  lemma StepCovers(c: Config, s: Loop, e: Inputs)
    requires c.dt > 0.0 && c.lead >= 1 && Step(c, s, e).Ran?
    ensures Covered(c, Step(c, s, e).loop)
  {
    hide Swap, Horizon;
  }

  /** Without lead_ticks nothing is ever issued in the background: every swap is synchronous. */
  lemma {:induction false} AlwaysSync(c: Config, len: nat, es: seq<Inputs>)
    requires c.dt > 0.0 && c.lead <= 0 && Run(c, len, es).Ran?
    ensures Run(c, len, es).loop.pending.None?
    ensures CallsSync(c, Run(c, len, es).loop) == Exhausted(c, Run(c, len, es).loop)
  {
    if es != [] {
      AlwaysSync(c, len, es[..|es| - 1]);
    }
  }

  /**
   * For every configuration, chunk lengths and run: where the chunk is exhausted predict is called on the control
   * thread exactly when there are no lead ticks or this is the first iteration.
   */
  lemma SyncCallsIff(c: Config, len: nat, es: seq<Inputs>)
    requires c.dt > 0.0 && Run(c, len, es).Ran?
    ensures CallsSync(c, Run(c, len, es).loop) <==> Exhausted(c, Run(c, len, es).loop) && (c.lead <= 0 || es == [])
  {
    if c.lead <= 0 {
      AlwaysSync(c, len, es);
    } else if es != [] {
      StepCovers(c, Run(c, len, es[..|es| - 1]).loop, es[|es| - 1]);
      hide Step;
    }
  }

  /** With lead_ticks >= 1 the control thread never waits for a prediction it had not already issued. */
  lemma NeverSync(c: Config, len: nat, es: seq<Inputs>)
    requires c.dt > 0.0 && c.horizon >= 1 && c.lead >= 1 && NonemptyChunks(len, es)
    ensures Run(c, len, es).Ran? && !CallsSync(c, Run(c, len, es).loop)
  {
    NonemptyRuns(c, len, es);
    SyncCallsIff(c, len, es);
    hide Step;
  }

  /** Some run over nonempty chunks calls predict on the control thread. */
  ghost predicate SyncReachable(c: Config)
    requires c.dt > 0.0
  {
    exists len: nat, es: seq<Inputs> ::
      NonemptyChunks(len, es) && Run(c, len, es).Ran? && CallsSync(c, Run(c, len, es).loop)
  }

  /** Exactly the configurations without lead ticks, or with exec_horizon below one, do so. */
  lemma SyncReachableIff(c: Config)
    requires c.dt > 0.0
    ensures SyncReachable(c) <==> c.lead <= 0 || c.horizon <= 0
  {
    if c.horizon <= 0 {
      assert Run(c, 1, []) == Ran(Start(1), -1) && CallsSync(c, Start(1)) && NonemptyChunks(1, []);
    } else if c.lead <= 0 {
      var e := Inputs(0.0, 0.0, 0.0, 1, true);
      assert Run(c, 1, [e]) == Step(c, Start(1), e) by { assert [e][..0] == []; }
      AlwaysSync(c, 1, [e]);
      assert NonemptyChunks(1, [e]) && Exhausted(c, Run(c, 1, [e]).loop);
    } else if SyncReachable(c) {
      var len: nat, es: seq<Inputs> :|
        NonemptyChunks(len, es) && Run(c, len, es).Ran? && CallsSync(c, Run(c, len, es).loop);
      NeverSync(c, len, es);
      assert false;
    }
  }

  // ------------------------------------------------------------ alignment at a swap

  /** The clock readings of an iteration come in program order, after the pending observation. */
  ghost predicate InOrder(s: Loop, e: Inputs) {
    && e.syncNow <= e.swapNow
    && (s.pending.Some? ==> s.pending.value.obs <= e.swapNow)
  }

  /**
   * At a swap, t_obs is the observation time of exactly the chunk swapped in, and the row started
   * with is the one nominally due: nearest to the elapsed time, unless the chunk is already over.
   */
  lemma SwapAligns(c: Config, s: Loop, e: Inputs)
    requires c.dt > 0.0 && c.horizon >= 1 && Books(s) && Exhausted(c, s) && e.len >= 1 && InOrder(s, e)
    ensures var n := Swap(c, s, e);
            && n.tObs == n.source.obs
            && n.source == (match s.pending case Some(f) => f case None => Prediction(s.issued, s.tick, e.syncNow))
            && 0 <= n.idx < Horizon(c, n.len)
            && (var late := Late(c, e.swapNow - n.source.obs, n.idx);
                -c.dt / 2.0 <= late && (late <= c.dt / 2.0 || n.idx == Horizon(c, n.len) - 1))
  {
    var n := Swap(c, s, e);
    SkipNear(c, e.swapNow - n.tObs);
    hide Skip, Late;
    NearRow(c, Skip(c, e.swapNow - n.tObs), n.idx, e.swapNow - n.tObs, Horizon(c, e.len) - 1);
  }

  /** How long after its nominal time a row runs. */
  function Late(c: Config, elapsed: real, row: int): real { elapsed - row as real * c.dt }

  lemma SkipNear(c: Config, elapsed: real)
    requires c.dt > 0.0
    ensures -c.dt / 2.0 <= Late(c, elapsed, Skip(c, elapsed)) <= c.dt / 2.0
  {
    var x := elapsed / c.dt;
    RoundNear(x);
    assert x * c.dt == elapsed;
    HalfPeriod(Round(x) as real, x, c.dt, elapsed);
  }

  lemma HalfPeriod(k: real, x: real, dt: real, elapsed: real)
    requires dt > 0.0 && x * dt == elapsed && -0.5 <= k - x <= 0.5
    ensures -dt / 2.0 <= elapsed - k * dt <= dt / 2.0
  {
    MulNonneg(0.5 - (x - k), dt);
    MulNonneg(0.5 - (k - x), dt);
  }

  lemma NearRow(c: Config, skip: int, row: int, elapsed: real, last: int)
    requires c.dt > 0.0 && elapsed >= 0.0 && last >= 0 && row == MinInt(MaxInt(skip, 0), last)
    requires -c.dt / 2.0 <= Late(c, elapsed, skip) <= c.dt / 2.0
    ensures -c.dt / 2.0 <= Late(c, elapsed, row) && (Late(c, elapsed, row) <= c.dt / 2.0 || row == last)
  {
    if row == 0 && skip <= 0 {
      ScaleGap(skip as real, 0.0, c.dt);
    } else if row == last {
      ScaleGap(last as real, skip as real, c.dt);
    }
  }

  lemma ScaleGap(g: real, m: real, dt: real)
    requires g <= m && dt > 0.0
    ensures g * dt <= m * dt
  {
  }

  // ------------------------------------------------------------ alignment under exact pacing

  /** Iteration k reads the clock at exactly t0 + k * dt everywhere. */
  ghost predicate ExactClock(c: Config, t0: real, es: seq<Inputs>) {
    forall k | 0 <= k < |es| ::
      es[k].syncNow == es[k].swapNow == es[k].leadNow == t0 + Periods(c.dt, k)
  }

  /** lead_ticks is smaller than the executed part of every chunk. */
  ghost predicate LeadFits(c: Config, len: nat, es: seq<Inputs>) {
    1 <= c.lead < Horizon(c, len) && forall k | 0 <= k < |es| :: c.lead < Horizon(c, es[k].len)
  }

  ghost predicate OnTime(c: Config, t0: real, s: Loop) {
    && c.lead < Horizon(c, s.len) && 0 <= s.idx <= Horizon(c, s.len)
    && (s.idx >= Horizon(c, s.len) ==> s.pending.Some?)
    && (s.nReplans >= 2 ==> s.idx == s.tick - s.source.tick)
    && (s.pending.Some? ==>
          var f := s.pending.value;
          && f.obs == s.tObs == t0 + Periods(c.dt, f.tick)
          && 1 <= s.tick - f.tick <= s.idx - (Horizon(c, s.len) - c.lead))
  }

  lemma ExactSkip(c: Config, now: int, past: int)
    requires c.dt > 0.0
    ensures Skip(c, Periods(c.dt, now) - Periods(c.dt, past)) == now - past
  {
    var k := now - past;
    assert Periods(c.dt, now) - Periods(c.dt, past) == k as real * c.dt;
    assert (k as real * c.dt) / c.dt == k as real;
    RoundInt(k);
  }

  lemma StepOnTime(c: Config, t0: real, s: Loop, e: Inputs)
    requires c.dt > 0.0 && c.lead >= 1 && OnTime(c, t0, s) && c.lead < Horizon(c, e.len)
    requires e.syncNow == e.swapNow == e.leadNow == t0 + Periods(c.dt, s.tick)
    ensures var o := Step(c, s, e);
            && o.Ran? && OnTime(c, t0, o.loop) && o.loop.tick == s.tick + 1
            && (o.loop.nReplans >= 2 ==> o.row == s.tick - o.loop.source.tick)
  {
    hide Skip, Periods;
    if Exhausted(c, s) {
      ExactSkip(c, s.tick, s.pending.value.tick);
    }
  }

  /**
   * Under exact pacing, from the first swap on, the row executed in iteration k is the k-th after the
   * iteration that made the observation: no row is repeated, skipped or shifted by a replan.
   */
  lemma {:induction false} ExactAlignment(c: Config, t0: real, len: nat, es: seq<Inputs>)
    requires c.dt > 0.0 && LeadFits(c, len, es) && ExactClock(c, t0, es)
    ensures var o := Run(c, len, es);
            && o.Ran? && OnTime(c, t0, o.loop) && o.loop.tick == |es|
            && (es != [] && o.loop.nReplans >= 2 ==> o.row == |es| - 1 - o.loop.source.tick)
  {
    if es != [] {
      var init := es[..|es| - 1];
      hide Periods, Step;
      ExactAlignment(c, t0, len, init);
      StepOnTime(c, t0, Run(c, len, init).loop, es[|es| - 1]);
    }
  }
}
