/** robot/gripper_runtime.py: the binary grasp/release automaton with hysteresis and minimum dwell. */
module Gripper {
  import opened Outcomes

  datatype Command = Grasp | Move

  datatype Params = Params(closeAt: real, openAt: real, minDwell: real)

  /** changedAt is None until the first transition: the source starts it at minus infinity. */
  datatype State = State(closed: bool, changedAt: Option<real>)

  const OPEN := State(false, None)

  predicate Dwelling(p: Params, s: State, now: real) { s.changedAt.Some? && now - s.changedAt.value < p.minDwell }

  function Decide(p: Params, s: State, trigger: real, now: real): Option<Command> {
    if Dwelling(p, s, now) then None
    else if !s.closed && trigger >= p.closeAt then Some(Grasp)
    else if s.closed && trigger <= p.openAt then Some(Move)
    else None
  }

  function Next(p: Params, s: State, trigger: real, now: real): State {
    match Decide(p, s, trigger, now)
    case None => s
    case Some(c) => State(c == Grasp, Some(now))
  }

  class GripperHysteresis {
    const p: Params
    var closed: bool
    var lastChange: Option<real>

    function Model(): State
      reads this
    {
      State(closed, lastChange)
    }

    constructor (params: Params)
      ensures p == params && Model() == OPEN
    {
      p := params;
      closed := false;
      lastChange := None;
    }

    /** The constructor's check: the band must not be empty. */
    static method Make(closeAt: real, openAt: real, minDwell: real) returns (r: Option<GripperHysteresis>)
      ensures r.None? <==> openAt >= closeAt
      ensures r.Some? ==> fresh(r.value) && r.value.p == Params(closeAt, openAt, minDwell) && r.value.Model() == OPEN
    {
      if !(openAt < closeAt) {
        return None;
      }
      var h := new GripperHysteresis(Params(closeAt, openAt, minDwell));
      r := Some(h);
    }

    method Decision(trigger: real, now: real) returns (c: Option<Command>)
      modifies this
      ensures c == Decide(p, old(Model()), trigger, now)
      ensures Model() == Next(p, old(Model()), trigger, now)
    {
      if lastChange.Some? && now - lastChange.value < p.minDwell {
        return None;
      }
      if !closed && trigger >= p.closeAt {
        closed := true;
        lastChange := Some(now);
        return Some(Grasp);
      }
      if closed && trigger <= p.openAt {
        closed := false;
        lastChange := Some(now);
        return Some(Move);
      }
      return None;
    }
  }

  // ------------------------------------------------------------ whole runs

  /** One poll: the trigger and the clock reading. The clock need not be monotone. */
  datatype Poll = Poll(trigger: real, now: real)

  datatype Issued = Issued(command: Command, poll: Poll)

  function After(p: Params, polls: seq<Poll>): State {
    if polls == [] then OPEN
    else var last := polls[|polls| - 1]; Next(p, After(p, polls[..|polls| - 1]), last.trigger, last.now)
  }

  /** The commands issued over the run, in order. */
  function Log(p: Params, polls: seq<Poll>): seq<Issued> {
    if polls == [] then []
    else
      var init, last := polls[..|polls| - 1], polls[|polls| - 1];
      match Decide(p, After(p, init), last.trigger, last.now)
      case None => Log(p, init)
      case Some(c) => Log(p, init) + [Issued(c, last)]
  }

  /** The state is the parity and the last time of the log. */
  lemma {:induction false} LogDetermines(p: Params, polls: seq<Poll>)
    ensures var log, s := Log(p, polls), After(p, polls);
      && s.closed == (|log| % 2 == 1)
      && s.changedAt == if log == [] then None else Some(log[|log| - 1].poll.now)
  {
    if polls != [] {
      LogDetermines(p, polls[..|polls| - 1]);
    }
  }

  /** Commands alternate, grasp first, each on the far side of its threshold. */
  lemma {:induction false} Alternates(p: Params, polls: seq<Poll>, k: nat)
    requires k < |Log(p, polls)|
    ensures var i := Log(p, polls)[k];
      if k % 2 == 0 then i.command == Grasp && i.poll.trigger >= p.closeAt
      else i.command == Move && i.poll.trigger <= p.openAt
  {
    if polls != [] {
      var init := polls[..|polls| - 1];
      LogDetermines(p, init);
      if k < |Log(p, init)| {
        Alternates(p, init, k);
      }
    }
  }

  lemma {:induction false} Consecutive(p: Params, polls: seq<Poll>, k: nat)
    requires k + 1 < |Log(p, polls)|
    ensures Log(p, polls)[k + 1].poll.now - Log(p, polls)[k].poll.now >= p.minDwell
  {
    var init := polls[..|polls| - 1];
    LogDetermines(p, init);
    if k + 1 < |Log(p, init)| {
      Consecutive(p, init, k);
    }
  }

  /** Any two commands are a dwell apart for every command between them, even if the clock runs backwards. */
  lemma {:induction false} DwellApart(p: Params, polls: seq<Poll>, i: nat, j: nat)
    requires i <= j < |Log(p, polls)|
    ensures Log(p, polls)[j].poll.now - Log(p, polls)[i].poll.now >= (j - i) as real * p.minDwell
    decreases j - i
  {
    if i < j {
      DwellApart(p, polls, i, j - 1);
      Consecutive(p, polls, j - 1);
      assert (j - i) as real * p.minDwell == (j - 1 - i) as real * p.minDwell + p.minDwell;
    }
  }

  /** While the trigger stays inside the band, nothing is issued, whatever happened before. */
  lemma {:induction false} BandHolds(p: Params, before: seq<Poll>, inside: seq<Poll>)
    requires forall i | 0 <= i < |inside| :: p.openAt < inside[i].trigger < p.closeAt
    ensures Log(p, before + inside) == Log(p, before) && After(p, before + inside) == After(p, before)
  {
    var all := before + inside;
    if inside == [] {
      assert all == before;
    } else {
      assert all[..|all| - 1] == before + inside[..|inside| - 1];
      BandHolds(p, before, inside[..|inside| - 1]);
    }
  }

  /** The command due at a poll after this log: the one whose turn it is, once its threshold and dwell allow. */
  function Due(p: Params, log: seq<Issued>, poll: Poll): Option<Command> {
    var rested := log == [] || poll.now - log[|log| - 1].poll.now >= p.minDwell;
    if rested && |log| % 2 == 0 && poll.trigger >= p.closeAt then Some(Grasp)
    else if rested && |log| % 2 == 1 && poll.trigger <= p.openAt then Some(Move)
    else None
  }

  /** Over any run, the next poll grasps or releases exactly when that is due, and otherwise issues nothing. */
  lemma NextCommandIff(p: Params, polls: seq<Poll>, poll: Poll)
    ensures var log := Log(p, polls);
      Log(p, polls + [poll]) == match Due(p, log, poll) case None => log case Some(c) => log + [Issued(c, poll)]
  {
    LogDetermines(p, polls);
    assert (polls + [poll])[..|polls|] == polls;
  }
}
