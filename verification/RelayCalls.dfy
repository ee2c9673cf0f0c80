/**
 The pool of calls back to the relay: how many may be on at a time, how many
 more may queue, and that each is counted down once, though several things
 can end it. What a call carries is in RelaySplice.
 */
module RelayCalls {

  const MAXIMUM_IN_FLIGHT := 4
  const MAXIMUM_WAITING := 32

  // ------------------------------------------------------------------- Once

  /** A body that is dropped when it runs; `runs` counts its runs. */
  class Once {
    var hasBody: bool
    ghost var runs: nat

    ghost predicate Valid()
      reads this
    {
      runs == if hasBody then 0 else 1
    }

    constructor ()
      ensures Valid() && hasBody
    {
      hasBody, runs := true, 0;
    }

    /** True for the call that ran it. */
    method Run() returns (ran: bool)
      requires Valid()
      modifies this
      ensures Valid() && !hasBody && ran == old(hasBody) && runs == 1
    {
      ran := hasBody;
      hasBody := false;
      if ran {
        runs := runs + 1;
      }
    }
  }

  // --------------------------------------------------------------- The calls

  /** A call being set up, and whether it ended and has yet to be counted so:
      that is done on another queue. */
  datatype Call = SettingUp | Over

  /** Calls by the order they were started in, the timers set and not fired
      that end a call whatever became of it, requests waiting, how many were
      started and how many were counted as ended. */
  datatype Pool = Pool(
    calls: map<nat, Call>, timers: set<nat>, inFlight: nat, waiting: seq<nat>, started: nat, ended: nat)

  /** What decides whether a request taken up becomes a call: it is not older
      than its ticket, the listener is up, it can be signed. */
  type Usable = nat -> bool

  function Launched(p: Pool): Pool
  {
    p.(calls := p.calls[p.started := SettingUp], timers := p.timers + {p.started},
       inFlight := p.inFlight + 1, started := p.started + 1)
  }

  function StartWaiting(p: Pool, usable: Usable): (r: Pool)
    decreases |p.waiting|
  {
    if p.inFlight >= MAXIMUM_IN_FLIGHT || p.waiting == [] then p
    else
      var next := p.(waiting := p.waiting[1..]);
      StartWaiting(if usable(p.waiting[0]) then Launched(next) else next, usable)
  }

  datatype Step =
    | Incoming(ticket: nat, usable: Usable)
    | Ends(call: nat)
    | TimerFires(call: nat)
    | Counted(call: nat, usable: Usable)

  /** Anything may end a call, again and again: the relay, the splice, its
      timer, which fires once. It is counted once it is over. */
  predicate Enabled(p: Pool, step: Step)
  {
    match step
    case Incoming(_, _) => true
    case Ends(_) => true
    case TimerFires(call) => call in p.timers
    case Counted(call, _) => call in p.calls && p.calls[call].Over?
  }

  function Finished(p: Pool, call: nat): Pool
  {
    if call in p.calls && p.calls[call].SettingUp? then p.(calls := p.calls[call := Over]) else p
  }

  function Uncounted(p: Pool, call: nat): Pool
  {
    p.(calls := p.calls - {call}, inFlight := if p.inFlight > 0 then p.inFlight - 1 else 0, ended := p.ended + 1)
  }

  function Next(p: Pool, step: Step): Pool
    requires Enabled(p, step)
  {
    match step
    case Incoming(ticket, usable) =>
      if |p.waiting| >= MAXIMUM_WAITING then p else StartWaiting(p.(waiting := p.waiting + [ticket]), usable)
    case Ends(call) => Finished(p, call)
    case TimerFires(call) => Finished(p.(timers := p.timers - {call}), call)
    case Counted(call, usable) => StartWaiting(Uncounted(p, call), usable)
  }

  class CallPool {
    var calls: map<nat, Call>
    var timers: set<nat>
    var callbacksInFlight: nat
    var waitingCallbacks: seq<nat>
    var started: nat
    var ended: nat

    ghost function Value(): Pool
      reads this
    {
      Pool(calls, timers, callbacksInFlight, waitingCallbacks, started, ended)
    }

    constructor ()
      ensures Value() == Pool(map[], {}, 0, [], 0, 0)
    {
      calls, timers, callbacksInFlight, waitingCallbacks, started, ended := map[], {}, 0, [], 0, 0;
    }

    method StartCallBack()
      modifies this
      ensures Value() == Launched(old(Value()))
    {
      calls := calls[started := SettingUp];
      timers := timers + {started};
      callbacksInFlight := callbacksInFlight + 1;
      started := started + 1;
    }

    method StartWaitingCallbacks(usable: Usable)
      modifies this
      ensures Value() == StartWaiting(old(Value()), usable)
    {
      while callbacksInFlight < MAXIMUM_IN_FLIGHT && waitingCallbacks != []
        invariant StartWaiting(Value(), usable) == StartWaiting(old(Value()), usable)
        decreases |waitingCallbacks|
      {
        var next := waitingCallbacks[0];
        waitingCallbacks := waitingCallbacks[1..];
        if !usable(next) {
          continue;
        }
        StartCallBack();
      }
    }

    method CallBack(ticket: nat, usable: Usable)
      modifies this
      ensures Value() == Next(old(Value()), Incoming(ticket, usable))
    {
      if |waitingCallbacks| >= MAXIMUM_WAITING {
        return;
      }
      waitingCallbacks := waitingCallbacks + [ticket];
      StartWaitingCallbacks(usable);
    }

    /** The first to end a call is told so. */
    method End(call: nat) returns (first: bool)
      modifies this`calls
      ensures Value() == Next(old(Value()), Ends(call))
      ensures first <==> call in old(calls) && old(calls)[call].SettingUp?
    {
      first := call in calls && calls[call].SettingUp?;
      if first {
        calls := calls[call := Over];
      }
    }

    /** The call's time is up: over, if it was not. */
    method TimerFired(call: nat)
      requires call in timers
      modifies this`timers, this`calls
      ensures Value() == Next(old(Value()), TimerFires(call))
    {
      timers := timers - {call};
      var _ := End(call);
    }

    method CountEnded(call: nat, usable: Usable)
      requires call in calls && calls[call].Over? && callbacksInFlight > 0
      modifies this
      ensures Value() == Next(old(Value()), Counted(call, usable))
    {
      calls := calls - {call};
      callbacksInFlight := callbacksInFlight - 1;
      ended := ended + 1;
      StartWaitingCallbacks(usable);
    }
  }

  /** In flight are the calls started and not counted as ended, at most so
      many; and nothing waits while one more could start. */
  ghost predicate Good(p: Pool)
  {
    && p.inFlight == |p.calls| && p.inFlight + p.ended == p.started
    && p.inFlight <= MAXIMUM_IN_FLIGHT && |p.waiting| <= MAXIMUM_WAITING
    && (p.waiting != [] ==> p.inFlight == MAXIMUM_IN_FLIGHT)
    && (forall c :: c in p.calls ==> c < p.started)
    && (forall c :: c in p.calls && p.calls[c].SettingUp? ==> c in p.timers)
  }

  lemma {:induction false} StartWaitingIsGood(p: Pool, usable: Usable)
    requires p.inFlight == |p.calls| && p.inFlight + p.ended == p.started && p.inFlight <= MAXIMUM_IN_FLIGHT
    requires |p.waiting| <= MAXIMUM_WAITING && forall c :: c in p.calls ==> c < p.started
    requires forall c :: c in p.calls && p.calls[c].SettingUp? ==> c in p.timers
    ensures Good(StartWaiting(p, usable)) && StartWaiting(p, usable).ended == p.ended
    ensures forall c :: c in p.calls ==>
              c in StartWaiting(p, usable).calls && StartWaiting(p, usable).calls[c] == p.calls[c]
    decreases |p.waiting|
  {
    if p.inFlight < MAXIMUM_IN_FLIGHT && p.waiting != [] {
      var next := p.(waiting := p.waiting[1..]);
      if usable(p.waiting[0]) {
        assert Launched(next).calls.Keys == p.calls.Keys + {p.started};
        assert |Launched(next).calls.Keys| == |p.calls.Keys| + 1;
        StartWaitingIsGood(Launched(next), usable);
      } else {
        StartWaitingIsGood(next, usable);
      }
    }
  }

  lemma FinishedIsGood(p: Pool, call: nat)
    requires Good(p)
    ensures Good(Finished(p, call)) && Good(Finished(p.(timers := p.timers - {call}), call))
  {
    if call in p.calls {
      assert p.calls[call := Over].Keys == p.calls.Keys;
      assert |p.calls[call := Over].Keys| == |p.calls.Keys|;
    }
  }

  lemma CountedIsGood(p: Pool, call: nat, usable: Usable)
    requires Good(p) && call in p.calls
    ensures Good(StartWaiting(Uncounted(p, call), usable))
  {
    var calls := p.calls - {call};
    assert calls.Keys == p.calls.Keys - {call};
    assert |calls.Keys| == |p.calls.Keys| - 1;
    StartWaitingIsGood(Uncounted(p, call), usable);
  }

  lemma StepIsGood(p: Pool, step: Step)
    requires Good(p) && Enabled(p, step)
    ensures Good(Next(p, step))
  {
    match step {
      case Incoming(ticket, usable) =>
        if |p.waiting| < MAXIMUM_WAITING {
          StartWaitingIsGood(p.(waiting := p.waiting + [ticket]), usable);
        }
      case Ends(call) => FinishedIsGood(p, call);
      case TimerFires(call) => FinishedIsGood(p, call);
      case Counted(call, usable) => CountedIsGood(p, call, usable);
    }
  }

  ghost predicate IsRun(pools: seq<Pool>, steps: seq<Step>)
  {
    && |pools| == |steps| + 1
    && (forall i :: 0 <= i < |steps| ==> Enabled(pools[i], steps[i]) && pools[i + 1] == Next(pools[i], steps[i]))
  }

  lemma {:induction false} PoolHolds(pools: seq<Pool>, steps: seq<Step>, i: nat)
    requires IsRun(pools, steps) && pools[0] == Pool(map[], {}, 0, [], 0, 0) && i < |pools|
    ensures Good(pools[i])
  {
    if i > 0 {
      PoolHolds(pools, steps, i - 1);
      StepIsGood(pools[i - 1], steps[i - 1]);
    }
  }

  // -------------------------------------------------------------- Exactly once

  /** How often a call was counted as ended. */
  ghost function Times(steps: seq<Step>, call: nat): nat
  {
    if steps == [] then 0
    else
      var last := steps[|steps| - 1];
      Times(steps[..|steps| - 1], call) + if last.Counted? && last.call == call then 1 else 0
  }

  /** Where a call is: among the calls once started, until it is counted. */
  ghost predicate Accounted(p: Pool, call: nat, times: nat)
  {
    && (call < p.started ==> times == if call in p.calls then 0 else 1)
    && (call >= p.started ==> times == 0 && call !in p.calls)
  }

  lemma {:induction false} StartingAccounts(p: Pool, usable: Usable, call: nat, times: nat)
    requires Accounted(p, call, times)
    ensures Accounted(StartWaiting(p, usable), call, times)
    decreases |p.waiting|
  {
    if p.inFlight < MAXIMUM_IN_FLIGHT && p.waiting != [] {
      var next := p.(waiting := p.waiting[1..]);
      StartingAccounts(if usable(p.waiting[0]) then Launched(next) else next, usable, call, times);
    }
  }

  lemma StepAccounts(p: Pool, step: Step, call: nat, times: nat)
    requires Good(p) && Enabled(p, step) && Accounted(p, call, times)
    ensures Accounted(Next(p, step), call, times + if step.Counted? && step.call == call then 1 else 0)
  {
    match step {
      case Incoming(ticket, usable) =>
        if |p.waiting| < MAXIMUM_WAITING {
          StartingAccounts(p.(waiting := p.waiting + [ticket]), usable, call, times);
        }
      case Ends(_) =>
      case TimerFires(_) =>
      case Counted(other, usable) =>
        StartingAccounts(Uncounted(p, other), usable, call, if other == call then times + 1 else times);
    }
  }

  /** In every state of every run a call started was counted as ended once if
      it is not in flight any more, and not at all while it is. */
  lemma {:induction false} CountedOnce(pools: seq<Pool>, steps: seq<Step>, i: nat, call: nat)
    requires IsRun(pools, steps) && pools[0] == Pool(map[], {}, 0, [], 0, 0) && i < |pools|
    ensures Accounted(pools[i], call, Times(steps[..i], call))
  {
    if i > 0 {
      CountedOnce(pools, steps, i - 1, call);
      PoolHolds(pools, steps, i - 1);
      StepAccounts(pools[i - 1], steps[i - 1], call, Times(steps[..i - 1], call));
      assert steps[..i][..i - 1] == steps[..i - 1];
    }
  }

  /** And a call in flight can always be ended, by its timer if by nothing
      else, and then be counted. */
  lemma CanBeCounted(p: Pool, call: nat, usable: Usable)
    requires Good(p) && call in p.calls
    ensures p.calls[call].SettingUp? ==>
              Enabled(p, TimerFires(call)) && Next(p, TimerFires(call)).calls == p.calls[call := Over]
    ensures var over := if p.calls[call].Over? then p else Next(p, TimerFires(call));
            && Enabled(over, Counted(call, usable)) && call !in Next(over, Counted(call, usable)).calls
            && Next(over, Counted(call, usable)).ended == p.ended + 1
  {
    var over := if p.calls[call].Over? then p else Next(p, TimerFires(call));
    StartedAreNew(Uncounted(over, call), usable, call);
  }

  lemma {:induction false} StartedAreNew(p: Pool, usable: Usable, call: nat)
    requires call !in p.calls && call < p.started
    ensures call !in StartWaiting(p, usable).calls && StartWaiting(p, usable).ended == p.ended
    decreases |p.waiting|
  {
    if p.inFlight < MAXIMUM_IN_FLIGHT && p.waiting != [] {
      var next := p.(waiting := p.waiting[1..]);
      StartedAreNew(if usable(p.waiting[0]) then Launched(next) else next, usable, call);
    }
  }
}
