/**
 Staying registered at a relay. There is never more than one live control
 connection; it is made anew by timers and by changes of the network, and what
 an earlier one still has to say is known by its generation and ignored.
 */
module RelayLink {
  import opened Wrappers

  const MAXIMUM_RETRY := 60

  datatype State = Connecting | Registered | Failing | Conflict | VersionMismatch

  /** The two failures that end trying for good, and every other one. */
  datatype Error = Version | HostKey | Other

  /** How far a control connection got. */
  datatype Phase = Opening | AwaitingHello | AwaitingAnswer | Reading

  /** The control connection held, made in generation `made`. */
  datatype Control = Control(made: nat, phase: Phase)

  /** Timers set and not fired, by generation: retries, the limits on how
      long registering may take, and the waits for an answer to a ping; and
      the heartbeat, while it runs. */
  datatype Timers = Timers(retries: set<nat>, limits: set<nat>, pongs: set<nat>, heartbeat: Option<nat>)

  /** `live` holds the generations of control connections made and not
      closed. */
  datatype Link = Link(
    state: State, generation: nat, stopped: bool, retryDelay: nat,
    control: Option<Control>, live: set<nat>, timers: Timers)

  const FRESH := Link(Connecting, 0, false, 1, None, {}, Timers({}, {}, {}, None))

  function Doubled(delay: nat): nat
  {
    if delay * 2 > MAXIMUM_RETRY then MAXIMUM_RETRY else delay * 2
  }

  /** The control connection closed: true when its `ready` was still awaited,
      which closing then answers with a failure, at once. */
  predicate AnswersOnClose(l: Link)
  {
    l.control.Some? && l.control.value.made in l.live && l.control.value.phase.Opening?
  }

  function Closed(l: Link): Link
  {
    if l.control.Some? then l.(live := l.live - {l.control.value.made}) else l
  }

  function NoControl(l: Link): Link
  {
    l.(control := None, timers := l.timers.(heartbeat := None))
  }

  /** No more tries: whatever was set or is under way is of an earlier
      generation from now on. */
  function StopRetrying(l: Link, state: State): Link
  {
    NoControl(Closed(l.(generation := l.generation + 1))).(state := state)
  }

  /** `failed` past its closing of the control connection. */
  function FailedOnce(l: Link, error: Error): Link
  {
    var bare := NoControl(l);
    match error
    case Version => StopRetrying(bare, VersionMismatch)
    case HostKey => StopRetrying(bare, Conflict)
    case Other =>
      bare.(state := Failing, retryDelay := Doubled(l.retryDelay),
            timers := bare.timers.(retries := bare.timers.retries + {l.generation}))
  }

  /** What closing the control connection does to the link: a `ready` still
      awaited fails it there and then. */
  function Unwound(l: Link): Link
  {
    if AnswersOnClose(l) && l.control.value.made == l.generation && !l.stopped then FailedOnce(Closed(l), Other)
    else Closed(l)
  }

  function Failed(l: Link, error: Error): Link
  {
    if l.stopped then l else FailedOnce(Unwound(l), error)
  }

  function Connected(l: Link): Link
  {
    var u := Unwound(l);
    var g := u.generation + 1;
    Link(Connecting, g, u.stopped, u.retryDelay, Some(Control(g, Opening)), u.live + {g},
         u.timers.(heartbeat := None, limits := u.timers.limits + {g}))
  }

  datatype Step =
    | OnReady(made: nat, error: Option<Error>)
    | OnHello(made: nat, error: Option<Error>)
    | OnAnswer(made: nat, error: Option<Error>)
    | OnFrame(made: nat, error: Option<Error>, superseded: bool)
    | Dies
    | LimitFires(made: nat)
    | RetryFires(made: nat)
    | Pings
    | PongMissing(made: nat)
    | Register
    | PathChanged(usable: bool)
    | Stop

  /** A callback of this generation comes only in its phase; one of an earlier
      generation may come at any time. Opening fails only for want of the
      relay. A timer fires if it was set. */
  predicate Enabled(l: Link, step: Step)
  {
    match step
    case OnReady(made, error) => InPhase(l, made, Opening) && (error.None? || error.value.Other?)
    case OnHello(made, _) => InPhase(l, made, AwaitingHello)
    case OnAnswer(made, _) => InPhase(l, made, AwaitingAnswer)
    case OnFrame(made, _, _) => InPhase(l, made, Reading)
    case Dies => l.control.Some? && l.control.value.made in l.live
    case LimitFires(made) => made in l.timers.limits
    case RetryFires(made) => made in l.timers.retries
    case Pings => l.timers.heartbeat == Some(l.generation)
    case PongMissing(made) => made in l.timers.pongs
    case _ => true
  }

  predicate InPhase(l: Link, made: nat, phase: Phase)
  {
    made < l.generation || (l.control == Some(Control(made, phase)) && made in l.live)
  }

  function Moved(l: Link, phase: Phase): Link
  {
    if l.control.Some? then l.(control := Some(l.control.value.(phase := phase))) else l
  }

  function OnRegistered(l: Link): Link
  {
    Moved(l, Reading).(state := Registered, retryDelay := 1, timers := l.timers.(heartbeat := Some(l.generation)))
  }

  function Next(l: Link, step: Step): Link
  {
    match step
    case OnReady(made, error) =>
      if made != l.generation then l
      else if error.Some? then Failed(Moved(l, AwaitingHello), error.value)
      else Moved(l, AwaitingHello)
    case OnHello(made, error) =>
      if made != l.generation then l else if error.Some? then Failed(l, error.value) else Moved(l, AwaitingAnswer)
    case OnAnswer(made, error) =>
      if made != l.generation then l else if error.Some? then Failed(l, error.value) else OnRegistered(l)
    case OnFrame(made, error, superseded) =>
      if made != l.generation then l
      else if error.Some? then Failed(l, error.value)
      else if superseded then StopRetrying(l, Conflict)
      else l
    case Dies => Unwound(l)
    case LimitFires(made) =>
      var fired := l.(timers := l.timers.(limits := l.timers.limits - {made}));
      if made == l.generation && l.state.Connecting? then Failed(fired, Other) else fired
    case RetryFires(made) =>
      var fired := l.(timers := l.timers.(retries := l.timers.retries - {made}));
      if !l.stopped && made == l.generation && l.state.Failing? then Connected(fired) else fired
    case Pings => l.(timers := l.timers.(pongs := l.timers.pongs + {l.generation}))
    case PongMissing(made) => if made == l.generation then Failed(l, Other) else l
    case Register =>
      if l.stopped || l.state.Conflict? || l.state.VersionMismatch? then l else Connected(l.(retryDelay := 1))
    case PathChanged(usable) =>
      if !usable || l.stopped || l.state.Conflict? || l.state.VersionMismatch? then l
      else Connected(l.(retryDelay := 1))
    case Stop =>
      NoControl(Closed(l.(stopped := true, generation := l.generation + 1)))
  }

  // -------------------------------------------------------------- The object

  class RelayLink {
    var state: State
    var generation: nat
    var isStopped: bool
    var retryDelay: nat
    var control: Option<Control>
    var live: set<nat>
    var timers: Timers

    ghost function Value(): Link
      reads this
    {
      Link(state, generation, isStopped, retryDelay, control, live, timers)
    }

    constructor ()
      ensures Value() == FRESH
    {
      state, generation, isStopped, retryDelay := Connecting, 0, false, 1;
      control, live, timers := None, {}, Timers({}, {}, {}, None);
    }

    /** Closes the control connection; a `ready` still awaited is answered
        before this returns. */
    method CloseControl()
      modifies this
      ensures Value() == Unwound(old(Value()))
      decreases live, 0
    {
      if control.None? || control.value.made !in live {
        assert control.Some? ==> live - {control.value.made} == live;
        return;
      }
      var awaited := control.value.phase.Opening?;
      live := live - {control.value.made};
      if awaited && control.value.made == generation {
        Fail(Other);
      }
    }

    method Fail(error: Error)
      modifies this
      ensures Value() == Failed(old(Value()), error)
      decreases live, 1
    {
      if isStopped {
        return;
      }
      CloseControl();
      control := None;
      timers := timers.(heartbeat := None);
      match error {
        case Version => StopTrying(VersionMismatch);
        case HostKey => StopTrying(Conflict);
        case Other =>
          state := Failing;
          retryDelay := Doubled(retryDelay);
          timers := timers.(retries := timers.retries + {generation});
      }
    }

    method StopTrying(because: State)
      modifies this
      ensures Value() == StopRetrying(old(Value()), because)
    {
      generation := generation + 1;
      if control.Some? {
        live := live - {control.value.made};
      }
      control := None;
      timers := timers.(heartbeat := None);
      state := because;
    }

    method Connect()
      modifies this
      ensures Value() == Connected(old(Value()))
    {
      CloseControl();
      generation := generation + 1;
      state := Connecting;
      control := Some(Control(generation, Opening));
      live := live + {generation};
      timers := timers.(heartbeat := None, limits := timers.limits + {generation});
    }

    method Register()
      modifies this
      ensures Value() == Next(old(Value()), Step.Register)
    {
      if isStopped || !(state.Registered? || state.Connecting? || state.Failing?) {
        return;
      }
      retryDelay := 1;
      Connect();
    }

    method PathChanged(usable: bool)
      modifies this
      ensures Value() == Next(old(Value()), Step.PathChanged(usable))
    {
      if !usable || isStopped || state == Conflict || state == VersionMismatch {
        return;
      }
      retryDelay := 1;
      Connect();
    }

    method RetryFired(made: nat)
      modifies this
      ensures Value() == Next(old(Value()), RetryFires(made))
    {
      timers := timers.(retries := timers.retries - {made});
      if isStopped || made != generation || state != Failing {
        return;
      }
      Connect();
    }

    method LimitFired(made: nat)
      modifies this
      ensures Value() == Next(old(Value()), LimitFires(made))
    {
      timers := timers.(limits := timers.limits - {made});
      if made != generation || state != Connecting {
        return;
      }
      Fail(Other);
    }

    method PongMissed(made: nat)
      modifies this
      ensures Value() == Next(old(Value()), PongMissing(made))
    {
      if made != generation {
        return;
      }
      Fail(Other);
    }

    /** The relay can be reached, or how it cannot. */
    method Ready(made: nat, error: Option<Error>)
      requires Enabled(Value(), OnReady(made, error))
      modifies this
      ensures Value() == Next(old(Value()), OnReady(made, error))
    {
      if made != generation {
        return;
      }
      control := Some(control.value.(phase := AwaitingHello));
      if error.Some? {
        Fail(error.value);
      }
    }

    /** The relay's hello, or how it failed. */
    method Greeted(made: nat, error: Option<Error>)
      requires Enabled(Value(), OnHello(made, error))
      modifies this
      ensures Value() == Next(old(Value()), OnHello(made, error))
    {
      if made != generation {
        return;
      }
      if error.Some? {
        Fail(error.value);
      } else {
        control := Some(control.value.(phase := AwaitingAnswer));
      }
    }

    /** The answer to the registration, or how it failed. */
    method Answered(made: nat, error: Option<Error>)
      requires Enabled(Value(), OnAnswer(made, error))
      modifies this
      ensures Value() == Next(old(Value()), OnAnswer(made, error))
    {
      if made != generation {
        return;
      }
      if error.Some? {
        Fail(error.value);
        return;
      }
      state := Registered;
      retryDelay := 1;
      timers := timers.(heartbeat := Some(generation));
      control := Some(control.value.(phase := Reading));
    }

    method FrameCame(made: nat, error: Option<Error>, superseded: bool)
      modifies this
      ensures Value() == Next(old(Value()), OnFrame(made, error, superseded))
    {
      if made != generation {
        return;
      }
      if error.Some? {
        Fail(error.value);
      } else if superseded {
        StopTrying(Conflict);
      }
    }

    method Stop()
      modifies this
      ensures Value() == Next(old(Value()), Step.Stop)
    {
      isStopped := true;
      generation := generation + 1;
      if control.Some? {
        live := live - {control.value.made};
      }
      control := None;
      timers := timers.(heartbeat := None);
    }
  }

  // --------------------------------------------------------------- Invariants

  /** At most the current generation's control connection is live, and only
      while registering or registered. */
  ghost predicate OneControl(l: Link)
  {
    && l.live <= {l.generation}
    && (l.live != {} ==> l.control.Some?)
    && (l.control.Some? ==>
          l.control.value.made == l.generation && !l.stopped && (l.state.Connecting? || l.state.Registered?))
  }

  ghost predicate UpTo(generations: set<nat>, last: nat)
  {
    forall g :: g in generations ==> g <= last
  }

  /** A link not stopped always has something set that will move it on: a
      limit while it connects, a retry once it failed, a heartbeat while it
      is registered. */
  ghost predicate Moving(l: Link)
  {
    && 1 <= l.retryDelay <= MAXIMUM_RETRY
    && (!l.stopped && l.state.Connecting? ==> l.generation in l.timers.limits && l.control.Some?)
    && (!l.stopped && l.state.Failing? ==> l.generation in l.timers.retries)
    && (l.state.Registered? && !l.stopped ==>
          l.timers.heartbeat == Some(l.generation) && l.control == Some(Control(l.generation, Reading)))
    && (l.state.Connecting? && l.control.Some? ==> !l.control.value.phase.Reading?)
    && (l.timers.heartbeat.Some? ==> l.timers.heartbeat.value == l.generation && l.state.Registered?)
    && UpTo(l.timers.retries, l.generation) && UpTo(l.timers.limits, l.generation) && UpTo(l.timers.pongs, l.generation)
    && (l.generation in l.timers.pongs ==> l.state.Registered? || l.state.Failing?)
  }

  ghost predicate Good(l: Link)
  {
    OneControl(l) && Moving(l)
  }

  lemma StartIsGood()
    ensures Good(Connected(FRESH))
  {
  }

  lemma FailedIsGood(l: Link, error: Error)
    requires Good(l) && (l.state.Connecting? || l.state.Registered? || l.state.Failing?)
    ensures Good(Failed(l, error))
  {
  }

  lemma ConnectIsGood(l: Link)
    requires Good(l) && !l.stopped
    ensures Good(Connected(l)) && Connected(l).state.Connecting?
  {
  }

  /** `failed` reached with the limit taken off, or `ready` answered. */
  lemma FailedFromOpeningIsGood(l: Link, error: Error, limits: set<nat>, phase: Phase)
    requires Good(l) && l.state.Connecting? && !l.stopped && limits <= l.timers.limits && !phase.Reading?
    ensures Good(Failed(Moved(l, phase).(timers := l.timers.(limits := limits)), error))
  {
  }

  lemma StepIsGood(l: Link, step: Step)
    requires Good(l) && Enabled(l, step)
    ensures Good(Next(l, step))
  {
    match step {
      case OnReady(made, error) =>
        if made == l.generation && error.Some? {
          FailedFromOpeningIsGood(l, error.value, l.timers.limits, AwaitingHello);
        }
      case OnHello(made, error) => if made == l.generation && error.Some? { FailedIsGood(l, error.value); }
      case OnAnswer(made, error) => if made == l.generation && error.Some? { FailedIsGood(l, error.value); }
      case OnFrame(made, error, superseded) => if made == l.generation && error.Some? { FailedIsGood(l, error.value); }
      case LimitFires(made) =>
        if made == l.generation && l.state.Connecting? && !l.stopped {
          FailedFromOpeningIsGood(l, Other, l.timers.limits - {made}, l.control.value.phase);
        }
      case PongMissing(made) =>
        if made == l.generation && !l.stopped && !l.state.Conflict? && !l.state.VersionMismatch? {
          FailedIsGood(l, Other);
        }
      case RetryFires(made) =>
        if !l.stopped && made == l.generation && l.state.Failing? {
          RetryIsGood(l, made);
        }
      case Register => RegisterIsGood(l);
      case PathChanged(usable) => RegisterIsGood(l);
      case _ =>
    }
  }

  lemma RetryIsGood(l: Link, made: nat)
    requires Good(l) && !l.stopped && made == l.generation && l.state.Failing?
    ensures Good(Next(l, RetryFires(made)))
  {
  }

  lemma RegisterIsGood(l: Link)
    requires Good(l)
    ensures Good(Next(l, Register)) && forall usable :: Good(Next(l, PathChanged(usable)))
  {
    if !l.stopped {
      ConnectIsGood(l.(retryDelay := 1));
    }
  }

  ghost predicate IsRun(links: seq<Link>, steps: seq<Step>)
  {
    && |links| == |steps| + 1
    && (forall i :: 0 <= i < |steps| ==> Enabled(links[i], steps[i]) && links[i + 1] == Next(links[i], steps[i]))
  }

  /** In every state of every run, stale callbacks and timers of any age
      included: at most one control connection, and never stuck. */
  lemma {:induction false} RegistrationHolds(links: seq<Link>, steps: seq<Step>, i: nat)
    requires IsRun(links, steps) && links[0] == Connected(FRESH) && i < |links|
    ensures Good(links[i]) && |links[i].live| <= 1
  {
    if i == 0 {
      StartIsGood();
    } else {
      RegistrationHolds(links, steps, i - 1);
      StepIsGood(links[i - 1], steps[i - 1]);
    }
    assert links[i].live == {} || links[i].live == {links[i].generation};
  }

  predicate Final(state: State)
  {
    state.Conflict? || state.VersionMismatch?
  }

  lemma FinalIsKept(l: Link, step: Step)
    requires Good(l) && Enabled(l, step) && Final(l.state)
    ensures Next(l, step).state == l.state && Next(l, step).control.None? && Next(l, step).live == {}
  {
  }

  lemma FinalAtNextStep(links: seq<Link>, steps: seq<Step>, j: nat)
    requires IsRun(links, steps) && links[0] == Connected(FRESH) && j < |steps| && Final(links[j].state)
    ensures links[j + 1].state == links[j].state
  {
    RegistrationHolds(links, steps, j);
    FinalIsKept(links[j], steps[j]);
  }

  /** Conflict and version mismatch are left by no step of any run. */
  lemma {:induction false} FinalForGood(links: seq<Link>, steps: seq<Step>, i: nat, j: nat)
    requires IsRun(links, steps) && links[0] == Connected(FRESH) && i <= j < |links| && Final(links[i].state)
    ensures links[j].state == links[i].state
    decreases j
  {
    if i < j {
      FinalForGood(links, steps, i, j - 1);
      FinalAtNextStep(links, steps, j - 1);
    }
  }

  /** Wherever a link not stopped stands, short of those two, a timer that is
      set moves it on: out of connecting, to another try, or, with the relay
      silent, out of being registered. */
  lemma TimersMoveOn(l: Link)
    requires Good(l) && !l.stopped && !Final(l.state)
    ensures l.state.Connecting? ==>
              Enabled(l, LimitFires(l.generation)) && Next(l, LimitFires(l.generation)).state.Failing?
    ensures l.state.Failing? ==>
              && Enabled(l, RetryFires(l.generation))
              && Next(l, RetryFires(l.generation)).state.Connecting?
              && Next(l, RetryFires(l.generation)).generation == l.generation + 1
    ensures l.state.Registered? ==>
              Enabled(l, Pings) && Next(Next(l, Pings), PongMissing(l.generation)).state.Failing?
  {
  }

  /** A try that fails doubles the wait once, or twice when it was given up
      before the relay could be reached: closing the connection then fails it
      as well. */
  lemma WaitDoubles(l: Link)
    requires Good(l) && !l.stopped
    ensures Failed(l, Other).retryDelay
         == if AnswersOnClose(l) then Doubled(Doubled(l.retryDelay)) else Doubled(l.retryDelay)
    ensures Connected(l).retryDelay == if AnswersOnClose(l) then Doubled(l.retryDelay) else l.retryDelay
  {
  }

  /** A first try whose limit comes while the connection is opening: the wait
      of 1 is 4 already when the next try is set. */
  lemma FirstLimitDoublesTwice()
    ensures var l := Connected(FRESH);
            Enabled(l, LimitFires(1)) && AnswersOnClose(l) && Next(l, LimitFires(1)).retryDelay == 4
  {
  }
}
