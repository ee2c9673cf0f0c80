/**
 How incoming connections are let in. There is a local path and a relayed
 one; on each, a bounded number of started connections may still be shaking
 hands, and one bounded queue holds those of either path that must wait.
 */
module Admission {

  const MAXIMUM_UNAUTHENTICATED := 4
  const MAXIMUM_WAITING := 32

  /** Where a started connection is. One whose pairing is over counts as
      handshaking again until it is gone, though its first frame is long past. */
  datatype Stage = First | Authenticated | Spent

  datatype Client = Client(viaRelay: bool, stage: Stage)

  /** A connection accepted and not started; `id` counts arrivals. */
  datatype Waiting = Waiting(id: nat, viaRelay: bool)

  type Clients = map<nat, Client>

  function Handshaking(clients: Clients, viaRelay: bool): set<nat>
  {
    set id | id in clients && !clients[id].stage.Authenticated? && clients[id].viaRelay == viaRelay
  }

  function BeforeFirstFrame(clients: Clients, viaRelay: bool): set<nat>
  {
    set id | id in clients && clients[id].stage.First? && clients[id].viaRelay == viaRelay
  }

  predicate HasSlot(clients: Clients, viaRelay: bool)
  {
    |Handshaking(clients, viaRelay)| < MAXIMUM_UNAUTHENTICATED
  }

  function Of(waiting: seq<Waiting>, viaRelay: bool): (r: seq<Waiting>)
    ensures forall w :: w in r <==> w in waiting && w.viaRelay == viaRelay
  {
    if waiting == [] then []
    else if waiting[0].viaRelay == viaRelay then [waiting[0]] + Of(waiting[1..], viaRelay)
    else Of(waiting[1..], viaRelay)
  }

  function Removed(waiting: seq<Waiting>, index: nat): (r: seq<Waiting>)
    requires index < |waiting|
    ensures |r| == |waiting| - 1
    ensures forall j :: 0 <= j < |r| ==> r[j] == waiting[if j < index then j else j + 1]
  {
    waiting[..index] + waiting[index + 1..]
  }

  /** Who is in, who waits, who was started, in order, and how many came. */
  datatype Door = Door(clients: Clients, waiting: seq<Waiting>, started: seq<Waiting>, arrivals: nat)

  function Started(d: Door, w: Waiting): Door
  {
    d.(clients := d.clients[w.id := Client(w.viaRelay, First)], started := d.started + [w])
  }

  /** Every waiting connection from `index` on that finds a slot is started. */
  function Admitted(d: Door, index: nat): (r: Door)
    requires index <= |d.waiting|
    decreases |d.waiting| - index
  {
    if index == |d.waiting| then d
    else
      var next := d.waiting[index];
      if !HasSlot(d.clients, next.viaRelay) then Admitted(d, index + 1)
      else Admitted(Started(d.(waiting := Removed(d.waiting, index)), next), index)
  }

  /** Where a connection waits: the length of the line when it does not. */
  function IndexOf(waiting: seq<Waiting>, id: nat): (index: nat)
    ensures index <= |waiting|
    ensures index < |waiting| ==> waiting[index].id == id
    ensures index == |waiting| ==> forall i :: 0 <= i < |waiting| ==> waiting[i].id != id
  {
    if waiting == [] || waiting[0].id == id then 0 else 1 + IndexOf(waiting[1..], id)
  }

  datatype Step =
    | Accept(viaRelay: bool, isLocal: bool)
    | WaitedTooLong(id: nat)
    | FirstFrame(id: nat)
    | PairingOver(id: nat)
    | Leaves(id: nat)
    | Lingers(id: nat)

  /** Only a connection past its first frame has a pairing to finish or
      terminals to linger for. */
  predicate Enabled(d: Door, step: Step)
  {
    match step
    case Accept(_, _) => true
    case WaitedTooLong(_) => true
    case FirstFrame(id) => id in d.clients && d.clients[id].stage.First?
    case PairingOver(id) => id in d.clients && d.clients[id].stage.Authenticated?
    case Leaves(id) => id in d.clients
    case Lingers(id) => id in d.clients && d.clients[id].stage.Authenticated?
  }

  function Next(d: Door, step: Step): (r: Door)
    requires Enabled(d, step)
  {
    match step
    case Accept(viaRelay, isLocal) =>
      var (next, came) := (Waiting(d.arrivals, viaRelay), d.(arrivals := d.arrivals + 1));
      if !viaRelay && !isLocal then came
      else if HasSlot(d.clients, viaRelay) then Started(came, next)
      else if |Of(d.waiting, viaRelay)| < MAXIMUM_WAITING then came.(waiting := d.waiting + [next])
      else came
    case WaitedTooLong(id) =>
      var index := IndexOf(d.waiting, id);
      if index < |d.waiting| then d.(waiting := Removed(d.waiting, index)) else d
    case FirstFrame(id) => Admitted(d.(clients := d.clients[id := d.clients[id].(stage := Authenticated)]), 0)
    case PairingOver(id) => d.(clients := d.clients[id := d.clients[id].(stage := Spent)])
    case Leaves(id) => Admitted(d.(clients := d.clients - {id}), 0)
    case Lingers(id) => d.(clients := d.clients - {id})
  }

  // -------------------------------------------------------------- The object

  class RemoteService {
    var clients: Clients
    var waiting: seq<Waiting>
    var started: seq<Waiting>
    var arrivals: nat

    ghost function Value(): Door
      reads this
    {
      Door(clients, waiting, started, arrivals)
    }

    constructor ()
      ensures Value() == Door(map[], [], [], 0)
    {
      clients, waiting, started, arrivals := map[], [], [], 0;
    }

    method Start(next: Waiting)
      modifies this`clients, this`started
      ensures Value() == Started(old(Value()), next)
    {
      clients := clients[next.id := Client(next.viaRelay, First)];
      started := started + [next];
    }

    method Accept(viaRelay: bool, isLocal: bool)
      modifies this
      ensures Value() == Next(old(Value()), Step.Accept(viaRelay, isLocal))
    {
      var next := Waiting(arrivals, viaRelay);
      arrivals := arrivals + 1;
      if !viaRelay && !isLocal {
        return;
      }
      if !HasSlot(clients, viaRelay) {
        if |Of(waiting, viaRelay)| >= MAXIMUM_WAITING {
          return;
        }
        waiting := waiting + [next];
        return;
      }
      Start(next);
    }

    method WaitedTooLong(id: nat)
      modifies this`waiting
      ensures Value() == Next(old(Value()), Step.WaitedTooLong(id))
    {
      var index := IndexOf(waiting, id);
      if index < |waiting| {
        waiting := Removed(waiting, index);
      }
    }

    /** The waiting queue gone through once for whoever now fits. */
    method HandshakeEnded()
      modifies this
      ensures Value() == Admitted(old(Value()), 0)
    {
      var index := 0;
      while index < |waiting|
        invariant index <= |waiting|
        invariant Admitted(Value(), index) == Admitted(old(Value()), 0)
        decreases |waiting| - index
      {
        var next := waiting[index];
        if !HasSlot(clients, next.viaRelay) {
          index := index + 1;
          continue;
        }
        waiting := Removed(waiting, index);
        Start(next);
      }
    }

    /** A client's first frame proved it, or began a pairing. */
    method ModeChanged(id: nat)
      requires id in clients && clients[id].stage.First?
      modifies this
      ensures Value() == Next(old(Value()), FirstFrame(id))
    {
      clients := clients[id := clients[id].(stage := Authenticated)];
      HandshakeEnded();
    }

    method ClientClosed(id: nat)
      requires id in clients
      modifies this
      ensures Value() == Next(old(Value()), Leaves(id))
    {
      clients := clients - {id};
      HandshakeEnded();
    }

    /** A pairing ended, one way or the other: back to handshaking. */
    method PairingEnded(id: nat)
      requires id in clients && clients[id].stage.Authenticated?
      modifies this`clients
      ensures Value() == Next(old(Value()), PairingOver(id))
    {
      clients := clients[id := clients[id].(stage := Spent)];
    }

    method ClientLingering(id: nat)
      requires id in clients && clients[id].stage.Authenticated?
      modifies this`clients
      ensures Value() == Next(old(Value()), Lingers(id))
    {
      clients := clients - {id};
    }
  }

  // --------------------------------------------------------------- Invariants

  ghost predicate Bounded(d: Door)
  {
    forall viaRelay: bool ::
      |BeforeFirstFrame(d.clients, viaRelay)| <= MAXIMUM_UNAUTHENTICATED && |Of(d.waiting, viaRelay)| <= MAXIMUM_WAITING
  }

  /** A waiting connection means no free slot on its path. */
  ghost predicate Full(clients: Clients, waiting: seq<Waiting>)
  {
    forall k :: 0 <= k < |waiting| ==> !HasSlot(clients, waiting[k].viaRelay)
  }

  ghost predicate LineInOrder(waiting: seq<Waiting>)
  {
    forall i, j :: 0 <= i < j < |waiting| ==> waiting[i].id < waiting[j].id
  }

  ghost predicate StartsInOrder(started: seq<Waiting>)
  {
    forall i, j :: 0 <= i < j < |started| && started[i].viaRelay == started[j].viaRelay ==>
      started[i].id < started[j].id
  }

  /** On its path, everyone started came before `w`. */
  ghost predicate After(started: seq<Waiting>, w: Waiting)
  {
    forall i :: 0 <= i < |started| && started[i].viaRelay == w.viaRelay ==> started[i].id < w.id
  }

  ghost predicate Came(some: seq<Waiting>, arrivals: nat)
  {
    forall i :: 0 <= i < |some| ==> some[i].id < arrivals
  }

  /** Both lines are in order of arrival, the started one path by path, and
      on each path whoever waits came after whoever started. */
  ghost predicate InOrder(d: Door)
  {
    && LineInOrder(d.waiting) && StartsInOrder(d.started)
    && (forall j :: 0 <= j < |d.waiting| ==> After(d.started, d.waiting[j]))
    && Came(d.started, d.arrivals) && Came(d.waiting, d.arrivals)
  }

  ghost predicate Good(d: Door)
  {
    Bounded(d) && Full(d.clients, d.waiting) && InOrder(d)
  }

  lemma {:induction false} SubsetIsNoLarger(a: set<nat>, b: set<nat>)
    requires a <= b
    ensures |a| <= |b|
    decreases |a|
  {
    if a != {} {
      var x :| x in a;
      SubsetIsNoLarger(a - {x}, b - {x});
    }
  }

  lemma {:induction false} RemovedKeepsOf(waiting: seq<Waiting>, index: nat, viaRelay: bool)
    requires index < |waiting|
    ensures |Of(Removed(waiting, index), viaRelay)| <= |Of(waiting, viaRelay)|
  {
    if index == 0 {
      assert Removed(waiting, 0) == waiting[1..];
    } else {
      assert Removed(waiting, index) == [waiting[0]] + Removed(waiting[1..], index - 1);
      RemovedKeepsOf(waiting[1..], index - 1, viaRelay);
    }
  }

  lemma {:induction false} OfOneMore(waiting: seq<Waiting>, w: Waiting, viaRelay: bool)
    ensures |Of(waiting + [w], viaRelay)| == |Of(waiting, viaRelay)| + if w.viaRelay == viaRelay then 1 else 0
  {
    if waiting == [] {
      assert waiting + [w] == [w];
    } else {
      assert (waiting + [w])[1..] == waiting[1..] + [w];
      OfOneMore(waiting[1..], w, viaRelay);
    }
  }

  /** No number is used twice. */
  ghost predicate Separate(d: Door)
  {
    && (forall id :: id in d.clients ==> id < d.arrivals)
    && (forall k :: 0 <= k < |d.waiting| ==> d.waiting[k].id !in d.clients)
  }

  /** A start fills a slot of its own path and touches no other's. */
  lemma StartCounts(clients: Clients, w: Waiting, viaRelay: bool)
    requires w.id !in clients && HasSlot(clients, w.viaRelay)
    requires |BeforeFirstFrame(clients, viaRelay)| <= MAXIMUM_UNAUTHENTICATED
    ensures var after := clients[w.id := Client(w.viaRelay, First)];
            && |BeforeFirstFrame(after, viaRelay)| <= MAXIMUM_UNAUTHENTICATED
            && |Handshaking(after, viaRelay)| >= |Handshaking(clients, viaRelay)|
  {
    var after := clients[w.id := Client(w.viaRelay, First)];
    SubsetIsNoLarger(Handshaking(clients, viaRelay), Handshaking(after, viaRelay));
    StartIsBounded(clients, w, viaRelay);
  }

  lemma StartIsBounded(clients: Clients, w: Waiting, viaRelay: bool)
    requires w.id !in clients && HasSlot(clients, w.viaRelay)
    requires |BeforeFirstFrame(clients, viaRelay)| <= MAXIMUM_UNAUTHENTICATED
    ensures |BeforeFirstFrame(clients[w.id := Client(w.viaRelay, First)], viaRelay)| <= MAXIMUM_UNAUTHENTICATED
  {
    var after := clients[w.id := Client(w.viaRelay, First)];
    if w.viaRelay == viaRelay {
      SubsetIsNoLarger(BeforeFirstFrame(after, viaRelay), Handshaking(clients, viaRelay) + {w.id});
    } else {
      SubsetIsNoLarger(BeforeFirstFrame(after, viaRelay), BeforeFirstFrame(clients, viaRelay));
    }
  }

  lemma RemovedInOrder(waiting: seq<Waiting>, index: nat, arrivals: nat)
    requires index < |waiting| && LineInOrder(waiting) && Came(waiting, arrivals)
    ensures LineInOrder(Removed(waiting, index)) && Came(Removed(waiting, index), arrivals)
    ensures forall j :: 0 <= j < |waiting| - 1 ==> Removed(waiting, index)[j].id != waiting[index].id
  {
  }

  lemma AfterOneMore(started: seq<Waiting>, next: Waiting, w: Waiting)
    requires After(started, w) && (next.viaRelay == w.viaRelay ==> next.id < w.id)
    ensures After(started + [next], w)
  {
  }

  lemma StartsOneMore(started: seq<Waiting>, next: Waiting, arrivals: nat)
    requires StartsInOrder(started) && After(started, next) && Came(started, arrivals) && next.id < arrivals
    ensures StartsInOrder(started + [next]) && Came(started + [next], arrivals)
  {
  }

  /** Starting the first of the line that finds a slot keeps both orders:
      nobody of its path was passed over. */
  lemma StartKeepsOrder(d: Door, index: nat)
    requires index < |d.waiting| && InOrder(d) && HasSlot(d.clients, d.waiting[index].viaRelay)
    requires forall k :: 0 <= k < index ==> !HasSlot(d.clients, d.waiting[k].viaRelay)
    ensures InOrder(Started(d.(waiting := Removed(d.waiting, index)), d.waiting[index]))
  {
    var (w, left) := (d.waiting[index], Removed(d.waiting, index));
    RemovedInOrder(d.waiting, index, d.arrivals);
    StartsOneMore(d.started, w, d.arrivals);
    forall j | 0 <= j < |left|
      ensures After(d.started + [w], left[j])
    {
      var k := if j < index then j else j + 1;
      assert left[j] == d.waiting[k] && After(d.started, d.waiting[k]);
      AfterOneMore(d.started, w, left[j]);
    }
  }

  lemma StartKeepsSeparate(d: Door, index: nat)
    requires index < |d.waiting| && InOrder(d) && Separate(d)
    ensures Separate(Started(d.(waiting := Removed(d.waiting, index)), d.waiting[index]))
  {
    RemovedInOrder(d.waiting, index, d.arrivals);
  }

  lemma {:induction false} AdmittedIsGood(d: Door, index: nat)
    requires index <= |d.waiting| && Bounded(d) && InOrder(d) && Separate(d)
    requires forall k :: 0 <= k < index ==> !HasSlot(d.clients, d.waiting[k].viaRelay)
    ensures Good(Admitted(d, index)) && Separate(Admitted(d, index))
    decreases |d.waiting| - index
  {
    if index < |d.waiting| {
      var w := d.waiting[index];
      if !HasSlot(d.clients, w.viaRelay) {
        AdmittedIsGood(d, index + 1);
      } else {
        var next := Started(d.(waiting := Removed(d.waiting, index)), w);
        forall viaRelay: bool
          ensures |BeforeFirstFrame(next.clients, viaRelay)| <= MAXIMUM_UNAUTHENTICATED
          ensures |Of(next.waiting, viaRelay)| <= MAXIMUM_WAITING
          ensures !HasSlot(d.clients, viaRelay) ==> !HasSlot(next.clients, viaRelay)
        {
          StartCounts(d.clients, w, viaRelay);
          RemovedKeepsOf(d.waiting, index, viaRelay);
        }
        StartKeepsOrder(d, index);
        StartKeepsSeparate(d, index);
        AdmittedIsGood(next, index);
      }
    }
  }

  /** Fewer clients, or one further along, hold no more slots. */
  lemma FewerAreBounded(d: Door, clients: Clients)
    requires Bounded(d)
    requires forall id :: id in clients ==>
               && id in d.clients && clients[id].viaRelay == d.clients[id].viaRelay
               && (clients[id].stage.First? ==> d.clients[id].stage.First?)
    ensures Bounded(d.(clients := clients))
  {
    forall viaRelay: bool
      ensures |BeforeFirstFrame(clients, viaRelay)| <= MAXIMUM_UNAUTHENTICATED
    {
      SubsetIsNoLarger(BeforeFirstFrame(clients, viaRelay), BeforeFirstFrame(d.clients, viaRelay));
    }
  }

  lemma AcceptStarts(d: Door, viaRelay: bool)
    requires Good(d) && Separate(d) && HasSlot(d.clients, viaRelay)
    ensures var r := Started(d.(arrivals := d.arrivals + 1), Waiting(d.arrivals, viaRelay));
            Good(r) && Separate(r)
  {
    var next := Waiting(d.arrivals, viaRelay);
    var r := Started(d.(arrivals := d.arrivals + 1), next);
    forall path: bool
      ensures |BeforeFirstFrame(r.clients, path)| <= MAXIMUM_UNAUTHENTICATED && |Of(r.waiting, path)| <= MAXIMUM_WAITING
      ensures !HasSlot(d.clients, path) ==> !HasSlot(r.clients, path)
    {
      StartCounts(d.clients, next, path);
    }
    assert Bounded(r) && Full(r.clients, r.waiting);
    AcceptKeepsOrder(d, viaRelay);
  }

  lemma AcceptKeepsOrder(d: Door, viaRelay: bool)
    requires Full(d.clients, d.waiting) && InOrder(d) && Separate(d) && HasSlot(d.clients, viaRelay)
    ensures var r := Started(d.(arrivals := d.arrivals + 1), Waiting(d.arrivals, viaRelay));
            InOrder(r) && Separate(r)
  {
    var next := Waiting(d.arrivals, viaRelay);
    assert After(d.started, next) && Came(d.started, d.arrivals + 1);
    StartsOneMore(d.started, next, d.arrivals + 1);
    forall j | 0 <= j < |d.waiting|
      ensures After(d.started + [next], d.waiting[j]) && d.waiting[j].id < next.id
    {
      assert !HasSlot(d.clients, d.waiting[j].viaRelay);
      AfterOneMore(d.started, next, d.waiting[j]);
    }
  }

  lemma AcceptWaits(d: Door, viaRelay: bool)
    requires Good(d) && Separate(d) && !HasSlot(d.clients, viaRelay) && |Of(d.waiting, viaRelay)| < MAXIMUM_WAITING
    ensures var r := d.(arrivals := d.arrivals + 1, waiting := d.waiting + [Waiting(d.arrivals, viaRelay)]);
            Good(r) && Separate(r)
  {
    var next := Waiting(d.arrivals, viaRelay);
    forall path: bool
      ensures |Of(d.waiting + [next], path)| <= MAXIMUM_WAITING
    {
      OfOneMore(d.waiting, next, path);
    }
    LineOneMore(d, next);
  }

  /** Whoever comes last waits last. */
  lemma LineOneMore(d: Door, next: Waiting)
    requires InOrder(d) && next.id == d.arrivals
    ensures InOrder(d.(arrivals := d.arrivals + 1, waiting := d.waiting + [next]))
  {
    var line := d.waiting + [next];
    forall i, j | 0 <= i < j < |line|
      ensures line[i].id < line[j].id
    {
    }
    forall j | 0 <= j < |line|
      ensures After(d.started, line[j])
    {
      assert line[j] == next || line[j] == d.waiting[j];
    }
  }

  lemma WaitedTooLongIsGood(d: Door, id: nat)
    requires Good(d) && Separate(d)
    ensures Good(Next(d, WaitedTooLong(id))) && Separate(Next(d, WaitedTooLong(id)))
  {
    var index := IndexOf(d.waiting, id);
    if index < |d.waiting| {
      forall path: bool
        ensures |Of(Removed(d.waiting, index), path)| <= MAXIMUM_WAITING
      {
        RemovedKeepsOf(d.waiting, index, path);
      }
      RemovedInOrder(d.waiting, index, d.arrivals);
    }
  }

  /** A connection whose pairing is over takes a slot again, and one that
      lingers gives none back: it was past its handshake. */
  lemma PastHandshakeIsGood(d: Door, step: Step)
    requires (step.PairingOver? || step.Lingers?) && Enabled(d, step) && Good(d) && Separate(d)
    ensures Good(Next(d, step)) && Separate(Next(d, step))
  {
    var r := Next(d, step);
    FewerAreBounded(d, r.clients);
    forall path: bool
      ensures !HasSlot(d.clients, path) ==> !HasSlot(r.clients, path)
    {
      SubsetIsNoLarger(Handshaking(d.clients, path), Handshaking(r.clients, path));
    }
  }

  lemma StepIsGood(d: Door, step: Step)
    requires Enabled(d, step) && Good(d) && Separate(d)
    ensures Good(Next(d, step)) && Separate(Next(d, step))
  {
    match step {
      case Accept(viaRelay, isLocal) =>
        if HasSlot(d.clients, viaRelay) {
          AcceptStarts(d, viaRelay);
        } else if |Of(d.waiting, viaRelay)| < MAXIMUM_WAITING {
          AcceptWaits(d, viaRelay);
        }
      case WaitedTooLong(id) => WaitedTooLongIsGood(d, id);
      case FirstFrame(id) =>
        var moved := d.(clients := d.clients[id := d.clients[id].(stage := Authenticated)]);
        FewerAreBounded(d, moved.clients);
        AdmittedIsGood(moved, 0);
      case PairingOver(id) => PastHandshakeIsGood(d, step);
      case Leaves(id) =>
        FewerAreBounded(d, d.clients - {id});
        AdmittedIsGood(d.(clients := d.clients - {id}), 0);
      case Lingers(id) => PastHandshakeIsGood(d, step);
    }
  }

  ghost predicate IsRun(states: seq<Door>, steps: seq<Step>)
  {
    && |states| == |steps| + 1
    && (forall i :: 0 <= i < |steps| ==> Enabled(states[i], steps[i]) && states[i + 1] == Next(states[i], steps[i]))
  }

  /** In every state of every run, on each path: at most so many connections
      before their first frame, at most so many waiting, none waiting while a
      slot is free, and all started in the order they arrived. */
  lemma {:induction false} AdmissionHolds(states: seq<Door>, steps: seq<Step>, i: nat)
    requires IsRun(states, steps) && states[0] == Door(map[], [], [], 0) && i < |states|
    ensures Good(states[i]) && Separate(states[i])
  {
    if i == 0 {
      forall path: bool
        ensures BeforeFirstFrame(states[0].clients, path) == {} && Of(states[0].waiting, path) == []
      {
      }
    } else {
      AdmissionHolds(states, steps, i - 1);
      StepIsGood(states[i - 1], steps[i - 1]);
    }
  }

  // -------------------------------------------------------- Over the limit

  /** The step that takes a slot nobody gave back: a pairing over on a path
      that is full. */
  predicate Overfills(d: Door, step: Step, viaRelay: bool)
    requires Enabled(d, step)
  {
    step.PairingOver? && d.clients[step.id].viaRelay == viaRelay && !HasSlot(d.clients, viaRelay)
  }

  predicate WithinLimit(clients: Clients, viaRelay: bool)
  {
    |Handshaking(clients, viaRelay)| <= MAXIMUM_UNAUTHENTICATED
  }

  /** Starting only where there is a slot goes over no path's limit. */
  lemma StartStaysWithin(clients: Clients, w: Waiting, viaRelay: bool)
    requires WithinLimit(clients, viaRelay) && HasSlot(clients, w.viaRelay)
    ensures WithinLimit(clients[w.id := Client(w.viaRelay, First)], viaRelay)
  {
    var after := clients[w.id := Client(w.viaRelay, First)];
    if w.viaRelay == viaRelay {
      SubsetIsNoLarger(Handshaking(after, viaRelay), Handshaking(clients, viaRelay) + {w.id});
    } else {
      SubsetIsNoLarger(Handshaking(after, viaRelay), Handshaking(clients, viaRelay));
    }
  }

  lemma {:induction false} AdmittedStaysWithin(d: Door, index: nat, viaRelay: bool)
    requires index <= |d.waiting| && WithinLimit(d.clients, viaRelay)
    ensures WithinLimit(Admitted(d, index).clients, viaRelay)
    decreases |d.waiting| - index
  {
    if index < |d.waiting| {
      var w := d.waiting[index];
      if HasSlot(d.clients, w.viaRelay) {
        StartStaysWithin(d.clients, w, viaRelay);
        AdmittedStaysWithin(Started(d.(waiting := Removed(d.waiting, index)), w), index, viaRelay);
      } else {
        AdmittedStaysWithin(d, index + 1, viaRelay);
      }
    }
  }

  /** A pairing over adds its connection to those of its path. */
  lemma PairingOverAddsOne(d: Door, id: nat)
    requires Enabled(d, PairingOver(id))
    ensures var (path, after) := (d.clients[id].viaRelay, Next(d, PairingOver(id)).clients);
            && |Handshaking(after, path)| == |Handshaking(d.clients, path)| + 1
            && Handshaking(after, !path) == Handshaking(d.clients, !path)
  {
    var (path, after) := (d.clients[id].viaRelay, Next(d, PairingOver(id)).clients);
    assert Handshaking(after, path) == Handshaking(d.clients, path) + {id};
  }

  /** From within a path's limit, a step goes over it if and only if it ends
      a pairing on that path while the path is full. */
  lemma StepOverfills(d: Door, step: Step, viaRelay: bool)
    requires Enabled(d, step) && WithinLimit(d.clients, viaRelay)
    ensures !WithinLimit(Next(d, step).clients, viaRelay) <==> Overfills(d, step, viaRelay)
  {
    match step {
      case Accept(path, isLocal) =>
        if HasSlot(d.clients, path) {
          StartStaysWithin(d.clients, Waiting(d.arrivals, path), viaRelay);
        }
      case WaitedTooLong(_) =>
      case FirstFrame(id) =>
        var moved := d.clients[id := d.clients[id].(stage := Authenticated)];
        SubsetIsNoLarger(Handshaking(moved, viaRelay), Handshaking(d.clients, viaRelay));
        AdmittedStaysWithin(d.(clients := moved), 0, viaRelay);
      case PairingOver(id) => PairingOverAddsOne(d, id);
      case Leaves(id) =>
        SubsetIsNoLarger(Handshaking(d.clients - {id}, viaRelay), Handshaking(d.clients, viaRelay));
        AdmittedStaysWithin(d.(clients := d.clients - {id}), 0, viaRelay);
      case Lingers(id) =>
        SubsetIsNoLarger(Handshaking(d.clients - {id}, viaRelay), Handshaking(d.clients, viaRelay));
    }
  }

  /** A whole run stays within a path's limit if and only if no step of it
      ends a pairing on that path while the path is full. */
  lemma {:induction false} LimitHoldsUnless(states: seq<Door>, steps: seq<Step>, viaRelay: bool, n: nat)
    requires IsRun(states, steps) && states[0] == Door(map[], [], [], 0) && n <= |steps|
    ensures (forall i :: 0 <= i <= n ==> WithinLimit(states[i].clients, viaRelay))
            <==> (forall i :: 0 <= i < n ==> !Overfills(states[i], steps[i], viaRelay))
    decreases n
  {
    if n == 0 {
      assert Handshaking(states[0].clients, viaRelay) == {};
    } else {
      LimitHoldsUnless(states, steps, viaRelay, n - 1);
      if forall i :: 0 <= i < n ==> WithinLimit(states[i].clients, viaRelay) {
        assert WithinLimit(states[n - 1].clients, viaRelay);
        StepOverfills(states[n - 1], steps[n - 1], viaRelay);
        assert states[n] == Next(states[n - 1], steps[n - 1]);
      }
    }
  }

  /** One more arrival from the local network where there is a slot. */
  lemma OneArrives(d: Door, n: nat)
    requires d.arrivals == n + 1 && n < MAXIMUM_UNAUTHENTICATED && |Handshaking(d.clients, false)| == n
    requires 0 in d.clients && d.clients[0] == Client(false, Authenticated) && d.arrivals !in d.clients
    requires forall id :: id in d.clients ==> id < d.arrivals
    ensures var r := Next(d, Accept(false, true));
            && r.arrivals == n + 2 && |Handshaking(r.clients, false)| == n + 1
            && 0 in r.clients && r.clients[0] == Client(false, Authenticated) && r.arrivals !in r.clients
            && forall id :: id in r.clients ==> id < r.arrivals
  {
    var r := Next(d, Accept(false, true));
    assert Handshaking(r.clients, false) == Handshaking(d.clients, false) + {d.arrivals};
  }

  /** Such a run: one connection pairs, four more come, the pairing ends. */
  lemma SpentConnectionsExceedTheLimit() returns (states: seq<Door>, steps: seq<Step>)
    ensures IsRun(states, steps) && states[0] == Door(map[], [], [], 0)
    ensures |steps| == 7 && Overfills(states[6], steps[6], false)
    ensures |Handshaking(states[7].clients, false)| == MAXIMUM_UNAUTHENTICATED + 1
  {
    var accept := Accept(false, true);
    var none := Door(map[], [], [], 0);
    assert Handshaking(none.clients, false) == {};
    var came := Next(none, accept);
    var pairing := Next(came, FirstFrame(0));
    assert pairing == Door(map[0 := Client(false, Authenticated)], [], [Waiting(0, false)], 1);
    assert Handshaking(pairing.clients, false) == {};
    OneArrives(pairing, 0);
    var one := Next(pairing, accept);
    OneArrives(one, 1);
    var two := Next(one, accept);
    OneArrives(two, 2);
    var three := Next(two, accept);
    OneArrives(three, 3);
    var four := Next(three, accept);
    PairingOverAddsOne(four, 0);
    states := [none, came, pairing, one, two, three, four, Next(four, PairingOver(0))];
    steps := [accept, FirstFrame(0), accept, accept, accept, accept, PairingOver(0)];
  }
}
