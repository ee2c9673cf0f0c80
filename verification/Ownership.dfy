/**
 Which of a device's connections holds which terminal session. A connection
 whose link is gone keeps its holds for a while; one that attaches takes the
 session from whichever held it. The service knows of holds only by the
 daemon's replies and events, in the order they come.
 */
module Ownership {

  /** A connection past its handshake: its device, its sessions, and whether
      its daemon peer is there. */
  datatype Client = Client(device: string, held: set<nat>, daemon: bool)

  type Clients = map<nat, Client>

  /** Live connections and lingering ones. */
  datatype Table = Table(clients: Clients, lingering: Clients)

  predicate Known(t: Table, id: nat)
  {
    id in t.clients || id in t.lingering
  }

  function Of(t: Table, id: nat): (c: Client)
    requires Known(t, id)
  {
    if id in t.clients then t.clients[id] else t.lingering[id]
  }

  predicate Holds(t: Table, id: nat, device: string, session: nat)
  {
    Known(t, id) && Of(t, id).device == device && session in Of(t, id).held
  }

  function WithHeld(t: Table, id: nat, held: set<nat>): (r: Table)
    requires Known(t, id)
  {
    if id in t.clients then t.(clients := t.clients[id := t.clients[id].(held := held)])
    else t.(lingering := t.lingering[id := t.lingering[id].(held := held)])
  }

  /** There is no reason to linger without holds. */
  function GoneIfEmpty(t: Table, id: nat): (r: Table)
  {
    if id in t.lingering && t.lingering[id].held == {} then t.(lingering := t.lingering - {id}) else t
  }

  function LetGo(t: Table, id: nat, session: nat): (r: Table)
    requires Known(t, id)
  {
    GoneIfEmpty(WithHeld(t, id, Of(t, id).held - {session}), id)
  }

  function Granted(t: Table, id: nat, session: nat): (r: Table)
    requires Known(t, id)
  {
    WithHeld(t, id, Of(t, id).held + {session})
  }

  /** The connections of a device, other than `id`, that hold a session. */
  function Holders(t: Table, session: nat, device: string, id: nat): set<nat>
  {
    set other | other in t.clients.Keys + t.lingering.Keys && other != id && Holds(t, other, device, session)
  }

  datatype Event =
    | Connects(id: nat, device: string)
    | OpenGranted(id: nat, session: nat)
    | AttachGranted(id: nat, session: nat, previous: nat)
    | LetsGo(id: nat, session: nat)
    | Taken(id: nat, session: nat)
    | DaemonLost(id: nat)
    | Closed(id: nat)
    | GraceOver(id: nat)
    | Revoked(device: string)

  /** `previous` is whichever holder was found, if there is one. */
  predicate Enabled(t: Table, e: Event)
  {
    match e
    case Connects(id, _) => !Known(t, id)
    case OpenGranted(id, _) => Known(t, id)
    case AttachGranted(id, session, previous) =>
      && Known(t, id)
      && var holders := Holders(t, session, Of(t, id).device, id);
         holders == {} || previous in holders
    case LetsGo(id, _) => id in t.clients
    case Taken(id, _) => Known(t, id)
    case DaemonLost(id) => Known(t, id)
    case Closed(id) => id in t.clients
    case _ => true
  }

  /** Granted: held by `id`, and let go by the one it was taken from. */
  function Attached(t: Table, id: nat, session: nat, previous: nat): (r: Table)
    requires Known(t, id)
    requires Holders(t, session, Of(t, id).device, id) == {} || previous in Holders(t, session, Of(t, id).device, id)
  {
    var granted := WithHeld(t, id, Of(t, id).held + {session});
    if Holders(t, session, Of(t, id).device, id) == {} then granted else LetGo(granted, previous, session)
  }

  function Ended(t: Table, id: nat): (r: Table)
    requires id in t.clients
  {
    var c := t.clients[id];
    if c.daemon && c.held != {} then Table(t.clients - {id}, t.lingering[id := c])
    else t.(clients := t.clients - {id})
  }

  /** The daemon peer failed: nothing is held, and nothing to linger for. */
  function Lost(t: Table, id: nat): (r: Table)
    requires Known(t, id)
  {
    GoneIfEmpty(WithHeld(t, id, {}), id)
  }

  function Next(t: Table, e: Event): (r: Table)
    requires Enabled(t, e)
  {
    match e
    case Connects(id, device) => t.(clients := t.clients[id := Client(device, {}, true)])
    case OpenGranted(id, session) => Granted(t, id, session)
    case AttachGranted(id, session, previous) => Attached(t, id, session, previous)
    case LetsGo(id, session) => WithHeld(t, id, t.clients[id].held - {session})
    case Taken(id, session) => LetGo(t, id, session)
    case DaemonLost(id) => Lost(t, id)
    case Closed(id) => Ended(t, id)
    case GraceOver(id) => t.(lingering := t.lingering - {id})
    case Revoked(device) =>
      t.(lingering := map id | id in t.lingering && t.lingering[id].device != device :: t.lingering[id])
  }

  // -------------------------------------------------------------- The object

  class RemoteService {
    var clients: Clients
    var lingering: Clients

    ghost function Value(): Table
      reads this
    {
      Table(clients, lingering)
    }

    constructor ()
      ensures Value() == Table(map[], map[])
    {
      clients, lingering := map[], map[];
    }

    /** Another connection of the device that holds a session, if any does. */
    method Holder(session: nat, device: string, id: nat) returns (found: bool, previous: nat)
      ensures found <==> Holders(Value(), session, device, id) != {}
      ensures found ==> previous in Holders(Value(), session, device, id)
    {
      var holders := set other | other in clients.Keys + lingering.Keys && other != id
                             && (if other in clients then clients[other] else lingering[other]).device == device
                             && session in (if other in clients then clients[other] else lingering[other]).held;
      assert holders == Holders(Value(), session, device, id);
      found, previous := holders != {}, id;
      if found {
        previous :| previous in holders;
      }
    }

    method SetHeld(id: nat, held: set<nat>)
      requires id in clients || id in lingering
      modifies this`clients, this`lingering
      ensures Value() == WithHeld(old(Value()), id, held)
    {
      if id in clients {
        clients := clients[id := clients[id].(held := held)];
      } else {
        lingering := lingering[id := lingering[id].(held := held)];
      }
    }

    method EndLingerIfEmpty(id: nat)
      modifies this`lingering
      ensures Value() == GoneIfEmpty(old(Value()), id)
    {
      if id in lingering && lingering[id].held == {} {
        lingering := lingering - {id};
      }
    }

    /** A reconnect took the session, or an event said it is not held. */
    method Yield(id: nat, session: nat)
      requires id in clients || id in lingering
      modifies this`clients, this`lingering
      ensures Value() == LetGo(old(Value()), id, session)
    {
      var held := (if id in clients then clients[id] else lingering[id]).held;
      SetHeld(id, held - {session});
      EndLingerIfEmpty(id);
    }

    method NoteAttached(id: nat, session: nat) returns (ghost previous: nat)
      requires id in clients || id in lingering
      modifies this
      ensures Enabled(old(Value()), AttachGranted(id, session, previous))
      ensures Value() == Next(old(Value()), AttachGranted(id, session, previous))
    {
      var client := if id in clients then clients[id] else lingering[id];
      var found, other := Holder(session, client.device, id);
      previous := other;
      SetHeld(id, client.held + {session});
      if found {
        Yield(other, session);
      }
    }

    method NoteOpened(id: nat, session: nat)
      requires id in clients || id in lingering
      modifies this
      ensures Value() == Next(old(Value()), OpenGranted(id, session))
    {
      var client := if id in clients then clients[id] else lingering[id];
      SetHeld(id, client.held + {session});
    }

    method DaemonFailed(id: nat)
      requires id in clients || id in lingering
      modifies this`clients, this`lingering
      ensures Value() == Next(old(Value()), DaemonLost(id))
    {
      SetHeld(id, {});
      EndLingerIfEmpty(id);
    }

    method ClientClosed(id: nat)
      requires id in clients
      modifies this`clients, this`lingering
      ensures Value() == Next(old(Value()), Closed(id))
    {
      var client := clients[id];
      clients := clients - {id};
      if client.daemon && client.held != {} {
        lingering := lingering[id := client];
      }
    }

    method EndLinger(id: nat)
      modifies this`lingering
      ensures Value() == Next(old(Value()), GraceOver(id))
    {
      lingering := lingering - {id};
    }
  }

  // --------------------------------------------------------------- Invariants

  /** For each device and session, at most one connection holds it. */
  ghost predicate Exclusive(t: Table)
  {
    forall a, b, device, session :: Holds(t, a, device, session) && Holds(t, b, device, session) ==> a == b
  }

  ghost predicate KeptOne(t: Table, id: nat)
    requires Known(t, id)
  {
    Of(t, id).daemon && (id in t.lingering ==> Of(t, id).held != {})
  }

  /** No connection is in both tables, and a lingering one holds something. */
  ghost predicate Kept(t: Table)
  {
    && t.clients.Keys !! t.lingering.Keys
    && (forall id :: Known(t, id) ==> KeptOne(t, id))
  }

  ghost predicate Good(t: Table)
  {
    Exclusive(t) && Kept(t)
  }

  /** Setting what one connection holds leaves the others alone. */
  lemma WithHeldHolds(t: Table, id: nat, held: set<nat>)
    requires Kept(t) && Known(t, id)
    ensures var r := WithHeld(t, id, held);
            && r.clients.Keys == t.clients.Keys && r.lingering.Keys == t.lingering.Keys
            && (forall other :: Known(r, other) ==>
                  Of(r, other) == if other == id then Of(t, id).(held := held) else Of(t, other))
  {
  }

  /** A grant adds one hold, and keeps the tables as they should be. */
  lemma GrantAddsOne(t: Table, id: nat, session: nat)
    requires Kept(t) && Known(t, id)
    ensures Kept(Granted(t, id, session))
    ensures forall other, d, s ::
      Holds(Granted(t, id, session), other, d, s)
      <==> (Holds(t, other, d, s) || (other == id && d == Of(t, id).device && s == session))
  {
    var r := Granted(t, id, session);
    WithHeldHolds(t, id, Of(t, id).held + {session});
    forall other | Known(r, other)
      ensures KeptOne(r, other)
    {
      assert KeptOne(t, other);
    }
  }

  /** Letting go takes one hold away, and a connection that lingers for
      nothing with it. */
  lemma LetGoTakesOne(t: Table, id: nat, session: nat)
    requires Kept(t) && Known(t, id)
    ensures Kept(LetGo(t, id, session))
    ensures forall other, d, s ::
      Holds(LetGo(t, id, session), other, d, s) <==> (Holds(t, other, d, s) && !(other == id && s == session))
  {
    var r := LetGo(t, id, session);
    WithHeldHolds(t, id, Of(t, id).held - {session});
    forall other | Known(r, other)
      ensures Known(t, other) && KeptOne(r, other)
      ensures Of(r, other) == if other == id then Of(t, id).(held := Of(t, id).held - {session}) else Of(t, other)
    {
      assert KeptOne(t, other);
    }
    forall other, d, s
      ensures Holds(r, other, d, s) <==> (Holds(t, other, d, s) && !(other == id && s == session))
    {
      if Known(t, other) && !Known(r, other) {
        assert other == id && Of(t, id).held <= {session};
      }
    }
  }

  /** A session opened for a connection keeps holds exclusive exactly when no
      other connection of the device is known to hold it. */
  lemma OpenIsExclusive(t: Table, id: nat, session: nat)
    requires Good(t) && Known(t, id)
    ensures Exclusive(Granted(t, id, session)) <==> Holders(t, session, Of(t, id).device, id) == {}
  {
    var (device, r) := (Of(t, id).device, Granted(t, id, session));
    var holders := Holders(t, session, device, id);
    GrantAddsOne(t, id, session);
    if holders != {} {
      var other :| other in holders;
      assert Holds(r, other, device, session) && Holds(r, id, device, session);
    } else {
      forall a, b, d, s | Holds(r, a, d, s) && Holds(r, b, d, s)
        ensures a == b
      {
        assert a == id || d != device || s != session || a in holders;
        assert b == id || d != device || s != session || b in holders;
      }
    }
  }

  lemma AttachKeeps(t: Table, id: nat, session: nat, previous: nat)
    requires Kept(t) && Enabled(t, AttachGranted(id, session, previous))
    ensures Kept(Next(t, AttachGranted(id, session, previous)))
  {
    GrantAddsOne(t, id, session);
    if Holders(t, session, Of(t, id).device, id) != {} {
      LetGoTakesOne(Granted(t, id, session), previous, session);
    }
  }

  /** An attach granted: `id` alone of its device holds the session now;
      whoever held it lets go of that and nothing else; no other hold of
      anyone changes. */
  lemma AttachTakesOver(t: Table, id: nat, session: nat, previous: nat)
    requires Good(t) && Enabled(t, AttachGranted(id, session, previous))
    ensures var r := Next(t, AttachGranted(id, session, previous));
            && Good(r)
            && forall other, d, s :: Holds(r, other, d, s)
                 <==> (if d == Of(t, id).device && s == session then other == id else Holds(t, other, d, s))
  {
    var device := Of(t, id).device;
    var holders := Holders(t, session, device, id);
    var r := Next(t, AttachGranted(id, session, previous));
    AttachKeeps(t, id, session, previous);
    GrantAddsOne(t, id, session);
    if holders != {} {
      LetGoTakesOne(Granted(t, id, session), previous, session);
      assert r == LetGo(Granted(t, id, session), previous, session);
    }
    forall other, d, s
      ensures Holds(r, other, d, s) <==> (if d == device && s == session then other == id else Holds(t, other, d, s))
    {
      assert other == id || !Holds(t, other, device, session) || other in holders;
      assert holders != {} ==> Holds(t, previous, device, session);
    }
    forall a, b, d, s | Holds(r, a, d, s) && Holds(r, b, d, s)
      ensures a == b
    {
    }
  }

  /** Nobody holds what they did not. */
  ghost predicate FewerHolds(t: Table, r: Table)
  {
    forall other, d, s :: Holds(r, other, d, s) ==> Holds(t, other, d, s)
  }

  lemma FewerHoldsAreExclusive(t: Table, r: Table)
    requires Exclusive(t) && FewerHolds(t, r)
    ensures Exclusive(r)
  {
  }

  /** A link that ends takes nothing from its device: every session it held
      is held still, until the grace is over or it is taken up. */
  lemma ClosingKeepsHolds(t: Table, id: nat)
    requires Kept(t) && id in t.clients
    ensures Kept(Ended(t, id)) && id !in Ended(t, id).clients
    ensures forall other, d, s :: Holds(Ended(t, id), other, d, s) <==> Holds(t, other, d, s)
  {
    var r := Ended(t, id);
    assert KeptOne(t, id);
    forall other | Known(r, other)
      ensures Known(t, other) && KeptOne(r, other)
    {
      assert KeptOne(t, other);
    }
  }

  lemma LosingKeeps(t: Table, id: nat)
    requires Kept(t) && Known(t, id)
    ensures Kept(Lost(t, id)) && FewerHolds(t, Lost(t, id))
  {
    var r := Lost(t, id);
    WithHeldHolds(t, id, {});
    forall other | Known(r, other)
      ensures Known(t, other) && KeptOne(r, other)
    {
      assert KeptOne(t, other);
    }
  }

  lemma ForgettingKeeps(t: Table, e: Event)
    requires Kept(t) && Enabled(t, e) && (e.GraceOver? || e.Revoked? || e.Connects?)
    ensures Kept(Next(t, e)) && FewerHolds(t, Next(t, e))
  {
    var r := Next(t, e);
    forall other | Known(r, other)
      ensures KeptOne(r, other)
    {
      assert Known(t, other) ==> KeptOne(t, other);
    }
  }

  lemma LettingGoKeeps(t: Table, e: Event)
    requires Kept(t) && Enabled(t, e) && (e.LetsGo? || e.Taken?)
    ensures Kept(Next(t, e)) && FewerHolds(t, Next(t, e))
  {
    LetGoTakesOne(t, e.id, e.session);
  }

  /** Every event but a grant keeps the tables as they should be and gives
      nobody a session. */
  lemma OtherEventsKeep(t: Table, e: Event)
    requires Kept(t) && Enabled(t, e) && !e.OpenGranted? && !e.AttachGranted?
    ensures Kept(Next(t, e)) && FewerHolds(t, Next(t, e))
  {
    match e {
      case LetsGo(_, _) => LettingGoKeeps(t, e);
      case Taken(_, _) => LettingGoKeeps(t, e);
      case DaemonLost(id) => LosingKeeps(t, id);
      case Closed(id) => ClosingKeepsHolds(t, id);
      case _ => ForgettingKeeps(t, e);
    }
  }

  lemma EventKeeps(t: Table, e: Event)
    requires Kept(t) && Enabled(t, e)
    ensures Kept(Next(t, e))
  {
    if e.OpenGranted? {
      GrantAddsOne(t, e.id, e.session);
    } else if e.AttachGranted? {
      AttachKeeps(t, e.id, e.session, e.previous);
    } else {
      OtherEventsKeep(t, e);
    }
  }

  /** The reply to an open that comes after another connection of the device
      was granted the session. */
  predicate LateOpen(t: Table, e: Event)
    requires Enabled(t, e)
  {
    e.OpenGranted? && Holders(t, e.session, Of(t, e.id).device, e.id) != {}
  }

  /** From where holds are exclusive, an event leaves them so if and only if
      it is not such a reply. */
  lemma EventIsExclusive(t: Table, e: Event)
    requires Good(t) && Enabled(t, e)
    ensures Exclusive(Next(t, e)) <==> !LateOpen(t, e)
  {
    if e.OpenGranted? {
      OpenIsExclusive(t, e.id, e.session);
    } else if e.AttachGranted? {
      AttachTakesOver(t, e.id, e.session, e.previous);
    } else {
      OtherEventsKeep(t, e);
      FewerHoldsAreExclusive(t, Next(t, e));
    }
  }

  ghost predicate IsRun(tables: seq<Table>, events: seq<Event>)
  {
    && |tables| == |events| + 1
    && (forall i :: 0 <= i < |events| ==> Enabled(tables[i], events[i]) && tables[i + 1] == Next(tables[i], events[i]))
  }

  /** In every state of every run no connection is in both tables, and a
      lingering one holds something. */
  lemma {:induction false} TablesHold(tables: seq<Table>, events: seq<Event>, i: nat)
    requires IsRun(tables, events) && tables[0] == Table(map[], map[]) && i < |tables|
    ensures Kept(tables[i])
  {
    if i > 0 {
      TablesHold(tables, events, i - 1);
      EventKeeps(tables[i - 1], events[i - 1]);
    }
  }

  /** For each device and session at most one of its live or lingering
      connections holds the session, all along a run, if and only if no reply
      to an open in it was late. */
  lemma {:induction false} OwnershipHolds(tables: seq<Table>, events: seq<Event>, n: nat)
    requires IsRun(tables, events) && tables[0] == Table(map[], map[]) && n <= |events|
    ensures (forall i :: 0 <= i <= n ==> Exclusive(tables[i]))
            <==> (forall i :: 0 <= i < n ==> !LateOpen(tables[i], events[i]))
    decreases n
  {
    if n > 0 {
      OwnershipHolds(tables, events, n - 1);
      if forall i :: 0 <= i < n ==> Exclusive(tables[i]) {
        TablesHold(tables, events, n - 1);
        assert Exclusive(tables[n - 1]);
        EventIsExclusive(tables[n - 1], events[n - 1]);
        assert tables[n] == Next(tables[n - 1], events[n - 1]);
      }
    }
  }

  /** A run with a late reply: the device opened a session on one connection
      and attached it on another, and heard of the attach first. The daemon's
      word to the first that it was taken sets it right. */
  lemma LateOpenIsHeldTwice(device: string) returns (tables: seq<Table>, events: seq<Event>)
    ensures IsRun(tables, events) && tables[0] == Table(map[], map[]) && |events| == 5
    ensures LateOpen(tables[3], events[3])
    ensures Holds(tables[4], 1, device, 5) && Holds(tables[4], 2, device, 5) && !Exclusive(tables[4])
    ensures Exclusive(tables[5]) && Holds(tables[5], 2, device, 5)
  {
    events := [Connects(1, device), Connects(2, device), AttachGranted(2, 5, 0), OpenGranted(1, 5), Taken(1, 5)];
    var nothing: set<nat> := {};
    assert nothing + {5} == {5} && {5} - {5} == nothing;
    var none := Table(map[], map[]);
    var one := Next(none, events[0]);
    var both := Next(one, events[1]);
    assert both.clients == map[1 := Client(device, {}, true), 2 := Client(device, {}, true)];
    assert Holders(both, 5, device, 2) == {};
    var attached := Next(both, events[2]);
    assert attached.clients == map[1 := Client(device, {}, true), 2 := Client(device, {5}, true)];
    assert 2 in Holders(attached, 5, device, 1);
    var late := Next(attached, events[3]);
    assert late.clients == map[1 := Client(device, {5}, true), 2 := Client(device, {5}, true)];
    var taken := Next(late, events[4]);
    assert taken.clients == map[1 := Client(device, {}, true), 2 := Client(device, {5}, true)];
    assert Holds(late, 1, device, 5) && Holds(late, 2, device, 5);
    tables := [none, one, both, attached, late, taken];
  }
}
