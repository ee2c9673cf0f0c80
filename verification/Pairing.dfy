/**
 How a device gets paired while the window for it is open: who may begin an
 exchange, what failing costs and when that shuts the window, and what ends
 up in the table of devices.
 */
module Pairing {
  import opened Wrappers

  const ATTEMPT_LIMIT := 3
  const MAXIMUM_DEVICES := 32

  datatype Device = Device(id: string, name: string, key: string)

  // ------------------------------------------------------------- The devices

  function Others(devices: seq<Device>, id: string): (r: seq<Device>)
    ensures |r| <= |devices|
    ensures forall d :: d in r <==> d in devices && d.id != id
  {
    if devices == [] then []
    else if devices[0].id == id then Others(devices[1..], id)
    else [devices[0]] + Others(devices[1..], id)
  }

  function Find(devices: seq<Device>, id: string): (r: Option<Device>)
    ensures r.Some? ==> r.value in devices && r.value.id == id
    ensures r.None? <==> forall d :: d in devices ==> d.id != id
  {
    if devices == [] then None else if devices[0].id == id then Some(devices[0]) else Find(devices[1..], id)
  }

  function Added(devices: seq<Device>, device: Device): seq<Device>
  {
    Others(devices, device.id) + [device]
  }

  ghost predicate Distinct(devices: seq<Device>)
  {
    forall i, j :: 0 <= i < j < |devices| ==> devices[i].id != devices[j].id
  }

  lemma {:induction false} OthersAreDistinct(devices: seq<Device>, id: string)
    requires Distinct(devices)
    ensures Distinct(Others(devices, id))
    ensures |Others(devices, id)| == |devices| - if Find(devices, id).Some? then 1 else 0
  {
    if devices != [] {
      assert Distinct(devices[1..]);
      OthersAreDistinct(devices[1..], id);
      var rest := Others(devices[1..], id);
      if devices[0].id == id {
        assert Find(devices[1..], id).None?;
      } else {
        forall j | 0 <= j < |rest|
          ensures rest[j].id != devices[0].id
        {
          assert rest[j] in devices[1..];
        }
      }
    }
  }

  /** A device stored: found again as it was stored, no other touched, ids
      still distinct, and one more only if it was not there. */
  lemma AddedIsFound(devices: seq<Device>, device: Device)
    requires Distinct(devices)
    ensures Distinct(Added(devices, device)) && Find(Added(devices, device), device.id) == Some(device)
    ensures forall id :: id != device.id ==> Find(Added(devices, device), id) == Find(devices, id)
    ensures |Added(devices, device)| == |devices| + if Find(devices, device.id).Some? then 0 else 1
  {
    var others := Others(devices, device.id);
    OthersAreDistinct(devices, device.id);
    FindInTwo(others, device, device.id);
    forall id | id != device.id
      ensures Find(Added(devices, device), id) == Find(devices, id)
    {
      FindInTwo(others, device, id);
      FindPastOthers(devices, device.id, id);
    }
  }

  lemma {:induction false} FindInTwo(others: seq<Device>, device: Device, id: string)
    ensures Find(others + [device], id)
         == if Find(others, id).Some? then Find(others, id) else if device.id == id then Some(device) else None
  {
    if others == [] {
      assert others + [device] == [device];
    } else {
      assert (others + [device])[1..] == others[1..] + [device];
      FindInTwo(others[1..], device, id);
    }
  }

  lemma {:induction false} FindPastOthers(devices: seq<Device>, removed: string, id: string)
    requires removed != id
    ensures Find(Others(devices, removed), id) == Find(devices, id)
  {
    if devices != [] {
      FindPastOthers(devices[1..], removed, id);
    }
  }

  // -------------------------------------------------------------- The window

  /** Which window it is, what was spent in it, and the client mid-exchange. */
  datatype Window = Window(
    number: nat, attemptsUsed: nat, relayAttemptsUsed: nat, failures: nat,
    active: Option<nat>, activeViaRelay: bool, allowsRelay: bool)

  /** A client's exchange: the device it is for, the window it began in, and
      whether its connection has stopped taking frames. */
  datatype Exchange = Exchange(deviceID: string, window: nat, viaRelay: bool, closing: bool)

  /** The host's pairing state; `windows` counts the windows opened, and
      `begun` is every exchange begun, by window and path. */
  datatype Host = Host(
    window: Option<Window>, devices: seq<Device>, exchanges: map<nat, Exchange>,
    windows: nat, begun: seq<(nat, bool)>)

  datatype Refusal = NotOpen | NotThroughRelay | Busy | Full

  function Closing(exchanges: map<nat, Exchange>): (r: map<nat, Exchange>)
    ensures r.Keys == exchanges.Keys
    ensures forall c :: c in r ==> r[c] == exchanges[c].(closing := true)
  {
    map c | c in exchanges :: exchanges[c].(closing := true)
  }

  function FailedWindow(w: Window): (r: Option<Window>)
  {
    var failed := w.(active := None, activeViaRelay := false, failures := w.failures + 1);
    if w.activeViaRelay then
      Some(failed.(allowsRelay := w.allowsRelay && w.relayAttemptsUsed < ATTEMPT_LIMIT))
    else if w.attemptsUsed >= ATTEMPT_LIMIT then None
    else Some(failed)
  }

  /** The attempt under way failed. Spending the last closes the window, on
      the local network; to the relay, on the relay. */
  function Failed(h: Host): Host
  {
    if h.window.None? then h
    else
      var w := FailedWindow(h.window.value);
      h.(window := w, exchanges := if w.None? then Closing(h.exchanges) else h.exchanges)
  }

  function Refuses(h: Host, deviceID: string, viaRelay: bool): (r: Option<Refusal>)
  {
    if h.window.None? then Some(NotOpen)
    else if viaRelay && !h.window.value.allowsRelay then Some(NotThroughRelay)
    else if h.window.value.active.Some? then Some(Busy)
    else if |h.devices| >= MAXIMUM_DEVICES && Find(h.devices, deviceID).None? then Some(Full)
    else None
  }

  function SpentBy(w: Window, client: nat, viaRelay: bool): Window
  {
    w.(active := Some(client), activeViaRelay := viaRelay,
       attemptsUsed := w.attemptsUsed + (if viaRelay then 0 else 1),
       relayAttemptsUsed := w.relayAttemptsUsed + if viaRelay then 1 else 0)
  }

  function Expired(h: Host, expired: bool): Host
  {
    if expired then h.(window := None) else h
  }

  /** `pairStart`: an attempt is spent, unless refused, and the exchange is
      the client's unless its share is bad. */
  function Begin(h: Host, client: nat, viaRelay: bool, deviceID: string, shareIsGood: bool): Host
  {
    if Refuses(h, deviceID, viaRelay).Some? then h
    else
      var w := h.window.value;
      var spent := h.(window := Some(SpentBy(w, client, viaRelay)), begun := h.begun + [(w.number, viaRelay)]);
      if shareIsGood then spent.(exchanges := h.exchanges[client := Exchange(deviceID, w.number, viaRelay, false)])
      else Failed(spent)
  }

  predicate IsActive(h: Host, client: nat)
  {
    h.window.Some? && h.window.value.active == Some(client)
  }

  /** `pairFinish`: only a confirmation from the active client pairs; whatever
      comes of it, this exchange is over. */
  function Finish(h: Host, client: nat, confirms: bool, device: Device): Host
  {
    var outcome :=
      if !IsActive(h, client) then h
      else if !confirms then Failed(h)
      else h.(devices := Added(h.devices, device), window := None);
    outcome.(exchanges := outcome.exchanges - {client})
  }

  /** The connection is gone: an exchange never finished is a failed one. */
  function Gone(h: Host, client: nat): Host
  {
    var left := h.(exchanges := h.exchanges - {client});
    if IsActive(h, client) then Failed(left) else left
  }

  datatype Step =
    | Open(allowsRelay: bool)
    | End
    | Expire
    | Start(client: nat, viaRelay: bool, deviceID: string, expired: bool, shareIsGood: bool)
    | Confirm(client: nat, confirms: bool, name: string, key: string)
    | Hangs(client: nat)
    | Leave(client: nat)
    | Revoke(deviceID: string)

  /** A client starts once, before anything else; finishes while its frames
      are still taken. */
  predicate Enabled(h: Host, step: Step)
  {
    match step
    case Start(client, _, _, _, _) => client !in h.exchanges && !IsActive(h, client)
    case Confirm(client, _, _, _) => client in h.exchanges && !h.exchanges[client].closing
    case Hangs(client) => client in h.exchanges
    case _ => true
  }

  function Next(h: Host, step: Step): Host
    requires Enabled(h, step)
  {
    match step
    case Open(allowsRelay) =>
      h.(window := Some(Window(h.windows, 0, 0, 0, None, false, allowsRelay)), windows := h.windows + 1,
         exchanges := Closing(h.exchanges))
    case End => h.(window := None, exchanges := Closing(h.exchanges))
    case Expire => h.(window := None)
    case Start(client, viaRelay, deviceID, expired, shareIsGood) =>
      Begin(Expired(h, expired), client, viaRelay, deviceID, shareIsGood)
    case Confirm(client, confirms, name, key) =>
      Finish(h, client, confirms, Device(h.exchanges[client].deviceID, name, key))
    case Hangs(client) => h.(exchanges := h.exchanges[client := h.exchanges[client].(closing := true)])
    case Leave(client) => Gone(h, client)
    case Revoke(deviceID) => h.(devices := Others(h.devices, deviceID))
  }

  // ------------------------------------------------------------- The objects

  class RemoteStore {
    var devices: seq<Device>

    constructor (devices: seq<Device>)
      ensures this.devices == devices
    {
      this.devices := devices;
    }

    method Add(device: Device)
      modifies this
      ensures devices == Added(old(devices), device)
    {
      devices := Others(devices, device.id);
      devices := devices + [device];
    }

    method Remove(deviceID: string) returns (removed: bool)
      modifies this
      ensures devices == Others(old(devices), deviceID)
      ensures removed ==> |devices| < |old(devices)|
    {
      var before := |devices|;
      devices := Others(devices, deviceID);
      removed := |devices| != before;
    }
  }

  class RemoteService {
    const store: RemoteStore
    var pairing: Option<Window>
    var exchanges: map<nat, Exchange>
    var windows: nat
    var begun: seq<(nat, bool)>

    ghost function Value(): Host
      reads this, store
    {
      Host(pairing, store.devices, exchanges, windows, begun)
    }

    constructor (store: RemoteStore)
      ensures this.store == store && Value() == Host(None, store.devices, map[], 0, [])
    {
      this.store := store;
      pairing, exchanges, windows, begun := None, map[], 0, [];
    }

    method OpenWindow(allowsRelay: bool)
      modifies this
      ensures Value() == Next(old(Value()), Open(allowsRelay))
    {
      pairing := Some(Window(windows, 0, 0, 0, None, false, allowsRelay));
      windows := windows + 1;
      exchanges := Closing(exchanges);
    }

    method EndWindow()
      modifies this
      ensures Value() == Next(old(Value()), End)
    {
      pairing := None;
      exchanges := Closing(exchanges);
    }

    method RecordPairingFailure()
      modifies this
      ensures Value() == Failed(old(Value()))
    {
      if pairing.None? {
        return;
      }
      var window := pairing.value;
      var wasRelayed := window.activeViaRelay;
      window := window.(active := None, activeViaRelay := false, failures := window.failures + 1);
      if wasRelayed {
        if window.relayAttemptsUsed >= ATTEMPT_LIMIT && window.allowsRelay {
          window := window.(allowsRelay := false);
        }
        pairing := Some(window);
        return;
      }
      if window.attemptsUsed >= ATTEMPT_LIMIT {
        pairing := None;
        exchanges := Closing(exchanges);
        return;
      }
      pairing := Some(window);
    }

    /** Spends an attempt, or says why not. */
    method Admit(client: nat, viaRelay: bool, deviceID: string) returns (refusal: Option<Refusal>)
      modifies this`pairing, this`begun
      ensures refusal == Refuses(old(Value()), deviceID, viaRelay)
      ensures refusal.Some? ==> Value() == old(Value())
      ensures refusal.None? ==>
        (Value() == old(Value()).(window := Some(SpentBy(old(pairing).value, client, viaRelay)),
                                  begun := old(begun) + [(old(pairing).value.number, viaRelay)]))
    {
      if pairing.None? {
        return Some(NotOpen);
      }
      var window := pairing.value;
      if viaRelay && !window.allowsRelay {
        return Some(NotThroughRelay);
      }
      if window.active.Some? {
        return Some(Busy);
      }
      if |store.devices| >= MAXIMUM_DEVICES && Find(store.devices, deviceID).None? {
        return Some(Full);
      }
      if viaRelay {
        window := window.(relayAttemptsUsed := window.relayAttemptsUsed + 1);
      } else {
        window := window.(attemptsUsed := window.attemptsUsed + 1);
      }
      window := window.(active := Some(client), activeViaRelay := viaRelay);
      begun := begun + [(window.number, viaRelay)];
      pairing := Some(window);
      refusal := None;
    }

    method BeginPairing(client: nat, viaRelay: bool, deviceID: string, expired: bool, shareIsGood: bool)
      returns (begins: bool)
      requires Enabled(Value(), Start(client, viaRelay, deviceID, expired, shareIsGood))
      modifies this
      ensures Value() == Next(old(Value()), Start(client, viaRelay, deviceID, expired, shareIsGood))
      ensures begins <==> shareIsGood && Refuses(Expired(old(Value()), expired), deviceID, viaRelay).None?
    {
      if expired {
        pairing := None;
      }
      var refusal := Admit(client, viaRelay, deviceID);
      if refusal.Some? {
        return false;
      }
      if !shareIsGood {
        RecordPairingFailure();
        return false;
      }
      exchanges := exchanges[client := Exchange(deviceID, pairing.value.number, viaRelay, false)];
      begins := true;
    }

    method FinishPairing(client: nat, confirms: bool, name: string, key: string) returns (paired: bool)
      requires Enabled(Value(), Confirm(client, confirms, name, key))
      modifies this, store
      ensures Value() == Next(old(Value()), Confirm(client, confirms, name, key))
      ensures paired <==> confirms && IsActive(old(Value()), client)
    {
      var device := Device(exchanges[client].deviceID, name, key);
      if pairing.Some? && pairing.value.active == Some(client) {
        if confirms {
          store.Add(device);
          pairing := None;
          paired := true;
        } else {
          RecordPairingFailure();
          paired := false;
        }
      } else {
        paired := false;
      }
      exchanges := exchanges - {client};
    }

    method ClientClosed(client: nat)
      modifies this
      ensures Value() == Next(old(Value()), Leave(client))
    {
      exchanges := exchanges - {client};
      if pairing.Some? && pairing.value.active == Some(client) {
        RecordPairingFailure();
      }
    }
  }

  // --------------------------------------------------------------- Invariants

  function Count(begun: seq<(nat, bool)>, number: nat, viaRelay: bool): nat
  {
    if begun == [] then 0
    else Count(begun[..|begun| - 1], number, viaRelay) + if begun[|begun| - 1] == (number, viaRelay) then 1 else 0
  }

  lemma CountOneMore(begun: seq<(nat, bool)>, b: (nat, bool), number: nat, viaRelay: bool)
    ensures Count(begun + [b], number, viaRelay)
         == Count(begun, number, viaRelay) + if b == (number, viaRelay) then 1 else 0
  {
    assert (begun + [b])[..|begun|] == begun;
  }

  lemma {:induction false} NoneBegunYet(begun: seq<(nat, bool)>, windows: nat, viaRelay: bool)
    requires forall i :: 0 <= i < |begun| ==> begun[i].0 < windows
    ensures Count(begun, windows, viaRelay) == 0
  {
    if begun != [] {
      NoneBegunYet(begun[..|begun| - 1], windows, viaRelay);
    }
  }

  /** The attempts not yet known to have failed: the one under way. */
  function UnderWay(w: Window): nat
  {
    if w.active.Some? then 1 else 0
  }

  /** Attempts spent are failures and the exchange under way; none is left
      to spend only while the last is under way. */
  ghost predicate Budgeted(w: Window)
  {
    && w.failures + UnderWay(w) == w.attemptsUsed + w.relayAttemptsUsed
    && w.attemptsUsed <= ATTEMPT_LIMIT && w.relayAttemptsUsed <= ATTEMPT_LIMIT
    && (w.attemptsUsed == ATTEMPT_LIMIT ==> w.active.Some? && !w.activeViaRelay)
    && (w.relayAttemptsUsed == ATTEMPT_LIMIT && w.allowsRelay ==> w.active.Some? && w.activeViaRelay)
  }

  /** The active client's exchange began in this window, on the path noted,
      and there is room for its device. */
  ghost predicate ActiveIsGood(h: Host)
    requires h.window.Some?
  {
    var w := h.window.value;
    w.active.Some? ==>
      && w.active.value in h.exchanges
      && var e := h.exchanges[w.active.value];
         && e.window == w.number && e.viaRelay == w.activeViaRelay
         && (|h.devices| < MAXIMUM_DEVICES || Find(h.devices, e.deviceID).Some?)
  }

  ghost predicate Counted(h: Host)
  {
    && (forall i :: 0 <= i < |h.begun| ==> h.begun[i].0 < h.windows)
    && (forall n: nat, viaRelay: bool :: Count(h.begun, n, viaRelay) <= ATTEMPT_LIMIT)
    && (h.window.Some? ==>
          && h.window.value.number < h.windows
          && h.window.value.attemptsUsed == Count(h.begun, h.window.value.number, false)
          && h.window.value.relayAttemptsUsed == Count(h.begun, h.window.value.number, true))
  }

  ghost predicate Good(h: Host)
  {
    && Distinct(h.devices) && |h.devices| <= MAXIMUM_DEVICES
    && Counted(h)
    && (h.window.Some? ==> Budgeted(h.window.value) && ActiveIsGood(h))
  }

  lemma FailedIsGood(h: Host)
    requires Good(h) && (h.window.Some? ==> h.window.value.active.Some?)
    ensures Good(Failed(h))
  {
  }

  lemma BeginIsGood(h: Host, client: nat, viaRelay: bool, deviceID: string, shareIsGood: bool)
    requires Good(h) && client !in h.exchanges
    ensures Good(Begin(h, client, viaRelay, deviceID, shareIsGood))
  {
    if Refuses(h, deviceID, viaRelay).None? {
      var w := h.window.value;
      var begun := h.begun + [(w.number, viaRelay)];
      forall n: nat, path: bool
        ensures Count(begun, n, path) == Count(h.begun, n, path) + if (w.number, viaRelay) == (n, path) then 1 else 0
      {
        CountOneMore(h.begun, (w.number, viaRelay), n, path);
      }
      var e := Exchange(deviceID, w.number, viaRelay, false);
      var spent := h.(window := Some(SpentBy(w, client, viaRelay)), begun := begun,
                      exchanges := h.exchanges[client := e]);
      assert Good(spent);
      FailedIsGood(spent);
      ExchangesDoNotMatter(Failed(spent), Begin(h, client, viaRelay, deviceID, false));
    }
  }

  /** With nobody active, a good state is good whatever the exchanges. */
  lemma ExchangesDoNotMatter(h: Host, other: Host)
    requires Good(h) && (h.window.Some? ==> h.window.value.active.None?)
    requires other == h.(exchanges := other.exchanges)
    ensures Good(other)
  {
  }

  lemma FinishIsGood(h: Host, client: nat, confirms: bool, device: Device)
    requires Good(h) && client in h.exchanges && device.id == h.exchanges[client].deviceID
    ensures Good(Finish(h, client, confirms, device))
  {
    if IsActive(h, client) {
      if confirms {
        AddedIsFound(h.devices, device);
      } else {
        FailedIsGood(h);
        ExchangesDoNotMatter(Failed(h), Finish(h, client, confirms, device));
      }
    }
  }

  lemma GoneIsGood(h: Host, client: nat)
    requires Good(h)
    ensures Good(Gone(h, client))
  {
    if IsActive(h, client) {
      FailedIsGood(h);
      ExchangesDoNotMatter(Failed(h), Gone(h, client));
    }
  }

  lemma RevokeIsGood(h: Host, deviceID: string)
    requires Good(h)
    ensures Good(Next(h, Revoke(deviceID)))
  {
    OthersAreDistinct(h.devices, deviceID);
    if h.window.Some? && h.window.value.active.Some? {
      var id := h.exchanges[h.window.value.active.value].deviceID;
      if id != deviceID {
        FindPastOthers(h.devices, deviceID, id);
      }
    }
  }

  lemma StepIsGood(h: Host, step: Step)
    requires Enabled(h, step) && Good(h)
    ensures Good(Next(h, step))
  {
    match step {
      case Open(allowsRelay) =>
        NoneBegunYet(h.begun, h.windows, false);
        NoneBegunYet(h.begun, h.windows, true);
      case Start(client, viaRelay, deviceID, expired, shareIsGood) =>
        BeginIsGood(Expired(h, expired), client, viaRelay, deviceID, shareIsGood);
      case Confirm(client, confirms, name, key) =>
        FinishIsGood(h, client, confirms, Device(h.exchanges[client].deviceID, name, key));
      case Leave(client) => GoneIsGood(h, client);
      case Revoke(deviceID) => RevokeIsGood(h, deviceID);
      case _ =>
    }
  }

  ghost predicate IsRun(states: seq<Host>, steps: seq<Step>)
  {
    && |states| == |steps| + 1
    && (forall i :: 0 <= i < |steps| ==> Enabled(states[i], steps[i]) && states[i + 1] == Next(states[i], steps[i]))
  }

  /** A host that starts with devices it stored: no window, nothing begun. */
  ghost predicate Fresh(h: Host)
  {
    h == Host(None, h.devices, map[], 0, []) && Distinct(h.devices) && |h.devices| <= MAXIMUM_DEVICES
  }

  /** In every state of every run, however exchanges start, finish, are left
      or expire and windows reopen: at most three exchanges ever begin in a
      window on each path; failures and the exchange under way are the
      attempts spent; ids are distinct and devices at most the limit. */
  lemma {:induction false} BudgetHolds(states: seq<Host>, steps: seq<Step>, i: nat)
    requires IsRun(states, steps) && Fresh(states[0]) && i < |states|
    ensures Good(states[i])
  {
    if i > 0 {
      BudgetHolds(states, steps, i - 1);
      StepIsGood(states[i - 1], steps[i - 1]);
    }
  }

  /** A device is stored by a step of a run exactly when the active client of
      the open window confirms, in the window its exchange began in; it is
      then found as stored, the window is closed, and no other device is
      touched. Only that and a revocation change the devices. */
  lemma OnlyTheActiveStores(states: seq<Host>, steps: seq<Step>, i: nat)
    requires IsRun(states, steps) && Fresh(states[0]) && i < |steps|
    ensures var (h, r, step) := (states[i], states[i + 1], steps[i]);
            && (!step.Revoke? && r.devices != h.devices ==> step.Confirm? && step.confirms && IsActive(h, step.client))
            && (step.Confirm? && step.confirms && IsActive(h, step.client) ==>
                  && h.exchanges[step.client].window == h.window.value.number
                  && r.window.None?
                  && Find(r.devices, h.exchanges[step.client].deviceID)
                       == Some(Device(h.exchanges[step.client].deviceID, step.name, step.key))
                  && forall id :: id != h.exchanges[step.client].deviceID ==>
                       Find(r.devices, id) == Find(h.devices, id))
  {
    BudgetHolds(states, steps, i);
    if steps[i].Confirm? && steps[i].confirms && IsActive(states[i], steps[i].client) {
      var step := steps[i];
      AddedIsFound(states[i].devices, Device(states[i].exchanges[step.client].deviceID, step.name, step.key));
    }
  }
}
