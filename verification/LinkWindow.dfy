/**
 Flow control from the daemon to a device. The host stops reading its daemon
 when the bytes queued for the network, or those out and without a receipt,
 grow past a bound, and reads again below a lower one; a timer allows one
 read at a time in between. The model has the whole loop: bytes queued, bytes
 travelling to the device, receipts travelling back.
 */
module LinkWindow {
  import opened Wrappers

  const PAUSE_ABOVE := 512 * 1024
  const RESUME_BELOW := 384 * 1024
  const TRICKLE_CEILING := 8 * 1024 * 1024
  const WINDOW := 1024 * 1024
  const RECEIPT_BYTES := 256 * 1024

  datatype Call = Suspend | Resume

  /** The daemon connection as the client sees it: whether it is there, the
      calls made on it, and the timers set, by generation. */
  datatype Gate = Gate(daemon: bool, suspended: bool, closed: bool, generation: nat, timers: set<nat>, calls: seq<Call>)

  /** What suspending depends on: bytes queued, bytes sent in all, and the
      latest receipt, if any came. */
  datatype Counts = Counts(pending: nat, sent: nat, reported: Option<nat>)

  function InFlight(c: Counts): nat
  {
    if c.reported.Some? && c.sent > c.reported.value then c.sent - c.reported.value else 0
  }

  predicate TooMuch(c: Counts)
  {
    c.pending > PAUSE_ABOVE || InFlight(c) > WINDOW
  }

  predicate Drained(c: Counts)
  {
    c.pending < RESUME_BELOW && InFlight(c) < WINDOW - RECEIPT_BYTES
  }

  function Suspended(g: Gate): Gate
  {
    g.(suspended := true, calls := g.calls + [Suspend],
       generation := g.generation + 1, timers := g.timers + {g.generation + 1})
  }

  function Resumed(g: Gate): Gate
  {
    g.(suspended := false, calls := g.calls + [Resume])
  }

  /** Something changed. */
  function Update(g: Gate, c: Counts): Gate
  {
    if g.closed || !g.daemon then g
    else if !g.suspended && TooMuch(c) then Suspended(g)
    else if g.suspended && Drained(c) then Resumed(g)
    else g
  }

  /** When a timer that fires resumes the daemon: its own suspension still
      stands, on an open link, and the queue is not past the ceiling. */
  predicate LetsGo(g: Gate, generation: nat, c: Counts)
  {
    generation == g.generation && !g.closed && g.suspended && g.daemon && c.pending < TRICKLE_CEILING
  }

  function Fire(g: Gate, generation: nat, c: Counts): Gate
  {
    var fired := g.(timers := g.timers - {generation});
    if LetsGo(g, generation, c) then Resumed(fired) else fired
  }

  /** The link ended; the daemon connection is kept only to linger. */
  function Ended(g: Gate, lingers: bool): Gate
  {
    if g.closed then g
    else
      var closed := g.(closed := true);
      var resumed := if g.daemon && g.suspended then Resumed(closed) else closed;
      resumed.(daemon := g.daemon && lingers)
  }

  // --------------------------------------------------------- The host object

  class RemoteClient {
    var hasDaemon: bool
    var isDaemonSuspended: bool
    var isClosed: bool
    var trickleGeneration: nat
    var timers: set<nat>
    var calls: seq<Call>

    ghost function Value(): Gate
      reads this
    {
      Gate(hasDaemon, isDaemonSuspended, isClosed, trickleGeneration, timers, calls)
    }

    constructor ()
      ensures Value() == Gate(true, false, false, 0, {}, [])
    {
      hasDaemon, isDaemonSuspended, isClosed := true, false, false;
      trickleGeneration, timers, calls := 0, {}, [];
    }

    method SuspendDaemon()
      modifies this
      ensures Value() == Suspended(old(Value()))
    {
      isDaemonSuspended := true;
      calls := calls + [Suspend];
      trickleGeneration := trickleGeneration + 1;
      timers := timers + {trickleGeneration};
    }

    method ResumeDaemon()
      modifies this`isDaemonSuspended, this`calls
      ensures Value() == Resumed(old(Value()))
    {
      isDaemonSuspended := false;
      calls := calls + [Resume];
    }

    method UpdateDaemonPause(counts: Counts)
      modifies this
      ensures Value() == Update(old(Value()), counts)
    {
      if isClosed || !hasDaemon {
        return;
      }
      var inFlight := InFlight(counts);
      if !isDaemonSuspended && (counts.pending > PAUSE_ABOVE || inFlight > WINDOW) {
        SuspendDaemon();
      } else if isDaemonSuspended && counts.pending < RESUME_BELOW && inFlight < WINDOW - RECEIPT_BYTES {
        ResumeDaemon();
      }
    }

    method TrickleFired(generation: nat, counts: Counts)
      requires generation in timers
      modifies this
      ensures Value() == Fire(old(Value()), generation, counts)
    {
      timers := timers - {generation};
      if generation != trickleGeneration || isClosed || !isDaemonSuspended || !hasDaemon
         || counts.pending >= TRICKLE_CEILING
      {
        return;
      }
      ResumeDaemon();
    }

    method Closed(holdsSessions: bool)
      modifies this
      ensures Value() == Ended(old(Value()), holdsSessions)
    {
      if isClosed {
        return;
      }
      isClosed := true;
      if hasDaemon && isDaemonSuspended {
        ResumeDaemon();
      }
      if hasDaemon && holdsSessions {
        return;
      }
      hasDaemon := false;
    }
  }

  // ------------------------------------------------------------ The whole path

  /** The path toward one device: `unprocessed` wire sizes the network has
      not taken, `down` plain sizes not yet delivered, `up` receipts not yet
      read. `trickled`: resumed by the timer and nothing has changed since. */
  datatype Path = Path(
    gate: Gate, counts: Counts, draining: bool, trickled: bool,
    transit: Transit, device: Device)

  datatype Transit = Transit(unprocessed: seq<nat>, down: seq<nat>, up: seq<nat>)

  datatype Device = Device(reports: bool, received: nat, acknowledged: nat)

  /** A device just authenticated: whether its hello announced receipts, and
      whether it sends them. It may send some it never announced. */
  function Start(announces: bool, reports: bool): Path
    requires announces ==> reports
  {
    Path(Gate(true, false, false, 0, {}, []), Counts(0, 0, if announces then Some(0) else None),
         false, false, Transit([], [], []), Device(reports, 0, 0))
  }

  datatype Step =
    | Sends(plain: nat, wire: nat)
    | Processed(lingers: bool)
    | Delivered
    | Receipt
    | Timer(generation: nat)
    | CloseWhenFlushed(lingers: bool)
    | Breaks(lingers: bool)
    | GraceOver

  function Updated(p: Path, c: Counts): Path
  {
    p.(counts := c, gate := Update(p.gate, c), trickled := p.trickled && (p.gate.closed || !p.gate.daemon))
  }

  function EndPath(p: Path, lingers: bool): Path
  {
    p.(gate := Ended(p.gate, lingers))
  }

  predicate Enabled(p: Path, step: Step)
  {
    match step
    case Sends(plain, wire) => plain > 0 && wire > 0
    case Processed(_) => p.transit.unprocessed != []
    case Delivered => p.transit.down != []
    case Receipt => p.transit.up != []
    case Timer(generation) => generation in p.gate.timers
    case CloseWhenFlushed(_) => true
    case Breaks(_) => true
    case GraceOver => p.gate.closed
  }

  function Next(p: Path, step: Step): (r: Path)
    requires Enabled(p, step)
  {
    var t := p.transit;
    match step
    case Sends(plain, wire) =>
      if p.gate.closed || p.draining then p
      else
        Updated(p.(transit := t.(unprocessed := t.unprocessed + [wire], down := t.down + [plain])),
                p.counts.(pending := p.counts.pending + wire, sent := p.counts.sent + plain))
    case Processed(lingers) => NextProcessed(p, lingers)
    case Delivered =>
      var received := p.device.(received := p.device.received + t.down[0]);
      var (device, receipt) := Acknowledge(received);
      p.(device := device, transit := t.(down := t.down[1..], up := t.up + receipt))
    case Receipt =>
      var read := p.(transit := t.(up := t.up[1..]));
      if p.gate.closed || p.draining then read else Updated(read, p.counts.(reported := Some(t.up[0])))
    case Timer(generation) =>
      p.(gate := Fire(p.gate, generation, p.counts), trickled := p.trickled || LetsGo(p.gate, generation, p.counts))
    case CloseWhenFlushed(lingers) =>
      if p.gate.closed || p.draining then p
      else if p.counts.pending == 0 then EndPath(p, lingers)
      else p.(draining := true)
    case Breaks(lingers) => EndPath(p, lingers)
    case GraceOver => p.(gate := p.gate.(daemon := false))
  }

  function NextProcessed(p: Path, lingers: bool): (r: Path)
    requires p.transit.unprocessed != []
  {
    var t := p.transit;
    var pending := if p.counts.pending >= t.unprocessed[0] then p.counts.pending - t.unprocessed[0] else 0;
    var updated := Updated(p.(transit := t.(unprocessed := t.unprocessed[1..])), p.counts.(pending := pending));
    if p.draining && pending == 0 then EndPath(updated, lingers) else updated
  }

  /** After a frame: another quarter window received is reported. */
  function Acknowledge(d: Device): (r: (Device, seq<nat>))
  {
    if d.reports && d.received - d.acknowledged >= RECEIPT_BYTES then (d.(acknowledged := d.received), [d.received])
    else (d, [])
  }

  // --------------------------------------------------------------- Invariants

  function Sum(sizes: seq<nat>): nat
  {
    if sizes == [] then 0 else sizes[0] + Sum(sizes[1..])
  }

  lemma {:induction false} SumOfOneMore(sizes: seq<nat>, size: nat)
    ensures Sum(sizes + [size]) == Sum(sizes) + size
  {
    if sizes != [] {
      assert (sizes + [size])[1..] == sizes[1..] + [size];
      SumOfOneMore(sizes[1..], size);
    }
  }

  /** What the host counted is what is where it says. */
  ghost predicate Conserved(p: Path)
  {
    && p.counts.sent == p.device.received + Sum(p.transit.down)
    && p.counts.pending == Sum(p.transit.unprocessed)
    && (forall i :: 0 <= i < |p.transit.unprocessed| ==> p.transit.unprocessed[i] > 0)
  }

  /** The latest receipt read, as a number. */
  function Heard(c: Counts): nat { if c.reported.Some? then c.reported.value else 0 }

  /** The newest receipt, read or not, is less than a quarter window behind
      the device, and none is ahead of it. */
  ghost predicate Reported(p: Path)
  {
    && p.device.acknowledged <= p.device.received
    && (p.device.reports ==> p.device.received - p.device.acknowledged < RECEIPT_BYTES)
    && (p.counts.reported.Some? ==> p.device.reports)
    && (!p.device.reports ==> p.transit.up == [])
    && (forall i :: 0 <= i < |p.transit.up| ==> p.transit.up[i] <= p.device.acknowledged)
    && Heard(p.counts) <= p.device.acknowledged
    && (p.transit.up != [] ==> p.transit.up[|p.transit.up| - 1] == p.device.acknowledged)
    && (p.device.reports && p.transit.up == [] && !p.draining && !p.gate.closed ==>
          Heard(p.counts) == p.device.acknowledged)
  }

  ghost predicate Alternating(calls: seq<Call>, suspended: bool)
  {
    && (forall i :: 0 <= i < |calls| ==> calls[i] == if i % 2 == 0 then Suspend else Resume)
    && (suspended <==> |calls| % 2 == 1)
  }

  /** Suspended only with a daemon, open, and something still out. */
  ghost predicate Paced(p: Path)
  {
    && (p.gate.suspended ==> p.gate.daemon && !p.gate.closed && !Drained(p.counts))
    && (p.gate.daemon && !p.gate.closed && !p.gate.suspended && !p.trickled ==> !TooMuch(p.counts))
    && (p.trickled && !p.gate.closed ==> !p.gate.suspended)
    && (!p.gate.daemon ==> p.gate.closed)
    && (p.draining && !p.gate.closed ==> p.counts.pending > 0)
    && (forall g :: g in p.gate.timers ==> 0 < g <= p.gate.generation)
  }

  ghost predicate Good(p: Path)
  {
    Conserved(p) && Reported(p) && Alternating(p.gate.calls, p.gate.suspended) && Paced(p)
  }

  lemma StartIsGood(announces: bool, reports: bool)
    requires announces ==> reports
    ensures Good(Start(announces, reports))
  {
  }

  lemma StepConserves(p: Path, step: Step)
    requires Good(p) && Enabled(p, step)
    ensures Conserved(Next(p, step))
  {
    var t := p.transit;
    match step
    case Sends(plain, wire) =>
      SumOfOneMore(t.unprocessed, wire);
      SumOfOneMore(t.down, plain);
    case _ =>
  }

  lemma DeliveredReports(p: Path)
    requires Reported(p) && Enabled(p, Delivered)
    ensures Reported(Next(p, Delivered))
  {
    var (d, r) := (p.device, Next(p, Delivered));
    if d.reports && d.received + p.transit.down[0] - d.acknowledged >= RECEIPT_BYTES {
      assert r.transit.up == p.transit.up + [r.device.received];
    } else {
      assert r.transit.up == p.transit.up;
    }
  }

  lemma ReceiptReports(p: Path)
    requires Reported(p) && Enabled(p, Receipt)
    ensures Reported(Next(p, Receipt))
  {
  }

  lemma StepReports(p: Path, step: Step)
    requires Good(p) && Enabled(p, step)
    ensures Reported(Next(p, step))
  {
    if step.Delivered? {
      DeliveredReports(p);
    } else if step.Receipt? {
      ReceiptReports(p);
    } else {
      var r := Next(p, step);
      assert r.device == p.device && r.transit.up == p.transit.up && r.counts.reported == p.counts.reported;
    }
  }

  lemma StepPaces(p: Path, step: Step)
    requires Good(p) && Enabled(p, step)
    ensures Paced(Next(p, step))
  {
  }

  /** The same calls, or the one more that was due. */
  predicate CallsAtMostOnce(g: Gate, r: Gate)
  {
    || (r.calls == g.calls && r.suspended == g.suspended)
    || (r.calls == g.calls + [if g.suspended then Resume else Suspend] && r.suspended == !g.suspended)
  }

  lemma AlternatesOnceMore(g: Gate, r: Gate)
    requires Alternating(g.calls, g.suspended) && CallsAtMostOnce(g, r)
    ensures Alternating(r.calls, r.suspended)
  {
  }

  /** A drained link that ends can make two: its window suspends, its end
      resumes. */
  lemma ProcessedAlternates(p: Path, lingers: bool)
    requires Good(p) && Enabled(p, Processed(lingers))
    ensures Alternating(NextProcessed(p, lingers).gate.calls, NextProcessed(p, lingers).gate.suspended)
  {
    var r := NextProcessed(p, lingers);
    var updated := Update(p.gate, r.counts);
    AlternatesOnceMore(p.gate, updated);
    AlternatesOnceMore(updated, r.gate);
  }

  lemma StepAlternates(p: Path, step: Step)
    requires Good(p) && Enabled(p, step)
    ensures Alternating(Next(p, step).gate.calls, Next(p, step).gate.suspended)
  {
    if step.Processed? {
      ProcessedAlternates(p, step.lingers);
    } else {
      AlternatesOnceMore(p.gate, Next(p, step).gate);
    }
  }

  // --------------------------------------------------------------------- Runs

  /** The states of a run, first to last. */
  ghost predicate IsRun(states: seq<Path>, steps: seq<Step>)
  {
    && |states| == |steps| + 1
    && (forall i :: 0 <= i < |steps| ==> Enabled(states[i], steps[i]) && states[i + 1] == Next(states[i], steps[i]))
  }

  lemma StepKeepsGood(p: Path, step: Step)
    requires Good(p) && Enabled(p, step)
    ensures Good(Next(p, step))
  {
    StepConserves(p, step);
    StepReports(p, step);
    StepPaces(p, step);
    StepAlternates(p, step);
  }

  lemma {:induction false} RunsStayGood(states: seq<Path>, steps: seq<Step>, announces: bool, reports: bool,
                                         i: nat)
    requires announces ==> reports
    requires IsRun(states, steps) && states[0] == Start(announces, reports) && i < |states|
    ensures Good(states[i])
  {
    if i == 0 {
      StartIsGood(announces, reports);
    } else {
      RunsStayGood(states, steps, announces, reports, i - 1);
      StepKeepsGood(states[i - 1], steps[i - 1]);
    }
  }

  predicate NothingInTransit(t: Transit)
  {
    t == Transit([], [], [])
  }

  /** In every state of every run: a suspended daemon is waiting for a
      network that has plenty to take, or for a device that has plenty to
      receive or receipts to be read; so never when nothing is in transit.
      Suspend and resume strictly alternate, and a closed link has resumed. */
  lemma NoDeadlock(states: seq<Path>, steps: seq<Step>, announces: bool, reports: bool, i: nat)
    requires announces ==> reports
    requires IsRun(states, steps) && states[0] == Start(announces, reports) && i < |states|
    ensures var p := states[i];
            && (p.gate.suspended ==> !p.gate.closed)
            && (p.gate.suspended ==> p.counts.pending >= RESUME_BELOW || InFlight(p.counts) >= WINDOW - RECEIPT_BYTES)
            && (p.gate.suspended && !p.draining && p.counts.pending < RESUME_BELOW && p.transit.up == [] ==>
                  Sum(p.transit.down) > WINDOW - 2 * RECEIPT_BYTES)
            && (NothingInTransit(p.transit) ==> !p.gate.suspended)
            && Alternating(p.gate.calls, p.gate.suspended)
  {
    RunsStayGood(states, steps, announces, reports, i);
  }

  /** While the daemon goes and not by the timer, little is pending; and once
      the device was heard from, as one that announced its receipts counts as
      having been from the start, no more than the window is coming down. */
  lemma WindowHolds(states: seq<Path>, steps: seq<Step>, announces: bool, reports: bool, i: nat)
    requires announces ==> reports
    requires IsRun(states, steps) && states[0] == Start(announces, reports) && i < |states|
    requires !states[i].gate.closed && !states[i].gate.suspended && !states[i].trickled
    ensures Sum(states[i].transit.unprocessed) <= PAUSE_ABOVE
    ensures states[i].counts.reported.Some? ==> Sum(states[i].transit.down) <= WINDOW
    ensures announces ==> states[i].counts.reported.Some?
  {
    RunsStayGood(states, steps, announces, reports, i);
    if announces {
      HeardForGood(states, steps, 0, i);
    }
  }

  lemma {:induction false} HeardForGood(states: seq<Path>, steps: seq<Step>, i: nat, j: nat)
    requires IsRun(states, steps) && i <= j < |states| && states[i].counts.reported.Some?
    ensures states[j].counts.reported.Some?
  {
    if i < j {
      HeardForGood(states, steps, i, j - 1);
      assert states[j] == Next(states[j - 1], steps[j - 1]);
    }
  }

  lemma StepStaysQuiet(p: Path, step: Step)
    requires Enabled(p, step) && p.gate.closed
    ensures Next(p, step).gate.closed && Next(p, step).gate.calls == p.gate.calls
  {
  }

  lemma NextIsQuiet(states: seq<Path>, steps: seq<Step>, i: nat)
    requires IsRun(states, steps) && i < |steps| && states[i].gate.closed
    ensures states[i + 1].gate.closed && states[i + 1].gate.calls == states[i].gate.calls
  {
    StepStaysQuiet(states[i], steps[i]);
  }

  /** No call is made on a daemon connection after the link ended. */
  lemma {:induction false} ClosedIsQuiet(states: seq<Path>, steps: seq<Step>, i: nat, j: nat)
    requires IsRun(states, steps) && i <= j < |states| && states[i].gate.closed
    ensures states[j].gate.closed && states[j].gate.calls == states[i].gate.calls
  {
    if i < j {
      ClosedIsQuiet(states, steps, i, j - 1);
      NextIsQuiet(states, steps, j - 1);
    }
  }

  /** The network left to itself: it takes, delivers and brings back all. */
  function Drain(p: Path): (r: Path)
    decreases 2 * |p.transit.down| + |p.transit.unprocessed| + |p.transit.up|
  {
    if p.transit.unprocessed != [] then Drain(NextProcessed(p, true))
    else if p.transit.down != [] then Drain(Next(p, Delivered))
    else if p.transit.up != [] then Drain(Next(p, Receipt))
    else p
  }

  /** However the window stands, a network that moves gets the daemon going
      again without a timer. */
  lemma {:induction false} DrainingResumes(p: Path)
    requires Good(p)
    ensures NothingInTransit(Drain(p).transit) && Good(Drain(p)) && !Drain(p).gate.suspended
    decreases 2 * |p.transit.down| + |p.transit.unprocessed| + |p.transit.up|
  {
    if p.transit.unprocessed != [] {
      StepKeepsGood(p, Processed(true));
      DrainingResumes(NextProcessed(p, true));
    } else if p.transit.down != [] {
      StepKeepsGood(p, Delivered);
      DrainingResumes(Next(p, Delivered));
    } else if p.transit.up != [] {
      StepKeepsGood(p, Receipt);
      DrainingResumes(Next(p, Receipt));
    }
  }
}
