/**
 What a call carries: bytes both ways between the relay and the service on
 this host. Either direction holds one chunk at most, and what comes out at
 one end is a front part of what went in at the other.
 */
module RelaySplice {
  import opened Bytes

  const CHUNK_BYTES := 64 * 1024

  /** One way across: all that was read, what of it was taken by the other
      side, the chunk being written, whether it is the last, and whether a
      read is out. */
  datatype Way = Way(read: seq<byte>, taken: seq<byte>, chunk: seq<byte>, isLast: bool, reading: bool)

  const IDLE := Way([], [], [], false, false)

  /** `settled` is everything `onSettled` was told. */
  datatype Splice = Splice(forth: Way, back: Way, isUp: bool, isEnded: bool, settled: seq<bool>)

  const FRESH := Splice(IDLE, IDLE, false, false, [])

  function Settled(s: Splice, isUp: bool): Splice
  {
    if s.settled == [] then s.(settled := [isUp]) else s
  }

  function Ended(s: Splice): Splice
  {
    if s.isEnded then s else Settled(s.(isEnded := true), false)
  }

  function WayOf(s: Splice, isForth: bool): Way
  {
    if isForth then s.forth else s.back
  }

  function WithWay(s: Splice, isForth: bool, w: Way): Splice
  {
    if isForth then s.(forth := w) else s.(back := w)
  }

  datatype Step =
    | BothUp
    | Came(isForth: bool, data: seq<byte>, isLast: bool)
    | Written(isForth: bool, fails: bool)
    | Breaks

  predicate Enabled(s: Splice, step: Step)
  {
    match step
    case BothUp => !s.isUp && !s.isEnded
    case Came(isForth, data, _) => WayOf(s, isForth).reading && |data| <= CHUNK_BYTES
    case Written(isForth, _) => WayOf(s, isForth).chunk != []
    case Breaks => true
  }

  function Next(s: Splice, step: Step): Splice
    requires Enabled(s, step)
  {
    match step
    case BothUp => Settled(s.(isUp := true, forth := s.forth.(reading := true), back := s.back.(reading := true)), true)
    case Came(isForth, data, isLast) =>
      if s.isEnded then s
      else if data == [] then (if isLast then Ended(s) else s)
      else
        var w := WayOf(s, isForth);
        WithWay(s, isForth, w.(read := w.read + data, chunk := data, isLast := isLast, reading := false))
    case Written(isForth, fails) =>
      if s.isEnded then s
      else
        var w := WayOf(s, isForth);
        var taken := w.(taken := w.taken + w.chunk, chunk := []);
        if fails then Ended(s)
        else if w.isLast then Ended(WithWay(s, isForth, taken))
        else WithWay(s, isForth, taken.(reading := true))
    case Breaks => Ended(s)
  }

  class RelaySplice {
    var forth: Way
    var back: Way
    var isUp: bool
    var isEnded: bool
    var hasHandler: bool
    ghost var settled: seq<bool>

    ghost predicate Valid()
      reads this
    {
      hasHandler <==> settled == []
    }

    ghost function Value(): Splice
      reads this
    {
      Splice(forth, back, isUp, isEnded, settled)
    }

    constructor ()
      ensures Valid() && Value() == FRESH
    {
      forth, back, isUp, isEnded, hasHandler, settled := IDLE, IDLE, false, false, true, [];
    }

    method Settle(up: bool)
      requires Valid()
      modifies this`hasHandler, this`settled
      ensures Valid() && Value() == Settled(old(Value()), up)
    {
      if hasHandler {
        settled := settled + [up];
      }
      hasHandler := false;
    }

    method End()
      requires Valid()
      modifies this`isEnded, this`hasHandler, this`settled
      ensures Valid() && Value() == Ended(old(Value()))
    {
      if isEnded {
        return;
      }
      isEnded := true;
      Settle(false);
    }

    method BecomeUp()
      requires Valid() && Enabled(Value(), BothUp)
      modifies this
      ensures Valid() && Value() == Next(old(Value()), BothUp)
    {
      Settle(true);
      isUp := true;
      forth := forth.(reading := true);
      back := back.(reading := true);
    }

    method SetWay(isForth: bool, w: Way)
      modifies this`forth, this`back
      ensures Value() == WithWay(old(Value()), isForth, w)
    {
      if isForth {
        forth := w;
      } else {
        back := w;
      }
    }

    /** What a read brought goes to the other side, and the next read waits. */
    method Received(isForth: bool, data: seq<byte>, isLast: bool)
      requires Valid() && Enabled(Value(), Came(isForth, data, isLast))
      modifies this
      ensures Valid() && Value() == Next(old(Value()), Came(isForth, data, isLast))
    {
      if isEnded {
        return;
      }
      if data == [] {
        if isLast {
          End();
        }
        return;
      }
      var w := if isForth then forth else back;
      SetWay(isForth, w.(read := w.read + data, chunk := data, isLast := isLast, reading := false));
    }

    method Sent(isForth: bool, fails: bool)
      requires Valid() && Enabled(Value(), Written(isForth, fails))
      modifies this
      ensures Valid() && Value() == Next(old(Value()), Written(isForth, fails))
    {
      if isEnded {
        return;
      }
      if fails {
        End();
        return;
      }
      var w := if isForth then forth else back;
      var taken := w.(taken := w.taken + w.chunk, chunk := []);
      if w.isLast {
        SetWay(isForth, taken);
        End();
      } else {
        SetWay(isForth, taken.(reading := true));
      }
    }
  }

  // --------------------------------------------------------------- Invariants

  /** What the other side took is what was read, up to the one chunk that is
      being written, in which time nothing is read. */
  ghost predicate WayIsGood(w: Way)
  {
    w.read == w.taken + w.chunk && |w.chunk| <= CHUNK_BYTES && (w.reading ==> w.chunk == [])
  }

  /** Settled exactly once when up or ended; while up and not ended, each way
      reads or writes. */
  ghost predicate Good(s: Splice)
  {
    && WayIsGood(s.forth) && WayIsGood(s.back)
    && |s.settled| <= 1 && (s.settled != [] <==> s.isUp || s.isEnded) && (s.settled == [true] <==> s.isUp)
    && (!s.isUp ==> s.forth == IDLE && s.back == IDLE)
    && (s.isUp && !s.isEnded ==> (s.forth.reading || s.forth.chunk != []) && (s.back.reading || s.back.chunk != []))
  }

  lemma StepIsGood(s: Splice, step: Step)
    requires Good(s) && Enabled(s, step)
    ensures Good(Next(s, step))
    ensures WayOf(s, true).taken <= WayOf(Next(s, step), true).taken
    ensures WayOf(s, false).taken <= WayOf(Next(s, step), false).taken
    ensures s.isEnded ==> Next(s, step) == s
  {
    if step.Came? && !s.isEnded && step.data != [] {
      var w := WayOf(s, step.isForth);
      assert w.chunk == [] && w.taken + [] == w.taken;
    } else if step.Written? && !s.isEnded {
      var w := WayOf(s, step.isForth);
      assert w.taken + w.chunk + [] == w.taken + w.chunk;
    }
  }

  ghost predicate IsRun(splices: seq<Splice>, steps: seq<Step>)
  {
    && |splices| == |steps| + 1
    && (forall i :: 0 <= i < |steps| ==> Enabled(splices[i], steps[i]) && splices[i + 1] == Next(splices[i], steps[i]))
  }

  /** In every run each side is given a prefix of what the other sent, never
      more than a chunk behind it, and `onSettled` hears at most once: true
      exactly when both came up. */
  lemma {:induction false} SpliceHolds(splices: seq<Splice>, steps: seq<Step>, i: nat)
    requires IsRun(splices, steps) && splices[0] == FRESH && i < |splices|
    ensures Good(splices[i])
    ensures forall isForth: bool ::
      var w := WayOf(splices[i], isForth); w.taken <= w.read && |w.read| - |w.taken| <= CHUNK_BYTES
  {
    if i > 0 {
      SpliceHolds(splices, steps, i - 1);
      StepIsGood(splices[i - 1], steps[i - 1]);
    }
  }
}
