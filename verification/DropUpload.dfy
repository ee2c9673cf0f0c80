/**
 The queue between the encoder's thread and the upload, and the upload: from
 where the relay left off, chunk by chunk, an empty one ending it. And the
 relay's side: what it holds after any number of uploads cut off anywhere.
 */
module DropUpload {
  import opened Bytes
  import opened Wrappers
  import opened Drop

  const LENGTH_BYTES := 4

  // --------------------------------------------------------------- The queue

  /** What the encoder has yet to put, what waits, what was taken; whether
      the upload stopped it, and whether its thread is over. */
  datatype Queue = Queue(todo: seq<Piece>, waiting: seq<Piece>, taken: seq<Piece>, cancelled: bool, over: bool)

  datatype Step = Put | Next | Stop

  predicate Enabled(q: Queue, step: Step)
  {
    match step
    case Put => !q.over && (q.cancelled || q.todo == [] || |q.waiting| < MAXIMUM_QUEUED)
    case Next => q.waiting != []
    case Stop => !q.cancelled
  }

  function After(q: Queue, step: Step): (r: Queue)
    requires Enabled(q, step)
  {
    match step
    case Put =>
      if q.cancelled || q.todo == [] then q.(over := true)
      else q.(waiting := q.waiting + [q.todo[0]], todo := q.todo[1..])
    case Next => q.(taken := q.taken + [q.waiting[0]], waiting := q.waiting[1..])
    case Stop => q.(cancelled := true)
  }

  ghost predicate InOrder(q: Queue, pieces: seq<Piece>)
  {
    |q.waiting| <= MAXIMUM_QUEUED && q.taken + q.waiting + q.todo == pieces && (q.over && !q.cancelled ==> q.todo == [])
  }

  lemma StepKeepsOrder(q: Queue, step: Step, pieces: seq<Piece>)
    requires Enabled(q, step) && InOrder(q, pieces)
    ensures InOrder(After(q, step), pieces)
  {
    var r := After(q, step);
    assert r.taken + r.waiting + r.todo == q.taken + q.waiting + q.todo by {
      if step.Put? && r.todo != q.todo {
        assert q.todo == [q.todo[0]] + r.todo;
      } else if step.Next? {
        assert q.waiting == [q.waiting[0]] + r.waiting;
      }
    }
  }

  ghost predicate IsRun(queues: seq<Queue>, steps: seq<Step>)
  {
    && |queues| == |steps| + 1
    && (forall i :: 0 <= i < |steps| ==> Enabled(queues[i], steps[i]) && queues[i + 1] == After(queues[i], steps[i]))
  }

  /** However the two threads take turns: the queue is never over its limit,
      pieces come out in the order they went in, and one of the threads can
      always move until the encoder is over and all is taken; once stopped,
      the encoder can move whatever waits, and its next move is its last. */
  lemma {:induction false} QueueHolds(queues: seq<Queue>, steps: seq<Step>, pieces: seq<Piece>, i: nat)
    requires IsRun(queues, steps) && queues[0] == Queue(pieces, [], [], false, false) && i < |queues|
    ensures InOrder(queues[i], pieces) && queues[i].taken <= pieces
    ensures Enabled(queues[i], Put) || Enabled(queues[i], Next) || (queues[i].over && queues[i].waiting == [])
    ensures queues[i].cancelled && !queues[i].over ==> Enabled(queues[i], Put) && After(queues[i], Put).over
  {
    if i > 0 {
      QueueHolds(queues, steps, pieces, i - 1);
      StepKeepsOrder(queues[i - 1], steps[i - 1], pieces);
    }
    var q := queues[i];
    assert q.taken + q.waiting + q.todo == pieces;
    assert q.taken == pieces[..|q.taken|];
  }

  class PieceQueue {
    var pieces: seq<Piece>
    var isCancelled: bool
    /** What the encoder will put, what was taken, and whether it is over. */
    ghost var todo: seq<Piece>
    ghost var taken: seq<Piece>
    ghost var over: bool

    ghost function Value(): Queue
      reads this
    {
      Queue(todo, pieces, taken, isCancelled, over)
    }

    constructor (ghost all: seq<Piece>)
      ensures Value() == Queue(all, [], [], false, false)
    {
      pieces, isCancelled := [], false;
      todo, taken, over := all, [], false;
    }

    /** Once there is room or it was cancelled: false in that case, and the
        encoder puts no more. */
    method Put(piece: Piece) returns (put: bool)
      requires Enabled(Value(), Step.Put) && todo != [] && todo[0] == piece
      modifies this
      ensures Value() == After(old(Value()), Step.Put) && (put <==> !isCancelled)
    {
      if isCancelled {
        over := true;
        return false;
      }
      pieces := pieces + [piece];
      todo := todo[1..];
      put := true;
    }

    /** Once there is one. */
    method Take() returns (piece: Piece)
      requires Enabled(Value(), Step.Next)
      modifies this
      ensures Value() == After(old(Value()), Step.Next) && taken == old(taken) + [piece]
    {
      piece := pieces[0];
      pieces := pieces[1..];
      taken := taken + [piece];
    }

    method Cancel()
      requires Enabled(Value(), Step.Stop)
      modifies this`isCancelled
      ensures Value() == After(old(Value()), Step.Stop)
    {
      isCancelled := true;
    }
  }

  // -------------------------------------------------------------- The framing

  /** A chunk's length, most significant byte first. */
  function Length(n: nat): (header: seq<byte>)
    ensures |header| == LENGTH_BYTES
  {
    MostFirst(n, LENGTH_BYTES)
  }

  function LengthOf(wire: seq<byte>): nat
    requires |wire| >= LENGTH_BYTES
  {
    BigEndian(wire[..LENGTH_BYTES])
  }

  function Framed(chunks: seq<seq<byte>>): (wire: seq<byte>)
    requires forall i :: 0 <= i < |chunks| ==> |chunks[i]| <= MAXIMUM_CHUNK
  {
    if chunks == [] then [] else Length(|chunks[0]|) + chunks[0] + Framed(chunks[1..])
  }

  /** What a relay stores of what came before the connection broke, or before
      the empty chunk that ends the stream. */
  function Stored(wire: seq<byte>): (bytes: seq<byte>)
    decreases |wire|
  {
    if |wire| < LENGTH_BYTES || LengthOf(wire) == 0 then []
    else if LENGTH_BYTES + LengthOf(wire) >= |wire| then wire[LENGTH_BYTES..]
    else wire[LENGTH_BYTES..LENGTH_BYTES + LengthOf(wire)] + Stored(wire[LENGTH_BYTES + LengthOf(wire)..])
  }

  /** Whether a relay saw the end of the stream. */
  predicate SawEnd(wire: seq<byte>)
    decreases |wire|
  {
    |wire| >= LENGTH_BYTES
    && (LengthOf(wire) == 0
        || (LENGTH_BYTES + LengthOf(wire) < |wire| && SawEnd(wire[LENGTH_BYTES + LengthOf(wire)..])))
  }

  lemma LengthRoundTrip(n: nat, rest: seq<byte>)
    requires n <= MAXIMUM_CHUNK
    ensures LengthOf(Length(n) + rest) == n
  {
    Power256Values();
    BigEndianOfMostFirst(n, LENGTH_BYTES);
    assert (Length(n) + rest)[..LENGTH_BYTES] == Length(n);
  }

  ghost predicate Sendable(chunks: seq<seq<byte>>)
  {
    forall i :: 0 <= i < |chunks| ==> 0 < |chunks[i]| <= MAXIMUM_CHUNK
  }

  /** Cut in the first chunk: what came of it is stored. */
  lemma CutInAChunk(chunk: seq<byte>, next: seq<byte>, cut: nat)
    requires 0 < |chunk| <= MAXIMUM_CHUNK && LENGTH_BYTES <= cut <= LENGTH_BYTES + |chunk|
    ensures var wire := (Length(|chunk|) + chunk + next)[..cut];
            Stored(wire) == chunk[..cut - LENGTH_BYTES] && !SawEnd(wire)
  {
    var wire := (Length(|chunk|) + chunk + next)[..cut];
    assert wire == Length(|chunk|) + chunk[..cut - LENGTH_BYTES];
    LengthRoundTrip(|chunk|, chunk[..cut - LENGTH_BYTES]);
  }

  lemma Slices(a: seq<byte>, b: seq<byte>, c: seq<byte>)
    ensures (a + b + c)[|a|..] == b + c
    ensures (a + b + c)[|a|..|a| + |b|] == b && (a + b + c)[|a| + |b|..] == c
  {
  }

  /** A whole chunk is stored, and then whatever comes of what follows. */
  lemma ChunkIsStored(chunk: seq<byte>, next: seq<byte>)
    requires 0 < |chunk| <= MAXIMUM_CHUNK
    ensures Stored(Length(|chunk|) + chunk + next) == chunk + Stored(next)
    ensures SawEnd(Length(|chunk|) + chunk + next) <==> SawEnd(next)
  {
    AppendAssociates(Length(|chunk|), chunk, next);
    LengthRoundTrip(|chunk|, chunk + next);
    Slices(Length(|chunk|), chunk, next);
  }

  lemma PrefixPast(a: seq<byte>, b: seq<byte>, cut: nat)
    requires cut <= |b|
    ensures (a + b)[..|a| + cut] == a + b[..cut]
  {
  }

  /** What a cut of a framing leaves with the relay: a prefix of what was
      framed, all of it once the framing is whole, and no end. */
  ghost predicate StoresAPrefix(wire: seq<byte>, all: seq<byte>, cut: nat)
    requires cut <= |wire|
  {
    && Stored(wire[..cut]) <= all && !SawEnd(wire[..cut])
    && (cut == |wire| ==> Stored(wire[..cut]) == all)
  }

  lemma CutInTheFirst(chunk: seq<byte>, next: seq<byte>, rest: seq<byte>, cut: nat)
    requires 0 < |chunk| <= MAXIMUM_CHUNK && LENGTH_BYTES <= cut <= LENGTH_BYTES + |chunk|
    requires next == [] ==> rest == []
    ensures StoresAPrefix(Length(|chunk|) + chunk + next, chunk + rest, cut)
  {
    CutInAChunk(chunk, next, cut);
  }

  lemma CutPastTheFirst(chunk: seq<byte>, next: seq<byte>, rest: seq<byte>, cut: nat)
    requires 0 < |chunk| <= MAXIMUM_CHUNK && cut <= |next| && StoresAPrefix(next, rest, cut)
    ensures StoresAPrefix(Length(|chunk|) + chunk + next, chunk + rest, LENGTH_BYTES + |chunk| + cut)
  {
    PrefixPast(Length(|chunk|) + chunk, next, cut);
    ChunkIsStored(chunk, next[..cut]);
  }

  /** So for chunks cut anywhere. */
  lemma {:induction false} CutStoresAPrefix(chunks: seq<seq<byte>>, cut: nat)
    requires Sendable(chunks) && cut <= |Framed(chunks)|
    ensures StoresAPrefix(Framed(chunks), Concat(chunks), cut)
  {
    if chunks != [] && cut >= LENGTH_BYTES {
      var one := LENGTH_BYTES + |chunks[0]|;
      if cut <= one {
        CutInTheFirst(chunks[0], Framed(chunks[1..]), Concat(chunks[1..]), cut);
      } else {
        CutStoresAPrefix(chunks[1..], cut - one);
        CutPastTheFirst(chunks[0], Framed(chunks[1..]), Concat(chunks[1..]), cut - one);
      }
    }
  }

  /** All the chunks are stored, and then whatever comes of what follows. */
  lemma {:induction false} ChunksAreStored(chunks: seq<seq<byte>>, more: seq<byte>)
    requires Sendable(chunks)
    ensures Stored(Framed(chunks) + more) == Concat(chunks) + Stored(more)
    ensures SawEnd(Framed(chunks) + more) <==> SawEnd(more)
  {
    if chunks == [] {
      assert [] + more == more && [] + Stored(more) == Stored(more);
    } else {
      ChunksAreStored(chunks[1..], more);
      AppendAssociates(Length(|chunks[0]|) + chunks[0], Framed(chunks[1..]), more);
      AppendAssociates(chunks[0], Concat(chunks[1..]), Stored(more));
      ChunkIsStored(chunks[0], Framed(chunks[1..]) + more);
    }
  }

  /** With the empty chunk after it, all is stored and the end seen. */
  lemma EndIsSeen(chunks: seq<seq<byte>>, rest: seq<byte>)
    requires Sendable(chunks)
    ensures var wire := Framed(chunks) + Length(0) + rest;
            SawEnd(wire) && Stored(wire) == Concat(chunks)
  {
    AppendAssociates(Framed(chunks), Length(0), rest);
    ChunksAreStored(chunks, Length(0) + rest);
    LengthRoundTrip(0, rest);
    assert Concat(chunks) + [] == Concat(chunks);
  }

  // -------------------------------------------------------------- The upload

  /** The chunks less the bytes the relay has already. */
  function From(chunks: seq<seq<byte>>, offset: nat): (rest: seq<seq<byte>>)
  {
    if chunks == [] then []
    else if |chunks[0]| <= offset then From(chunks[1..], offset - |chunks[0]|)
    else [chunks[0][offset..]] + chunks[1..]
  }

  lemma RestPastFirst(first: seq<byte>, rest: seq<byte>, offset: nat)
    requires |first| <= offset <= |first| + |rest|
    ensures (first + rest)[offset..] == rest[offset - |first|..]
  {
  }

  lemma RestFromFirst(first: seq<byte>, rest: seq<byte>, offset: nat)
    requires offset <= |first|
    ensures (first + rest)[offset..] == first[offset..] + rest
  {
  }

  lemma ConcatOfFirst(first: seq<byte>, rest: seq<seq<byte>>)
    ensures Concat([first] + rest) == first + Concat(rest)
  {
    assert ([first] + rest)[1..] == rest;
  }

  lemma {:induction false} FromIsTheRest(chunks: seq<seq<byte>>, offset: nat)
    requires Sendable(chunks) && offset <= |Concat(chunks)|
    ensures Sendable(From(chunks, offset)) && Concat(From(chunks, offset)) == Concat(chunks)[offset..]
  {
    FromIsSendable(chunks, offset);
    if chunks != [] {
      if |chunks[0]| <= offset {
        FromIsTheRest(chunks[1..], offset - |chunks[0]|);
        RestPastFirst(chunks[0], Concat(chunks[1..]), offset);
      } else {
        ConcatOfFirst(chunks[0][offset..], chunks[1..]);
        RestFromFirst(chunks[0], Concat(chunks[1..]), offset);
      }
    }
  }

  datatype Outcome = Committed | Lost | TooMuchStored | EncodingFailed

  class DropConnection {
    var wire: seq<byte>
    /** How much goes through before the connection breaks, if it does. */
    const room: Option<nat>

    constructor (room: Option<nat>)
      ensures wire == [] && this.room == room
    {
      wire := [];
      this.room := room;
    }

    ghost predicate Valid()
      reads this
    {
      room.None? || |wire| <= room.value
    }

    /** What was written to it, as far as it goes. */
    ghost function Got(all: seq<byte>): seq<byte>
    {
      if room.None? || |all| <= room.value then all else all[..room.value]
    }

    method Write(bytes: seq<byte>) returns (done: bool)
      requires Valid()
      modifies this`wire
      ensures Valid() && wire == Got(old(wire) + bytes) && (done <==> wire == old(wire) + bytes)
    {
      wire := wire + bytes;
      if room.Some? && |wire| > room.value {
        wire := wire[..room.value];
        return false;
      }
      done := true;
    }

    method WriteChunk(bytes: seq<byte>) returns (done: bool)
      requires Valid() && |bytes| <= MAXIMUM_CHUNK
      modifies this`wire
      ensures Valid() && wire == Got(old(wire) + (Length(|bytes|) + bytes))
      ensures done <==> wire == old(wire) + (Length(|bytes|) + bytes)
    {
      ghost var before := wire;
      AppendAssociates(before, Length(|bytes|), bytes);
      done := Write(Length(|bytes|));
      if !done {
        return;
      }
      if |bytes| > 0 {
        done := Write(bytes);
      }
    }
  }

  /** Chunks, then the end or a failure: what the encoder puts. */
  function Pieces(chunks: seq<seq<byte>>, failed: bool): (pieces: seq<Piece>)
    ensures |pieces| == |chunks| + 1
    ensures forall i :: 0 <= i < |chunks| ==> pieces[i] == Chunk(chunks[i])
    ensures pieces[|chunks|] == if failed then Failure else End
  {
    if chunks == [] then [if failed then Failure else End] else [Chunk(chunks[0])] + Pieces(chunks[1..], failed)
  }

  lemma FromNothing(chunks: seq<seq<byte>>)
    requires Sendable(chunks)
    ensures From(chunks, 0) == chunks
  {
    if chunks != [] {
      assert chunks[0][0..] == chunks[0] && [chunks[0]] + chunks[1..] == chunks;
    }
  }

  /** Whatever is left out of the front, the rest can be sent. */
  lemma {:induction false} FromIsSendable(chunks: seq<seq<byte>>, offset: nat)
    requires Sendable(chunks)
    ensures Sendable(From(chunks, offset))
  {
    if chunks != [] && |chunks[0]| <= offset {
      FromIsSendable(chunks[1..], offset - |chunks[0]|);
    }
  }

  function Less(a: nat, b: nat): nat
  {
    if a >= b then a - b else 0
  }

  /** A piece the relay has is left out. */
  lemma SkippedPiece(chunks: seq<seq<byte>>, offset: nat)
    requires Sendable(chunks) && chunks != [] && |chunks[0]| <= offset
    ensures From(chunks, offset) == From(chunks[1..], Less(offset, |chunks[0]|))
  {
  }

  /** A piece it has not, or not whole, is written from there on. */
  lemma WrittenPiece(chunks: seq<seq<byte>>, offset: nat)
    requires Sendable(chunks) && chunks != [] && offset < |chunks[0]|
    requires Sendable(From(chunks, offset))
    ensures Framed(From(chunks, offset)) == Length(|chunks[0]| - offset) + chunks[0][offset..] + Framed(chunks[1..])
  {
    FramedOneMore(chunks[0][offset..], chunks[1..]);
  }

  lemma FramedOneMore(first: seq<byte>, rest: seq<seq<byte>>)
    requires Sendable(rest) && 0 < |first| <= MAXIMUM_CHUNK
    ensures Sendable([first] + rest) && Framed([first] + rest) == Length(|first|) + first + Framed(rest)
  {
    assert ([first] + rest)[1..] == rest;
  }

  /** What was written and what is left to write, `left` bytes of it not to
      be, are `all`. */
  ghost predicate Toward(wire: seq<byte>, rest: seq<seq<byte>>, left: nat, all: seq<byte>)
  {
    Sendable(rest) && Sendable(From(rest, left)) && wire + Framed(From(rest, left)) == all
  }

  /** One piece: skipped, or written from where the relay's end. */
  method PutPiece(connection: DropConnection, data: seq<byte>, left: nat,
                  ghost rest: seq<seq<byte>>, ghost all: seq<byte>)
    returns (done: bool)
    requires connection.Valid() && rest != [] && rest[0] == data && Toward(connection.wire, rest, left, all)
    modifies connection
    ensures connection.Valid() && connection.wire <= all
    ensures done ==> Toward(connection.wire, rest[1..], Less(left, |data|), all)
    ensures !done ==> connection.room.Some?
    ensures |data| <= left ==> done && connection.wire == old(connection.wire)
  {
    if |data| <= left {
      SkippedPiece(rest, left);
      return true;
    }
    WrittenPiece(rest, left);
    FromNothing(rest[1..]);
    AppendAssociates(connection.wire, Length(|data| - left) + data[left..], Framed(rest[1..]));
    done := connection.WriteChunk(data[left..]);
  }

  /** After the last chunk: nothing more, or the empty one. */
  method Finish(connection: DropConnection, failed: bool, position: nat, offset: nat, ghost all: seq<byte>)
    returns (outcome: Outcome)
    requires connection.Valid() && Toward(connection.wire, [], Less(offset, position), all)
    modifies connection
    ensures connection.wire <= all + Length(0) && old(connection.wire) == all
    ensures outcome == if failed then EncodingFailed
                       else if position < offset then TooMuchStored
                       else if connection.wire == all + Length(0) then Committed else Lost
    ensures failed || position < offset ==> connection.wire == all
    ensures outcome.Lost? ==> connection.room.Some?
  {
    assert connection.wire + [] == connection.wire;
    if failed {
      return EncodingFailed;
    }
    if position < offset {
      return TooMuchStored;
    }
    var done := connection.Write(Length(0));
    outcome := if done then Committed else Lost;
  }

  lemma NextChunk(chunks: seq<seq<byte>>, i: nat)
    requires i < |chunks|
    ensures chunks[i..] != [] && chunks[i..][0] == chunks[i] && chunks[i..][1..] == chunks[i + 1..]
    ensures |Concat(chunks[i..])| == |chunks[i]| + |Concat(chunks[i + 1..])|
  {
    assert chunks[i..][1..] == chunks[i + 1..];
  }

  /** Every chunk, in the order they come, less what is to be left out. */
  method PutChunks(connection: DropConnection, pieces: seq<Piece>, offset: nat,
                   ghost chunks: seq<seq<byte>>, ghost all: seq<byte>)
    returns (done: bool, position: nat)
    requires |pieces| == |chunks| + 1 && !pieces[|chunks|].Chunk?
    requires forall i :: 0 <= i < |chunks| ==> pieces[i] == Chunk(chunks[i])
    requires connection.wire == [] && connection.Valid() && Toward([], chunks, offset, all)
    modifies connection
    ensures connection.Valid() && connection.wire <= all
    ensures done ==> position == |Concat(chunks)| && (position <= offset ==> connection.wire == [])
    ensures done ==> Toward(connection.wire, chunks[|chunks|..], Less(offset, position), all)
    ensures !done ==> connection.room.Some?
  {
    var i := 0;
    position := 0;
    assert chunks[0..] == chunks;
    while pieces[i].Chunk?
      invariant i <= |chunks| && connection.Valid()
      invariant position + |Concat(chunks[i..])| == |Concat(chunks)| && (position <= offset ==> connection.wire == [])
      invariant Toward(connection.wire, chunks[i..], Less(offset, position), all)
      decreases |pieces| - i
    {
      var data := pieces[i].data;
      NextChunk(chunks, i);
      done := PutPiece(connection, data, Less(offset, position), chunks[i..], all);
      if !done {
        return;
      }
      position := position + |data|;
      i := i + 1;
    }
    done := true;
  }

  /** Writes the stream from `offset` on and ends it. What goes out is always
      a front part of that, all of it when the upload is committed. */
  method Upload(connection: DropConnection, chunks: seq<seq<byte>>, failed: bool, offset: nat)
    returns (outcome: Outcome)
    requires connection.wire == [] && connection.Valid() && Sendable(chunks)
    modifies connection
    ensures Sendable(From(chunks, offset))
    ensures connection.wire <= Framed(From(chunks, offset)) + Length(0)
    ensures outcome.Committed? ==>
              !failed && offset <= |Concat(chunks)| && connection.wire == Framed(From(chunks, offset)) + Length(0)
    ensures outcome.TooMuchStored? ==> !failed && offset > |Concat(chunks)| && connection.wire == []
    ensures outcome.EncodingFailed? ==> failed && connection.wire == Framed(From(chunks, offset))
    ensures outcome.Lost? ==> connection.room.Some?
  {
    FromIsSendable(chunks, offset);
    ghost var all := Framed(From(chunks, offset));
    assert [] + all == all;
    var done, position := PutChunks(connection, Pieces(chunks, failed), offset, chunks, all);
    if !done {
      return Lost;
    }
    assert chunks[|chunks|..] == [];
    outcome := Finish(connection, failed, position, offset, all);
  }

  // ------------------------------------------------------------- Many uploads

  /** What the relay holds of a stream after uploads of it that each got so
      many bytes through, every one resumed from what it held then. */
  function HeldAfter(chunks: seq<seq<byte>>, cuts: seq<nat>): (held: seq<byte>)
    requires Sendable(chunks)
  {
    if cuts == [] then []
    else
      var held := HeldAfter(chunks, cuts[..|cuts| - 1]);
      FromIsSendable(chunks, |held|);
      var wire := Framed(From(chunks, |held|)) + Length(0);
      held + Stored(wire[..if cuts[|cuts| - 1] <= |wire| then cuts[|cuts| - 1] else |wire|])
  }

  /** However often and wherever uploads break, the relay holds a prefix of
      the stream; one that goes through leaves it the whole. */
  lemma {:induction false} ResumedUploadIsExact(stream: seq<byte>, size: nat, cuts: seq<nat>)
    requires 0 < size <= MAXIMUM_CHUNK
    ensures var chunks := Chunked(stream, size);
            Sendable(chunks) && HeldAfter(chunks, cuts) <= stream
    ensures var chunks := Chunked(stream, size);
            cuts != [] && Sendable(chunks) ==>
              var held := HeldAfter(chunks, cuts[..|cuts| - 1]);
              Sendable(From(chunks, |held|)) &&
              (cuts[|cuts| - 1] >= |Framed(From(chunks, |held|))| + LENGTH_BYTES ==> HeldAfter(chunks, cuts) == stream)
    decreases |cuts|
  {
    var chunks := Chunked(stream, size);
    ChunkedIsTheStream(stream, size);
    if cuts != [] {
      ResumedUploadIsExact(stream, size, cuts[..|cuts| - 1]);
      var held := HeldAfter(chunks, cuts[..|cuts| - 1]);
      FromIsTheRest(chunks, |held|);
      OneMoreUpload(stream, held, From(chunks, |held|), cuts[|cuts| - 1]);
    }
  }

  lemma OneMoreUpload(stream: seq<byte>, held: seq<byte>, rest: seq<seq<byte>>, cut: nat)
    requires held <= stream && Sendable(rest) && Concat(rest) == stream[|held|..]
    ensures var wire := Framed(rest) + Length(0);
            var sent := wire[..if cut <= |wire| then cut else |wire|];
            held + Stored(sent) <= stream && (cut >= |wire| ==> held + Stored(sent) == stream)
  {
    var wire := Framed(rest) + Length(0);
    if cut < |Framed(rest)| {
      CutStoresAPrefix(rest, cut);
      assert wire[..cut] == Framed(rest)[..cut];
    } else if cut < |wire| {
      StoredBeforeTheEnd(rest, wire[|Framed(rest)|..cut]);
      assert wire[..cut] == Framed(rest) + wire[|Framed(rest)|..cut];
    } else {
      EndIsSeen(rest, []);
      assert wire + [] == wire && wire[..|wire|] == wire;
    }
  }

  /** A length not yet whole adds nothing. */
  lemma StoredBeforeTheEnd(chunks: seq<seq<byte>>, part: seq<byte>)
    requires Sendable(chunks) && |part| < LENGTH_BYTES
    ensures Stored(Framed(chunks) + part) == Concat(chunks)
  {
    ChunksAreStored(chunks, part);
    assert Concat(chunks) + [] == Concat(chunks);
  }
}
