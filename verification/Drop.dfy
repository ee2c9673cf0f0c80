/**
 Uploading to the drop zone: a stream of compressed bytes cut into chunks on
 one thread, handed over through a short queue, and written to the relay from
 where it left off.
 */
module Drop {
  import opened Bytes
  import opened Wrappers

  const MAXIMUM_QUEUED := 4
  const MAXIMUM_CHUNK := 0x10_0000

  datatype Piece = Chunk(data: seq<byte>) | End | Failure

  function Concat(chunks: seq<seq<byte>>): seq<byte>
  {
    if chunks == [] then [] else chunks[0] + Concat(chunks[1..])
  }

  lemma {:induction false} ConcatInTwo(a: seq<seq<byte>>, b: seq<seq<byte>>)
    ensures Concat(a + b) == Concat(a) + Concat(b)
  {
    if a == [] {
      assert a + b == b;
    } else {
      assert (a + b)[1..] == a[1..] + b;
      ConcatInTwo(a[1..], b);
    }
  }

  /** A stream in chunks of `size`, the last one what is left. */
  function Chunked(stream: seq<byte>, size: nat): (chunks: seq<seq<byte>>)
    requires size > 0
  {
    if stream == [] then []
    else if |stream| <= size then [stream]
    else [stream[..size]] + Chunked(stream[size..], size)
  }

  /** The chunks are the stream, none empty, none larger than `size`, and
      all but the last exactly that. */
  lemma {:induction false} ChunkedIsTheStream(stream: seq<byte>, size: nat)
    requires size > 0
    ensures var chunks := Chunked(stream, size);
            && Concat(chunks) == stream
            && (forall i :: 0 <= i < |chunks| ==> 0 < |chunks[i]| <= size)
            && (forall i :: 0 <= i < |chunks| - 1 ==> |chunks[i]| == size)
  {
    if |stream| > size {
      ChunkedIsTheStream(stream[size..], size);
      var rest := Chunked(stream[size..], size);
      assert Chunked(stream, size)[1..] == rest;
      assert rest != [];
    } else if stream != [] {
      assert [stream][1..] == [];
    }
  }

  // ---------------------------------------------------------------- Encoding

  /** One turn of the encoder: a read that was interrupted or failed, or one
      of so many bytes and what compressing them put out, possibly in vain.
      A read of nothing is the end of the file. */
  datatype Turn = Interrupted | Unreadable | Compressed(count: nat, outputs: seq<seq<byte>>, fails: bool)

  predicate Ends(turn: Turn)
  {
    turn.Unreadable? || (turn.Compressed? && (turn.fails || turn.count == 0))
  }

  predicate Fails(turn: Turn)
  {
    turn.Unreadable? || (turn.Compressed? && turn.fails)
  }

  function OutputOf(turn: Turn): seq<byte>
  {
    if turn.Compressed? then Concat(turn.outputs) else []
  }

  /** All that was put out, to the turn that ends it. */
  function StreamOf(turns: seq<Turn>): seq<byte>
  {
    if turns == [] then [] else if Ends(turns[0]) then OutputOf(turns[0]) else OutputOf(turns[0]) + StreamOf(turns[1..])
  }

  /** Whether the turn that ends it is a failure. */
  predicate Failed(turns: seq<Turn>)
  {
    turns != [] && if Ends(turns[0]) then Fails(turns[0]) else Failed(turns[1..])
  }

  predicate Finishes(turns: seq<Turn>)
  {
    turns != [] && (Ends(turns[0]) || Finishes(turns[1..]))
  }

  /** Chunks out of what is pending, while there are whole ones. */
  function Whole(pending: seq<byte>, size: nat): (r: (seq<seq<byte>>, seq<byte>))
    requires size > 0
    ensures |r.1| < size
    ensures forall i :: 0 <= i < |r.0| ==> |r.0[i]| == size
  {
    if |pending| < size then ([], pending)
    else
      var (chunks, left) := Whole(pending[size..], size);
      ([pending[..size]] + chunks, left)
  }

  lemma {:induction false} WholeThenRest(pending: seq<byte>, more: seq<byte>, size: nat)
    requires size > 0
    ensures var (chunks, left) := Whole(pending, size);
            && Concat(chunks) + left == pending
            && Chunked(pending + more, size) == chunks + Chunked(left + more, size)
  {
    if |pending| >= size {
      WholeThenRest(pending[size..], more, size);
      var (chunks, left) := Whole(pending[size..], size);
      assert (pending + more)[..size] == pending[..size];
      assert (pending + more)[size..] == pending[size..] + more;
      FirstChunk(pending + more, size);
      assert ([pending[..size]] + chunks)[1..] == chunks;
      AppendAssociates(pending[..size], Concat(chunks), left);
      AppendAssociates([pending[..size]], chunks, Chunked(left + more, size));
    }
  }

  lemma FirstChunk(stream: seq<byte>, size: nat)
    requires 0 < size <= |stream|
    ensures Chunked(stream, size) == [stream[..size]] + Chunked(stream[size..], size)
  {
    if |stream| == size {
      assert stream[..size] == stream;
    }
  }

  /** The chunks so far and what is pending are all of `done`, whatever is to
      come after it. */
  ghost predicate Keeps(pieces: seq<seq<byte>>, pending: seq<byte>, done: seq<byte>, size: nat)
    requires size > 0
  {
    && |pending| < size && Concat(pieces) + pending == done
    && (forall i :: 0 <= i < |pieces| ==> |pieces[i]| == size)
    && forall more :: Chunked(done + more, size) == pieces + Chunked(pending + more, size)
  }

  lemma KeepsAtTheEnd(pieces: seq<seq<byte>>, pending: seq<byte>, done: seq<byte>, size: nat)
    requires size > 0 && Keeps(pieces, pending, done, size)
    ensures Chunked(done, size) == if pending == [] then pieces else pieces + [pending]
  {
    assert done + [] == done && pending + [] == pending && pieces + [] == pieces;
    assert Chunked(done + [], size) == pieces + Chunked(pending + [], size);
  }

  class DropEncoder {
    const size: nat
    var pending: seq<byte>
    var pieces: seq<seq<byte>>
    var outcome: Option<Piece>

    constructor (size: nat)
      ensures this.size == size && pending == [] && pieces == [] && outcome.None?
    {
      this.size := size;
      pending, pieces, outcome := [], [], None;
    }

    method Emit(output: seq<byte>)
      requires size > 0
      modifies this`pending, this`pieces
      ensures var (chunks, left) := Whole(old(pending) + output, size);
              (pieces, pending) == (old(pieces) + chunks, left)
    {
      pending := pending + output;
      ghost var all := pending;
      assert pieces + Whole(all, size).0 == old(pieces) + Whole(all, size).0;
      while |pending| >= size
        invariant Whole(pending, size).1 == Whole(all, size).1
        invariant pieces + Whole(pending, size).0 == old(pieces) + Whole(all, size).0
        decreases |pending|
      {
        AppendAssociates(pieces, [pending[..size]], Whole(pending[size..], size).0);
        pieces := pieces + [pending[..size]];
        pending := pending[size..];
      }
      assert pieces + [] == pieces;
    }

    /** Reads and compresses to the end of the file, or to a failure. The
        chunks put out are the stream's; a failure puts out no short one. */
    method Run(turns: seq<Turn>)
      requires size > 0 && Finishes(turns) && pending == [] && pieces == []
      modifies this
      ensures outcome == Some(if Failed(turns) then Failure else End)
      ensures !Failed(turns) ==> pieces == Chunked(StreamOf(turns), size)
      ensures Failed(turns) ==>
        && Concat(pieces) + pending == StreamOf(turns) && |pending| < size
        && forall i :: 0 <= i < |pieces| ==> |pieces[i]| == size
    {
      var i := 0;
      ghost var done: seq<byte> := [];
      assert turns[0..] == turns && [] + StreamOf(turns) == StreamOf(turns);
      var isLast := false;
      while !isLast
        invariant i < |turns| && isLast == (isLast && Ends(turns[i])) && Keeps(pieces, pending, done, size)
        invariant isLast ==> done == StreamOf(turns) && Failed(turns) == Fails(turns[i])
        invariant !isLast ==>
          (&& Finishes(turns[i..]) && Failed(turns[i..]) == Failed(turns)
           && done + StreamOf(turns[i..]) == StreamOf(turns))
        decreases |turns| - i, !isLast
      {
        assert turns[i..][1..] == turns[i + 1..];
        ghost var rest := if Ends(turns[i]) then [] else StreamOf(turns[i + 1..]);
        AppendAssociates(done, OutputOf(turns[i]), rest);
        assert OutputOf(turns[i]) + [] == OutputOf(turns[i]);
        Turned(turns[i], done);
        done := done + OutputOf(turns[i]);
        assert done + [] == done;
        if Ends(turns[i]) {
          isLast := true;
        } else {
          i := i + 1;
        }
      }
      Finish(Fails(turns[i]), done);
    }

    /** The end: the last chunk is what is left, unless it failed. */
    method Finish(failed: bool, ghost done: seq<byte>)
      requires size > 0 && Keeps(pieces, pending, done, size)
      modifies this`pieces, this`outcome
      ensures outcome == Some(if failed then Failure else End)
      ensures pieces == if failed then old(pieces) else Chunked(done, size)
    {
      KeepsAtTheEnd(pieces, pending, done, size);
      if failed {
        outcome := Some(Failure);
        return;
      }
      if pending != [] {
        pieces := pieces + [pending];
      }
      outcome := Some(End);
    }

    method Turned(turn: Turn, ghost done: seq<byte>)
      requires size > 0 && Keeps(pieces, pending, done, size)
      modifies this`pending, this`pieces
      ensures Keeps(pieces, pending, done + OutputOf(turn), size)
    {
      assert done + [] == done;
      if turn.Compressed? {
        Compress(turn.outputs, done);
      }
    }

    /** All that compressing one read put out. */
    method Compress(outputs: seq<seq<byte>>, ghost done: seq<byte>)
      requires size > 0 && Keeps(pieces, pending, done, size)
      modifies this`pending, this`pieces
      ensures Keeps(pieces, pending, done + Concat(outputs), size)
    {
      var k := 0;
      ghost var so := done;
      assert outputs[0..] == outputs;
      while k < |outputs|
        invariant k <= |outputs| && Keeps(pieces, pending, so, size)
        invariant so + Concat(outputs[k..]) == done + Concat(outputs)
      {
        assert outputs[k..][1..] == outputs[k + 1..];
        EmitKeepsStream(pieces, pending, outputs[k], so, size);
        AppendAssociates(so, outputs[k], Concat(outputs[k + 1..]));
        so := so + outputs[k];
        Emit(outputs[k]);
        k := k + 1;
      }
      assert so + [] == so;
    }
  }

  lemma EmitKeepsStream(pieces: seq<seq<byte>>, pending: seq<byte>, output: seq<byte>, done: seq<byte>, size: nat)
    requires size > 0 && Keeps(pieces, pending, done, size)
    ensures var (chunks, left) := Whole(pending + output, size);
            Keeps(pieces + chunks, left, done + output, size)
  {
    var (chunks, left) := Whole(pending + output, size);
    WholeThenRest(pending + output, [], size);
    ConcatInTwo(pieces, chunks);
    AppendAssociates(Concat(pieces), Concat(chunks), left);
    AppendAssociates(Concat(pieces), pending, output);
    forall more
      ensures Chunked(done + output + more, size) == pieces + chunks + Chunked(left + more, size)
    {
      WholeThenRest(pending + output, more, size);
      AppendAssociates(done, output, more);
      AppendAssociates(pending, output, more);
      AppendAssociates(pieces, chunks, Chunked(left + more, size));
      assert Chunked(done + (output + more), size) == pieces + Chunked(pending + (output + more), size);
    }
  }
}
