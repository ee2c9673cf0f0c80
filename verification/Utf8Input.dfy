/**
 The byte-at-a-time decoder against UTF-8 (sections 3 and 4 of RFC 3629):
 encodings come back as their scalars, everything malformed shows nothing,
 and any stretch of text bytes shows what a decoder of the whole string
 makes of it.
 */
module Utf8Input {
  import opened Bytes
  import opened Terminal
  import opened TerminalRuns
  import opened Wrappers

  /** The encoding of a scalar, section 3 of RFC 3629. */
  function Encode(s: Scalar): (bytes: seq<byte>)
  {
    if s < 0x80 then [s]
    else if s < 0x800 then [0xC0 + s / 0x40, Tail(s)]
    else if s < 0x10000 then [0xE0 + s / 0x1000, Tail(s / 0x40), Tail(s)]
    else [0xF0 + s / 0x40000, Tail(s / 0x1000), Tail(s / 0x40), Tail(s)]
  }

  function Tail(v: nat): (b: byte)
    ensures IsContinuation(b)
  {
    0x80 + v % 0x40
  }

  function EncodeAll(text: seq<Scalar>): seq<byte>
  {
    if text == [] then [] else Encode(text[0]) + EncodeAll(text[1..])
  }

  predicate Printable(s: Scalar) { s >= 0x20 && s != 0x7F }

  /** No ASCII character is a mark. */
  ghost predicate AsciiIsPlain(u: Unicode)
  {
    forall s: Scalar :: s < 0x80 ==> !u.isMark(s)
  }

  lemma EncodingIsDecoded(s: Scalar)
    requires s >= 0x80
    ensures IsWholeSequence(Encode(s)) && Decode(Encode(s)) == Some(s)
  {
    var bytes := Encode(s);
    if s < 0x800 {
      assert Assemble(bytes) == 0x40 * (s / 0x40) + s % 0x40;
    } else if s < 0x10000 {
      assert s / 0x40 == 0x40 * (s / 0x1000) + (s / 0x40) % 0x40;
      assert Assemble(bytes) == 0x40 * (s / 0x40) + s % 0x40;
    } else {
      assert s / 0x1000 == 0x40 * (s / 0x40000) + (s / 0x1000) % 0x40;
      assert s / 0x40 == 0x40 * (s / 0x1000) + (s / 0x40) % 0x40;
      assert Assemble(bytes) == 0x40 * (s / 0x40) + s % 0x40;
    }
  }

  lemma DigitsOfTwo(a: nat, b: nat)
    requires b < 0x40
    ensures var v := 0x40 * a + b;
            v / 0x40 == a && v % 0x40 == b
  {
  }

  lemma EncodingOfTwo(bytes: seq<byte>)
    requires IsWholeSequence(bytes) && Decode(bytes).Some? && |bytes| == 2
    ensures bytes == Encode(Decode(bytes).value)
  {
    DigitsOfTwo(bytes[0] - 0xC0, Payload(bytes[1]));
  }

  lemma EncodingOfThree(bytes: seq<byte>)
    requires IsWholeSequence(bytes) && Decode(bytes).Some? && |bytes| == 3
    ensures bytes == Encode(Decode(bytes).value)
  {
    var v, x := Decode(bytes).value, bytes[0] - 0xE0;
    var y := 0x40 * x + Payload(bytes[1]);
    DigitsOfTwo(x, Payload(bytes[1]));
    DigitsOfTwo(y, Payload(bytes[2]));
    assert v / 0x1000 == y / 0x40;
  }

  lemma EncodingOfFour(bytes: seq<byte>)
    requires IsWholeSequence(bytes) && Decode(bytes).Some? && |bytes| == 4
    ensures bytes == Encode(Decode(bytes).value)
  {
    var v, x := Decode(bytes).value, bytes[0] - 0xF0;
    var y := 0x40 * x + Payload(bytes[1]);
    var z := 0x40 * y + Payload(bytes[2]);
    DigitsOfTwo(x, Payload(bytes[1]));
    DigitsOfTwo(y, Payload(bytes[2]));
    DigitsOfTwo(z, Payload(bytes[3]));
    assert v / 0x1000 == z / 0x40 && v / 0x40000 == y / 0x40;
  }

  lemma EncodingOfDecoded(bytes: seq<byte>)
    requires IsWholeSequence(bytes) && Decode(bytes).Some?
    ensures bytes == Encode(Decode(bytes).value)
  {
    if |bytes| == 2 {
      EncodingOfTwo(bytes);
    } else if |bytes| == 3 {
      EncodingOfThree(bytes);
    } else {
      EncodingOfFour(bytes);
    }
  }

  /** A whole sequence stands for a scalar exactly when it is that scalar's
      encoding, so for nothing that RFC 3629 rules out. */
  lemma DecodedIsEncoding(bytes: seq<byte>, s: Scalar)
    requires IsWholeSequence(bytes)
    ensures Decode(bytes) == Some(s) <==> bytes == Encode(s)
  {
    if bytes == Encode(s) {
      EncodingIsDecoded(s);
    }
    if Decode(bytes) == Some(s) {
      EncodingOfDecoded(bytes);
    }
  }

  /** In the ground state, with nothing pending. */
  predicate AtRest(t: Term) { t.parser.state.Ground? && t.parser.pendingLength == 0 }

  function EmitAll(u: Unicode, d: Display, text: seq<Scalar>): (r: Display)
    requires DisplayOk(d)
    ensures DisplayOk(r)
    decreases |text|
  {
    if text == [] then d else EmitAll(u, Emit(u, d, text[0]), text[1..])
  }

  // ----------------------------------------------- The reference decoder

  /** How many of the first `limit` bytes are continuations, in a row. */
  function Continuations(bytes: seq<byte>, limit: nat): (n: nat)
    ensures n <= limit && n <= |bytes|
    ensures forall i :: 0 <= i < n ==> IsContinuation(bytes[i])
    ensures n < limit && n < |bytes| ==> !IsContinuation(bytes[n])
  {
    if limit == 0 || bytes == [] || !IsContinuation(bytes[0]) then 0 else 1 + Continuations(bytes[1..], limit - 1)
  }

  /** The scalars of a byte string: printable ASCII, and each lead byte with
      the continuations it announces when they spell a scalar. A lead byte
      short of them goes, with those it has; a stray byte goes. */
  function Scalars(bytes: seq<byte>): (text: seq<Scalar>)
    decreases |bytes|
  {
    if bytes == [] then []
    else
      var length := LeadLength(bytes[0]);
      if length == 0 then (if 0x20 <= bytes[0] < 0x7F then [bytes[0]] else []) + Scalars(bytes[1..])
      else
        var n := 1 + Continuations(bytes[1..], length - 1);
        if n < length then Scalars(bytes[n..])
        else (match Decode(bytes[..length]) case None => [] case Some(s) => [s]) + Scalars(bytes[length..])
  }

  /** No C0 control and no DEL: bytes that only ever print. */
  predicate IsText(bytes: seq<byte>)
  {
    forall i :: 0 <= i < |bytes| ==> bytes[i] >= 0x20 && bytes[i] != 0x7F
  }

  lemma PrefixHasNoScalar(prefix: seq<byte>)
    requires prefix == [] || IsPrefixOfSequence(prefix)
    ensures Scalars(prefix) == []
  {
    if prefix != [] {
      var n := 1 + Continuations(prefix[1..], LeadLength(prefix[0]) - 1);
      assert n == |prefix|;
      assert prefix[n..] == [];
    }
  }

  lemma BrokenPrefixIsDropped(prefix: seq<byte>, rest: seq<byte>)
    requires IsPrefixOfSequence(prefix) && rest != [] && !IsContinuation(rest[0])
    ensures Scalars(prefix + rest) == Scalars(rest)
  {
    var all := prefix + rest;
    var n := 1 + Continuations(all[1..], LeadLength(all[0]) - 1);
    assert all[1..] == prefix[1..] + rest;
    assert n == |prefix| by {
      assert all[1..][|prefix| - 1] == rest[0];
    }
    assert all[n..] == rest;
  }

  lemma WholeIsTaken(whole: seq<byte>, rest: seq<byte>)
    requires IsWholeSequence(whole)
    ensures Scalars(whole + rest) == (match Decode(whole) case None => [] case Some(s) => [s]) + Scalars(rest)
  {
    var all := whole + rest;
    var length := LeadLength(all[0]);
    var n := 1 + Continuations(all[1..], length - 1);
    assert n == length;
    assert all[..length] == whole && all[length..] == rest;
  }

  lemma EmitOne(u: Unicode, d: Display, s: Scalar, rest: seq<Scalar>)
    requires DisplayOk(d)
    ensures EmitAll(u, d, [s] + rest) == EmitAll(u, Emit(u, d, s), rest)
  {
    assert ([s] + rest)[1..] == rest;
  }

  lemma FirstByteApart(pending: seq<byte>, bytes: seq<byte>)
    requires bytes != []
    ensures [bytes[0]] + bytes[1..] == bytes && pending + [bytes[0]] + bytes[1..] == pending + bytes
  {
  }

  /** Any text bytes, in any state of the decoder: what is shown is what the
      reference decoder makes of the pending bytes and these together. */
  lemma {:induction false} DecoderIsReference(u: Unicode, t: Term, bytes: seq<byte>)
    requires Ok(t) && t.parser.state.Ground? && IsText(bytes) && AsciiIsPlain(u)
    ensures Feed(u, t, bytes).display == EmitAll(u, t.display, Scalars(t.parser.pending + bytes))
    ensures Feed(u, t, bytes).parser.state.Ground?
    decreases |bytes|, |t.parser.pending|
  {
    var p := t.parser;
    if bytes == [] {
      assert p.pending + bytes == p.pending;
      PrefixHasNoScalar(p.pending);
    } else if p.pendingLength > 0 && !IsContinuation(bytes[0]) {
      var cleared := t.(parser := p.(pending := [], pendingLength := 0));
      DecoderIsReference(u, cleared, bytes);
      assert Consume(u, t, bytes[0]) == Consume(u, cleared, bytes[0]);
      assert [] + bytes == bytes;
      BrokenPrefixIsDropped(p.pending, bytes);
    } else {
      DecoderIsReference(u, Consume(u, t, bytes[0]), bytes[1..]);
      FirstByteApart(p.pending, bytes);
      OneByte(u, t, bytes[0], bytes[1..]);
    }
  }

  /** The display after one byte, and what is then pending and to come, show
      what the display before did with that byte still to come. */
  ghost predicate ShowsTheSame(u: Unicode, t: Term, b: byte, rest: seq<byte>)
    requires Ok(t)
  {
    EmitAll(u, Consume(u, t, b).display, Scalars(Consume(u, t, b).parser.pending + rest))
      == EmitAll(u, t.display, Scalars(t.parser.pending + [b] + rest))
  }

  lemma OneByteCompletes(u: Unicode, t: Term, b: byte, rest: seq<byte>)
    requires Ok(t) && t.parser.state.Ground? && |t.parser.pending| + 1 == t.parser.pendingLength && IsContinuation(b)
    ensures ShowsTheSame(u, t, b, rest)
  {
    assert Consume(u, t, b).parser.pending == [] && [] + rest == rest;
    Completes(u, t.display, t.parser.pending + [b], rest);
  }

  lemma OneByteStays(u: Unicode, t: Term, b: byte, rest: seq<byte>)
    requires Ok(t) && t.parser.state.Ground?
    requires if t.parser.pendingLength == 0 then LeadLength(b) > 0
             else IsContinuation(b) && |t.parser.pending| + 1 < t.parser.pendingLength
    ensures ShowsTheSame(u, t, b, rest)
  {
    OneByteGathers(u, t, b);
  }

  lemma OneByteAlone(u: Unicode, t: Term, b: byte, rest: seq<byte>)
    requires Ok(t) && t.parser.state.Ground? && t.parser.pendingLength == 0 && LeadLength(b) == 0 && b >= 0x20
    requires AsciiIsPlain(u) && IsText([b] + rest)
    ensures ShowsTheSame(u, t, b, rest)
  {
    assert ([b] + rest)[0] == b && ([b] + rest)[1..] == rest;
    assert [] + rest == rest && [] + [b] + rest == [b] + rest;
    StartsNothing(u, t.display, [b] + rest);
    OneByteActs(u, t, b);
  }

  /** One byte that continues the pending sequence, or begins anew. */
  lemma OneByte(u: Unicode, t: Term, b: byte, rest: seq<byte>)
    requires Ok(t) && t.parser.state.Ground? && IsText([b] + rest) && AsciiIsPlain(u)
    requires t.parser.pendingLength > 0 ==> IsContinuation(b)
    ensures ShowsTheSame(u, t, b, rest)
  {
    var p := t.parser;
    if p.pendingLength > 0 && |p.pending| + 1 == p.pendingLength {
      OneByteCompletes(u, t, b, rest);
    } else if p.pendingLength > 0 || LeadLength(b) > 0 {
      OneByteStays(u, t, b, rest);
    } else {
      assert ([b] + rest)[0] == b;
      OneByteAlone(u, t, b, rest);
    }
  }

  /** A byte that begins nothing is acted on as it is. */
  lemma OneByteActs(u: Unicode, t: Term, b: byte)
    requires Ok(t) && t.parser.state.Ground? && t.parser.pendingLength == 0 && LeadLength(b) == 0 && b >= 0x20
    ensures Consume(u, t, b) == t.(display := Act(t.display, b), parser := t.parser.(pending := []))
  {
  }

  /** A byte that only extends the pending sequence shows nothing. */
  lemma OneByteGathers(u: Unicode, t: Term, b: byte)
    requires Ok(t) && t.parser.state.Ground?
    requires if t.parser.pendingLength == 0 then LeadLength(b) > 0
             else IsContinuation(b) && |t.parser.pending| + 1 < t.parser.pendingLength
    ensures var next := Consume(u, t, b);
            next.display == t.display && next.parser.pending == t.parser.pending + [b]
  {
  }

  lemma Completes(u: Unicode, d: Display, whole: seq<byte>, rest: seq<byte>)
    requires DisplayOk(d) && IsWholeSequence(whole)
    ensures EmitAll(u, EmitBytes(u, d, whole), Scalars(rest)) == EmitAll(u, d, Scalars(whole + rest))
  {
    WholeIsTaken(whole, rest);
    match Decode(whole) {
      case None => assert [] + Scalars(rest) == Scalars(rest);
      case Some(s) => EmitOne(u, d, s, Scalars(rest));
    }
  }

  lemma StrayOrAscii(bytes: seq<byte>)
    requires bytes != [] && LeadLength(bytes[0]) == 0
    ensures Scalars(bytes) == (if 0x20 <= bytes[0] < 0x7F then [bytes[0]] else []) + Scalars(bytes[1..])
  {
  }

  lemma AsciiIsPlaced(u: Unicode, d: Display, b: byte)
    requires DisplayOk(d) && AsciiIsPlain(u) && 0x20 <= b < 0x7F
    ensures Act(d, b) == Emit(u, d, b)
  {
  }

  lemma StartsNothing(u: Unicode, d: Display, bytes: seq<byte>)
    requires DisplayOk(d) && AsciiIsPlain(u)
    requires bytes != [] && IsText(bytes) && LeadLength(bytes[0]) == 0
    ensures EmitAll(u, Act(d, bytes[0]), Scalars(bytes[1..])) == EmitAll(u, d, Scalars(bytes))
  {
    StrayOrAscii(bytes);
    if bytes[0] < 0x7F {
      AsciiIsPlaced(u, d, bytes[0]);
      EmitOne(u, d, bytes[0], Scalars(bytes[1..]));
    } else {
      assert [] + Scalars(bytes[1..]) == Scalars(bytes[1..]);
    }
  }

  // ----------------------------------------------------------- Round trip

  lemma ScalarsOfOneMore(s: Scalar, rest: seq<byte>)
    requires Printable(s) && IsText(rest)
    ensures Scalars(Encode(s) + rest) == [s] + Scalars(rest) && IsText(Encode(s) + rest)
  {
    if s < 0x80 {
      assert ([s] + rest)[1..] == rest;
    } else {
      EncodingIsDecoded(s);
      WholeIsTaken(Encode(s), rest);
    }
  }

  lemma {:induction false} ScalarsOfEncoding(text: seq<Scalar>)
    requires forall i :: 0 <= i < |text| ==> Printable(text[i])
    ensures Scalars(EncodeAll(text)) == text
    ensures IsText(EncodeAll(text))
    decreases |text|
  {
    if text != [] {
      ScalarsOfEncoding(text[1..]);
      ScalarsOfOneMore(text[0], EncodeAll(text[1..]));
      assert [text[0]] + text[1..] == text;
    }
  }

  /** Text sent as UTF-8 is placed or attached scalar by scalar, in order. */
  lemma TextRoundTrip(u: Unicode, t: Term, text: seq<Scalar>)
    requires Ok(t) && AtRest(t) && AsciiIsPlain(u)
    requires forall i :: 0 <= i < |text| ==> Printable(text[i])
    ensures Feed(u, t, EncodeAll(text)).display == EmitAll(u, t.display, text)
  {
    ScalarsOfEncoding(text);
    DecoderIsReference(u, t, EncodeAll(text));
    assert [] + EncodeAll(text) == EncodeAll(text);
  }

  /** A whole sequence that encodes no scalar shows nothing. */
  lemma MalformedShowsNothing(u: Unicode, t: Term, bytes: seq<byte>)
    requires Ok(t) && AtRest(t) && AsciiIsPlain(u) && IsWholeSequence(bytes)
    requires forall s: Scalar :: bytes != Encode(s)
    ensures Feed(u, t, bytes).display == t.display
  {
    if Decode(bytes).Some? {
      DecodedIsEncoding(bytes, Decode(bytes).value);
    }
    WholeIsTaken(bytes, []);
    assert bytes + [] == bytes && [] + bytes == bytes;
    DecoderIsReference(u, t, bytes);
  }

  // -------------------------------------------------------- Resynchronising

  /** Nothing pending. */
  function Cleared(t: Term): Term
  {
    t.(parser := t.parser.(pending := [], pendingLength := 0))
  }

  /** What a byte other than a continuation does, be it a control, an escape
      or text, does not depend on what was pending. */
  lemma NoContinuationStartsAnew(u: Unicode, t: Term, b: byte)
    requires Ok(t) && t.parser.state.Ground? && !IsContinuation(b)
    ensures Consume(u, t, b) == Consume(u, Cleared(t), b)
  {
  }

  /** The bytes of a sequence not yet whole are only gathered. */
  lemma {:induction false} PrefixIsGathered(u: Unicode, t: Term, prefix: seq<byte>)
    requires Ok(t) && AtRest(t) && IsPrefixOfSequence(prefix)
    ensures Feed(u, t, prefix) == t.(parser := t.parser.(pending := prefix, pendingLength := LeadLength(prefix[0])))
    decreases |prefix|
  {
    var (front, last) := (prefix[..|prefix| - 1], prefix[|prefix| - 1]);
    assert prefix == front + [last];
    if front == [] {
      assert prefix == [last] && prefix[1..] == [];
      assert Feed(u, t, prefix) == Feed(u, Consume(u, t, last), []);
    } else {
      PrefixIsGathered(u, t, front);
      FeedInTwo(u, t, front, [last]);
      var gathered := Feed(u, t, front);
      assert [last][1..] == [];
      assert Feed(u, gathered, [last]) == Feed(u, Consume(u, gathered, last), []);
    }
  }

  /** A sequence broken off leaves the terminal that the bytes after it alone
      would have left, whatever they are. */
  lemma BrokenSequenceLeavesNoTrace(u: Unicode, t: Term, prefix: seq<byte>, rest: seq<byte>)
    requires Ok(t) && AtRest(t) && IsPrefixOfSequence(prefix) && rest != [] && !IsContinuation(rest[0])
    ensures Feed(u, t, prefix + rest) == Feed(u, t, rest)
  {
    FeedInTwo(u, t, prefix, rest);
    PrefixIsGathered(u, t, prefix);
    NoContinuationStartsAnew(u, Feed(u, t, prefix), rest[0]);
    assert Cleared(Feed(u, t, prefix)) == t;
  }
}
