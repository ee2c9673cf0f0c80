/**
 The deframer hands out the same frames however the stream was cut and
 paused, holds little, and hands out exactly what a sender sent.
 */
module FrameStreams {
  import opened Bytes
  import opened Wire
  import opened Wrappers
  import opened Codec
  import opened FrameConnection

  /** Parsing with no pauses: everything the buffer holds. */
  function ParseAll(z: Compressor, owner: Owner, i: Intake): (r: Intake)
    decreases |i.buffer|
  {
    if i.closed then i
    else
      match FrontOf(z, owner, owner.limit(i.handed), i.buffer)
      case Partial => i
      case Unreadable => i.(closed := true)
      case Whole(frame, size, plain) => ParseAll(z, owner, Hand(owner, i, frame, size, plain))
  }

  function With(i: Intake, more: seq<byte>): Intake
  {
    i.(buffer := i.buffer + more)
  }

  /** More bytes do not change a front that is there. */
  lemma FrontIsStable(z: Compressor, owner: Owner, limit: nat, bytes: seq<byte>, more: seq<byte>)
    requires !FrontOf(z, owner, limit, bytes).Partial?
    ensures FrontOf(z, owner, limit, bytes + more) == FrontOf(z, owner, limit, bytes)
  {
    assert (bytes + more)[..HEADER_BYTES] == bytes[..HEADER_BYTES];
    var header := DecodeHeader(bytes[..HEADER_BYTES]);
    if header.Some? {
      var end := HEADER_BYTES + header.value.payloadByteCount;
      if end <= |bytes| {
        assert (bytes + more)[HEADER_BYTES..end] == bytes[HEADER_BYTES..end];
      }
    }
  }

  lemma HandKeepsMore(owner: Owner, i: Intake, frame: Frame, size: nat, plain: nat, more: seq<byte>)
    requires size <= |i.buffer|
    ensures Hand(owner, With(i, more), frame, size, plain) == With(Hand(owner, i, frame, size, plain), more)
  {
    assert (i.buffer + more)[size..] == i.buffer[size..] + more;
  }

  /** The same outcome: once closed, the rest of the buffer is never looked at. */
  ghost predicate Agree(a: Intake, b: Intake)
  {
    && a.handed == b.handed && a.received == b.received && a.draining == b.draining && a.closed == b.closed
    && (!a.closed ==> a.buffer == b.buffer)
  }

  /** Parsing what came, then what came after it, is parsing it together. */
  lemma {:induction false} ParseInTwo(z: Compressor, owner: Owner, i: Intake, more: seq<byte>)
    ensures Agree(ParseAll(z, owner, With(i, more)), ParseAll(z, owner, With(ParseAll(z, owner, i), more)))
    decreases |i.buffer|
  {
    if !i.closed {
      var front := FrontOf(z, owner, owner.limit(i.handed), i.buffer);
      if !front.Partial? {
        FrontIsStable(z, owner, owner.limit(i.handed), i.buffer, more);
      }
      if front.Whole? {
        HandKeepsMore(owner, i, front.frame, front.size, front.plain, more);
        ParseInTwo(z, owner, Hand(owner, i, front.frame, front.size, front.plain), more);
      }
    }
  }

  /** Draining, however often it pauses, leaves the rest of the same parse. */
  lemma {:induction false} DrainKeepsParse(z: Compressor, owner: Owner, i: Intake, paused: bool)
    ensures var d := DrainFrames(z, owner, i, paused);
            && ParseAll(z, owner, d.intake) == ParseAll(z, owner, i)
            && (!d.paused && !d.intake.closed ==> Short(z, owner, d.intake))
    decreases |i.buffer|
  {
    if !paused && !i.closed {
      var front := FrontOf(z, owner, owner.limit(i.handed), i.buffer);
      if front.Whole? {
        DrainKeepsParse(z, owner, Hand(owner, i, front.frame, front.size, front.plain), Pauses(owner, i, front.frame));
      }
    }
  }

  lemma {:induction false} ParseOnlyAdds(z: Compressor, owner: Owner, i: Intake)
    ensures i.handed <= ParseAll(z, owner, i).handed
    decreases |i.buffer|
  {
    if !i.closed {
      var front := FrontOf(z, owner, owner.limit(i.handed), i.buffer);
      if front.Whole? {
        ParseOnlyAdds(z, owner, Hand(owner, i, front.frame, front.size, front.plain));
      }
    }
  }

  // ------------------------------------------------------------ Over runs

  function Run(z: Compressor, owner: Owner, l: Link, events: seq<Event>): (r: Link)
    decreases |events|
  {
    if events == [] then l else Run(z, owner, Step(z, owner, l, events[0]), events[1..])
  }

  /** The bytes an event takes off the network. */
  function Arrives(l: Link, e: Event): seq<byte>
  {
    if e.Incoming? && l.receiving && !l.intake.closed then e.bytes else []
  }

  /** The bytes a run took off the network. */
  function Taken(z: Compressor, owner: Owner, l: Link, events: seq<Event>): (bytes: seq<byte>)
    decreases |events|
  {
    if events == [] then [] else Arrives(l, events[0]) + Taken(z, owner, Step(z, owner, l, events[0]), events[1..])
  }

  /** A read brings at most what it asked for, and the stream does not end. */
  ghost predicate Network(events: seq<Event>)
  {
    forall i :: 0 <= i < |events| ==> OfNetwork(events[i])
  }

  ghost predicate OfNetwork(e: Event)
  {
    e.Incoming? ==> |e.bytes| <= RECEIVE_BYTES && !e.isLast
  }

  /** Less than one whole frame is buffered. */
  ghost predicate Short(z: Compressor, owner: Owner, i: Intake)
    ensures Short(z, owner, i) ==> |i.buffer| < HEADER_BYTES + MAXIMUM_PAYLOAD
  {
    FrontOf(z, owner, owner.limit(i.handed), i.buffer).Partial?
  }

  /** Between events: an unpaused link holds less than one frame, and so does
      one paused while a read is out; any other, that and one read. */
  ghost predicate HoldsLittle(z: Compressor, owner: Owner, l: Link)
  {
    !l.intake.closed ==>
      && (!l.ready ==> l.intake.buffer == [] && !l.receiving)
      && |l.intake.buffer| < HEADER_BYTES + MAXIMUM_PAYLOAD + RECEIVE_BYTES
      && (l.receiving || !l.paused ==> Short(z, owner, l.intake))
  }

  /** What was handed out and then the parse of what is buffered: that of
      every byte taken. */
  ghost predicate ParsesAs(z: Compressor, owner: Owner, l: Link, all: seq<byte>)
  {
    Agree(ParseAll(z, owner, l.intake), ParseAll(z, owner, With(EMPTY, all)))
  }

  lemma IncomingKeepsParse(z: Compressor, owner: Owner, l: Link, bytes: seq<byte>, all: seq<byte>)
    requires |bytes| <= RECEIVE_BYTES && l.receiving && !l.intake.closed
    requires HoldsLittle(z, owner, l) && ParsesAs(z, owner, l, all)
    ensures var r := Step(z, owner, l, Incoming(bytes, false));
            HoldsLittle(z, owner, r) && ParsesAs(z, owner, r, all + bytes)
  {
    if bytes == [] {
      assert all + bytes == all;
      return;
    }
    DrainKeepsParse(z, owner, With(l.intake, bytes), l.paused);
    ParseInTwo(z, owner, l.intake, bytes);
    ParseInTwo(z, owner, With(EMPTY, all), bytes);
    AppendAssociates([], all, bytes);
    AgreeWith(z, owner, ParseAll(z, owner, l.intake), ParseAll(z, owner, With(EMPTY, all)), bytes);
  }

  lemma AgreeWith(z: Compressor, owner: Owner, a: Intake, b: Intake, more: seq<byte>)
    requires Agree(a, b)
    ensures Agree(ParseAll(z, owner, With(a, more)), ParseAll(z, owner, With(b, more)))
  {
    if !a.closed {
      assert a == b;
    }
  }

  /** One event keeps `all`, everything taken so far, parsed as far as it
      was, and the buffer small. */
  lemma StepKeepsParse(z: Compressor, owner: Owner, l: Link, e: Event, all: seq<byte>)
    requires OfNetwork(e) && HoldsLittle(z, owner, l) && ParsesAs(z, owner, l, all)
    ensures var r := Step(z, owner, l, e);
            HoldsLittle(z, owner, r) && ParsesAs(z, owner, r, all + Arrives(l, e))
  {
    assert all + [] == all;
    if e.Incoming? && l.receiving && !l.intake.closed {
      IncomingKeepsParse(z, owner, l, e.bytes, all);
    } else if e.SetPaused? && e.paused != l.paused && !e.paused && l.ready && !l.intake.closed {
      DrainKeepsParse(z, owner, l.intake, false);
    }
  }

  /** However the stream was cut into reads, and paused and resumed between
      or from within them. */
  lemma {:induction false} RunKeepsParse(z: Compressor, owner: Owner, l: Link, events: seq<Event>, all: seq<byte>)
    requires Network(events) && HoldsLittle(z, owner, l) && ParsesAs(z, owner, l, all)
    ensures var r := Run(z, owner, l, events);
            HoldsLittle(z, owner, r) && ParsesAs(z, owner, r, all + Taken(z, owner, l, events))
    decreases |events|
  {
    if events == [] {
      assert all + [] == all;
    } else {
      var next := Step(z, owner, l, events[0]);
      StepKeepsParse(z, owner, l, events[0], all);
      RunKeepsParse(z, owner, next, events[1..], all + Arrives(l, events[0]));
      AppendAssociates(all, Arrives(l, events[0]), Taken(z, owner, next, events[1..]));
    }
  }

  /** From a fresh connection: the deframer's outcome is a function of the
      bytes alone. A link that ends unpaused has handed out every frame. */
  lemma CuttingDoesNotMatter(z: Compressor, owner: Owner, events: seq<Event>)
    requires Network(events)
    ensures var r := Run(z, owner, FRESH, events);
            var whole := ParseAll(z, owner, With(EMPTY, Taken(z, owner, FRESH, events)));
            && Agree(ParseAll(z, owner, r.intake), whole)
            && r.intake.handed <= whole.handed
            && (!r.paused || r.intake.closed ==> r.intake.handed == whole.handed)
            && (!r.paused && !r.intake.closed ==> |r.intake.buffer| < HEADER_BYTES + MAXIMUM_PAYLOAD)
            && (!r.intake.closed ==> |r.intake.buffer| < HEADER_BYTES + MAXIMUM_PAYLOAD + RECEIVE_BYTES)
  {
    RunKeepsParse(z, owner, FRESH, events, []);
    assert [] + Taken(z, owner, FRESH, events) == Taken(z, owner, FRESH, events);
    ParseOnlyAdds(z, owner, Run(z, owner, FRESH, events).intake);
  }

  // ------------------------------------------------------------ The last read

  /** Whole frames still buffered, which the owner would be handed next. */
  ghost predicate LeavesAFrame(z: Compressor, owner: Owner, i: Intake)
  {
    !i.closed && !i.draining && FrontOf(z, owner, owner.limit(i.handed), i.buffer).Whole?
  }

  lemma {:induction false} DrainingHandsNothing(z: Compressor, owner: Owner, i: Intake)
    requires i.draining
    ensures ParseAll(z, owner, i).handed == i.handed
    decreases |i.buffer|
  {
    if !i.closed {
      var front := FrontOf(z, owner, owner.limit(i.handed), i.buffer);
      if front.Whole? {
        DrainingHandsNothing(z, owner, Hand(owner, i, front.frame, front.size, front.plain));
      }
    }
  }

  lemma MoreIsHanded(z: Compressor, owner: Owner, i: Intake)
    ensures ParseAll(z, owner, i).handed == i.handed <==> !LeavesAFrame(z, owner, i)
  {
    if i.draining {
      DrainingHandsNothing(z, owner, i);
    } else if LeavesAFrame(z, owner, i) {
      var front := FrontOf(z, owner, owner.limit(i.handed), i.buffer);
      ParseOnlyAdds(z, owner, Hand(owner, i, front.frame, front.size, front.plain));
    }
  }

  /** What the last read leaves, before the link closes on it. */
  ghost function AtTheEnd(z: Compressor, owner: Owner, l: Link, bytes: seq<byte>): Drained
  {
    if bytes == [] then Drained(l.intake, l.paused) else DrainFrames(z, owner, With(l.intake, bytes), l.paused)
  }

  /** The last read hands out all there is but what a pause held back. */
  lemma LastRead(z: Compressor, owner: Owner, l: Link, bytes: seq<byte>, all: seq<byte>)
    requires |bytes| <= RECEIVE_BYTES && l.receiving && !l.intake.closed
    requires HoldsLittle(z, owner, l) && ParsesAs(z, owner, l, all)
    ensures var (r, d) := (Step(z, owner, l, Incoming(bytes, true)), AtTheEnd(z, owner, l, bytes));
            var whole := ParseAll(z, owner, With(EMPTY, all + bytes));
            && r.intake.closed && r.intake.handed == d.intake.handed && r.intake.handed <= whole.handed
            && (r.intake.handed == whole.handed <==> !d.paused || !LeavesAFrame(z, owner, d.intake))
  {
    var d := AtTheEnd(z, owner, l, bytes);
    IncomingKeepsParse(z, owner, l, bytes, all);
    assert Step(z, owner, l, Incoming(bytes, false)).intake == d.intake;
    ParseOnlyAdds(z, owner, d.intake);
    MoreIsHanded(z, owner, d.intake);
  }

  /** A closed link hands out and takes in nothing more. */
  lemma {:induction false} ClosedForGood(z: Compressor, owner: Owner, l: Link, events: seq<Event>)
    requires l.intake.closed
    ensures Run(z, owner, l, events).intake == l.intake && Taken(z, owner, l, events) == []
    decreases |events|
  {
    if events != [] {
      ClosedForGood(z, owner, Step(z, owner, l, events[0]), events[1..]);
    }
  }

  lemma {:induction false} RunInTwo(z: Compressor, owner: Owner, l: Link, first: seq<Event>, second: seq<Event>)
    ensures Run(z, owner, l, first + second) == Run(z, owner, Run(z, owner, l, first), second)
    ensures Taken(z, owner, l, first + second)
         == Taken(z, owner, l, first) + Taken(z, owner, Run(z, owner, l, first), second)
    decreases |first|
  {
    if first == [] {
      assert first + second == second;
    } else {
      var next := Step(z, owner, l, first[0]);
      assert (first + second)[1..] == first[1..] + second;
      RunInTwo(z, owner, next, first[1..], second);
      var (middle, end) := (Taken(z, owner, next, first[1..]), Run(z, owner, next, first[1..]));
      AppendAssociates(Arrives(l, first[0]), middle, Taken(z, owner, end, second));
    }
  }

  /** The same to the end of the stream, with anything after it: what was
      handed out is always a front part of what the bytes hold, and all of it
      if and only if the link was not paused there, or a pause held back no
      frame the owner would have been handed. */
  lemma CuttingToTheEnd(z: Compressor, owner: Owner, before: seq<Event>, bytes: seq<byte>, after: seq<Event>)
    requires Network(before) && |bytes| <= RECEIVE_BYTES
    requires Run(z, owner, FRESH, before).receiving && !Run(z, owner, FRESH, before).intake.closed
    ensures var l := Run(z, owner, FRESH, before);
            var r := Run(z, owner, FRESH, before + ([Incoming(bytes, true)] + after));
            var d := AtTheEnd(z, owner, l, bytes);
            var taken := Taken(z, owner, FRESH, before + ([Incoming(bytes, true)] + after));
            var whole := ParseAll(z, owner, With(EMPTY, taken));
            && taken == Taken(z, owner, FRESH, before) + bytes
            && r.intake.closed && r.intake.handed <= whole.handed
            && (r.intake.handed == whole.handed <==> !d.paused || !LeavesAFrame(z, owner, d.intake))
  {
    var (l, last) := (Run(z, owner, FRESH, before), Incoming(bytes, true));
    var taken := Taken(z, owner, FRESH, before);
    RunKeepsParse(z, owner, FRESH, before, []);
    assert [] + taken == taken;
    LastRead(z, owner, l, bytes, taken);
    RunInTwo(z, owner, FRESH, before, [last] + after);
    assert ([last] + after)[1..] == after;
    ClosedForGood(z, owner, Step(z, owner, l, last), after);
    assert bytes + [] == bytes;
  }

  // -------------------------------------------------------- Sent, received

  datatype Message = Message(kind: Kind, tag: nat, source: Source)

  ghost predicate Sendable(m: Message)
  {
    m.tag < TWO64 && Typed(m.source) && Encode(m.source, 0).Some? && |Encode(m.source, 0).value| <= MAXIMUM_PAYLOAD
  }

  /** The frame of a message, as received: its kind, its tag, its object. */
  ghost predicate Carries(f: Frame, m: Message)
  {
    f.header.kind == m.kind && f.header.tag == m.tag && f.value == Meaning(m.source)
  }

  /** A header, then as much as it announces: the front is that frame. */
  lemma FrontIsFrame(z: Compressor, owner: Owner, limit: nat, h: Header, flags: byte, body: seq<byte>, rest: seq<byte>)
    requires Fits(h) && h.payloadByteCount == |body| <= MAXIMUM_PAYLOAD <= limit
    requires flags == 0 || (flags == COMPRESSED_FLAG && owner.acceptsCompressed)
    ensures FrontOf(z, owner, limit, HeaderBytes(h)[FLAGS_OFFSET := flags] + body + rest)
         == FrameOf(z, limit, flags == COMPRESSED_FLAG, h, body)
  {
    var header := HeaderBytes(h)[FLAGS_OFFSET := flags];
    var bytes := header + body + rest;
    HeaderRoundTrip(h, [flags, 0, 0], []);
    assert header == HeaderBytes(h)[..5] + [flags, 0, 0] + HeaderBytes(h)[8..] + [];
    assert bytes[..HEADER_BYTES] == header;
    assert bytes[HEADER_BYTES..HEADER_BYTES + |body|] == body;
  }

  lemma PayloadDecodes(m: Message)
    requires Sendable(m)
    ensures Decode(Encode(m.source, 0).value) == Some(Meaning(m.source))
  {
    EncodesWhatIsCarried(m.source, 0);
    MessageRoundTrip(m.source, []);
    assert Encode(m.source, 0).value + [] == Encode(m.source, 0).value;
  }

  /** What `f` must be for a frame that stands for this message. */
  ghost predicate Stands(f: Front, m: Message, size: nat)
    requires Encode(m.source, 0).Some?
  {
    f.Whole? && Carries(f.frame, m) && f.size == size && f.plain == HEADER_BYTES + |Encode(m.source, 0).value|
  }

  lemma PlainIsReceived(z: Compressor, owner: Owner, m: Message, limit: nat, rest: seq<byte>)
    requires Sendable(m) && limit >= MAXIMUM_PAYLOAD
    ensures var frame := PlainFrame(m.kind, m.tag, Encode(m.source, 0).value);
            Stands(FrontOf(z, owner, limit, frame + rest), m, |frame|)
  {
    var payload := Encode(m.source, 0).value;
    var header := Header(m.kind, 0, m.tag, |payload|);
    PayloadDecodes(m);
    FrontIsFrame(z, owner, limit, header, 0, payload, rest);
    assert HeaderBytes(header)[FLAGS_OFFSET := 0] == HeaderBytes(header);
  }

  lemma PackedUnpacks(z: Compressor, payload: seq<byte>, limit: nat)
    requires Sound(z) && 0 < |payload| <= limit && |payload| < TWO32
    requires z.pack(payload, |payload| - |payload| / 8) != []
    ensures var packed := z.pack(payload, |payload| - |payload| / 8);
            Decompress(z, LittleEndian(|payload|, LENGTH_BYTES) + packed, limit) == Some(payload)
  {
    var packed := z.pack(payload, |payload| - |payload| / 8);
    var body := LittleEndian(|payload|, LENGTH_BYTES) + packed;
    Power256Values();
    LoadOfLittleEndian(body, 0, |payload|, LENGTH_BYTES);
    assert body[LENGTH_BYTES..] == packed;
  }

  lemma CompressedIsReceived(z: Compressor, owner: Owner, m: Message, limit: nat, rest: seq<byte>)
    requires Sound(z) && Sendable(m) && limit >= MAXIMUM_PAYLOAD && owner.acceptsCompressed
    requires |Encode(m.source, 0).value| >= MINIMUM_COMPRESSED
    requires CompressedFrame(z, m.kind, m.tag, Encode(m.source, 0).value).Some?
    ensures var frame := CompressedFrame(z, m.kind, m.tag, Encode(m.source, 0).value).value;
            Stands(FrontOf(z, owner, limit, frame + rest), m, |frame|)
  {
    var payload := Encode(m.source, 0).value;
    var packed := z.pack(payload, |payload| - |payload| / 8);
    var body := LittleEndian(|payload|, LENGTH_BYTES) + packed;
    var header := Header(m.kind, 0, m.tag, |body|);
    PayloadDecodes(m);
    PackedUnpacks(z, payload, limit);
    FrontIsFrame(z, owner, limit, header, COMPRESSED_FLAG, body, rest);
    var flagged := HeaderBytes(header)[FLAGS_OFFSET := COMPRESSED_FLAG];
    AppendAssociates(flagged, LittleEndian(|payload|, LENGTH_BYTES), packed);
  }

  /** Everything a sender puts on the wire for some messages. */
  function Stream(z: Compressor, s: Sender, messages: seq<Message>): (bytes: seq<byte>)
    decreases |messages|
  {
    if messages == [] then []
    else
      var (next, frame) := Send(z, s, messages[0].kind, messages[0].tag, messages[0].source);
      (if frame.None? then [] else frame.value) + Stream(z, next, messages[1..])
  }

  /** What it counted for them. */
  function SentAfter(z: Compressor, s: Sender, messages: seq<Message>): nat
    decreases |messages|
  {
    if messages == [] then s.sent
    else SentAfter(z, Send(z, s, messages[0].kind, messages[0].tag, messages[0].source).0, messages[1..])
  }

  lemma SentIsReceived(z: Compressor, owner: Owner, s: Sender, m: Message, limit: nat, rest: seq<byte>)
    requires Sound(z) && Sendable(m) && limit >= MAXIMUM_PAYLOAD && (s.compresses ==> owner.acceptsCompressed)
    ensures var (next, frame) := Send(z, s, m.kind, m.tag, m.source);
            && frame.Some? && next.compresses == s.compresses
            && Stands(FrontOf(z, owner, limit, frame.value + rest), m, |frame.value|)
            && next.sent == s.sent + HEADER_BYTES + |Encode(m.source, 0).value|
  {
    PlainIsReceived(z, owner, m, limit, rest);
    var payload := Encode(m.source, 0).value;
    if s.compresses && |payload| >= MINIMUM_COMPRESSED && CompressedFrame(z, m.kind, m.tag, payload).Some? {
      CompressedIsReceived(z, owner, m, limit, rest);
    }
  }

  /** Takes what a sender may send, and never closes or lets go. */
  ghost predicate Listens(owner: Owner)
  {
    && (forall handed :: owner.limit(handed) >= MAXIMUM_PAYLOAD)
    && (forall handed :: owner.reaction(handed).Continue? || owner.reaction(handed).Pause?)
  }

  /** A receiver that takes what the sender may send and keeps listening is
      handed exactly the messages sent, in order, whichever of them were
      compressed, and both ends have counted the same bytes. */
  lemma {:induction false} ReceiverSeesWhatWasSent(z: Compressor, owner: Owner, s: Sender,
                                                   messages: seq<Message>, i: Intake)
    requires Sound(z) && (s.compresses ==> owner.acceptsCompressed)
    requires forall i :: 0 <= i < |messages| ==> Sendable(messages[i])
    requires Listens(owner)
    requires i.buffer == Stream(z, s, messages) && !i.closed && !i.draining
    ensures var r := ParseAll(z, owner, i);
            && !r.closed && r.buffer == [] && HandedFrom(i, r, messages)
            && r.received - i.received == SentAfter(z, s, messages) - s.sent
    decreases |messages|
  {
    if messages != [] {
      var m := messages[0];
      var (next, frame) := Send(z, s, m.kind, m.tag, m.source);
      var rest := Stream(z, next, messages[1..]);
      SentIsReceived(z, owner, s, m, owner.limit(i.handed), rest);
      var f := FrontOf(z, owner, owner.limit(i.handed), i.buffer);
      var after := Hand(owner, i, f.frame, f.size, f.plain);
      assert after.buffer == rest;
      ReceiverSeesWhatWasSent(z, owner, next, messages[1..], after);
      OneMoreHanded(i, after, ParseAll(z, owner, i), f.frame, messages);
    }
  }

  /** From `i` on, `r` was handed the frames of exactly these messages. */
  ghost predicate HandedFrom(i: Intake, r: Intake, messages: seq<Message>)
  {
    && |r.handed| == |i.handed| + |messages| && i.handed <= r.handed
    && forall k :: 0 <= k < |messages| ==> Carries(r.handed[|i.handed| + k], messages[k])
  }

  lemma OneMoreHanded(i: Intake, after: Intake, r: Intake, frame: Frame, messages: seq<Message>)
    requires messages != [] && Carries(frame, messages[0]) && after.handed == i.handed + [frame]
    requires HandedFrom(after, r, messages[1..])
    ensures HandedFrom(i, r, messages)
  {
    assert r.handed[|i.handed|] == after.handed[|i.handed|] == frame;
    forall k | 1 <= k < |messages|
      ensures Carries(r.handed[|i.handed| + k], messages[k])
    {
      assert messages[k] == messages[1..][k - 1];
      assert Carries(r.handed[|after.handed| + (k - 1)], messages[1..][k - 1]);
    }
  }

  /** The frames of the first of these messages. */
  ghost predicate AreFirst(handed: seq<Frame>, messages: seq<Message>)
  {
    |handed| <= |messages| && forall k :: 0 <= k < |handed| ==> Carries(handed[k], messages[k])
  }

  /** Any front part of a stream parses to the first of its messages. */
  lemma FirstMessages(z: Compressor, owner: Owner, s: Sender, messages: seq<Message>, taken: seq<byte>)
    requires Sound(z) && Listens(owner) && (s.compresses ==> owner.acceptsCompressed)
    requires forall i :: 0 <= i < |messages| ==> Sendable(messages[i])
    requires taken <= Stream(z, s, messages)
    ensures var r := ParseAll(z, owner, With(EMPTY, taken));
            && !r.closed && AreFirst(r.handed, messages)
            && (taken == Stream(z, s, messages) ==>
                  |r.handed| == |messages| && s.sent + r.received == SentAfter(z, s, messages))
  {
    var sent := Stream(z, s, messages);
    assert [] + sent == sent;
    ReceiverSeesWhatWasSent(z, owner, s, messages, With(EMPTY, sent));
    PrefixParsesToPrefix(z, owner, taken, sent);
    FrontsAreFirst(ParseAll(z, owner, With(EMPTY, taken)), ParseAll(z, owner, With(EMPTY, sent)), messages);
  }

  lemma FrontsAreFirst(first: Intake, whole: Intake, messages: seq<Message>)
    requires first.handed <= whole.handed && HandedFrom(EMPTY, whole, messages)
    ensures AreFirst(first.handed, messages) && AreFirst(whole.handed, messages)
  {
    forall k | 0 <= k < |whole.handed|
      ensures Carries(whole.handed[k], messages[k])
    {
      assert Carries(whole.handed[|EMPTY.handed| + k], messages[k]);
    }
  }

  /** What a link has handed out, against a parse that stays open. */
  ghost predicate Follows(l: Link, whole: Intake)
  {
    && l.intake.handed <= whole.handed
    && (!whole.closed ==> !l.intake.closed)
    && (!whole.closed && !l.paused ==> l.intake.handed == whole.handed && l.intake.received == whole.received)
  }

  lemma RunFollowsParse(z: Compressor, owner: Owner, events: seq<Event>)
    requires Network(events)
    ensures Follows(Run(z, owner, FRESH, events), ParseAll(z, owner, With(EMPTY, Taken(z, owner, FRESH, events))))
  {
    assert [] + Taken(z, owner, FRESH, events) == Taken(z, owner, FRESH, events);
    RunKeepsParse(z, owner, FRESH, events, []);
    ParseOnlyAdds(z, owner, Run(z, owner, FRESH, events).intake);
  }

  lemma FrontOfFirst(first: seq<Frame>, whole: seq<Frame>, messages: seq<Message>)
    requires first <= whole && AreFirst(whole, messages)
    ensures AreFirst(first, messages)
  {
    assert forall k :: 0 <= k < |first| ==> first[k] == whole[k];
  }

  /** End to end: while any front part of what was sent has come in, cut
      anyhow and paused at will, the link is open and the owner was handed the
      first messages sent, in order. Once all of it has come in and the link
      is not paused, it was handed every one, and received what was sent. */
  lemma LinkDelivers(z: Compressor, owner: Owner, s: Sender, messages: seq<Message>, events: seq<Event>)
    requires Sound(z) && Listens(owner) && Network(events) && (s.compresses ==> owner.acceptsCompressed)
    requires forall i :: 0 <= i < |messages| ==> Sendable(messages[i])
    requires Taken(z, owner, FRESH, events) <= Stream(z, s, messages)
    ensures var r := Run(z, owner, FRESH, events);
            && !r.intake.closed && AreFirst(r.intake.handed, messages)
            && (!r.paused && Taken(z, owner, FRESH, events) == Stream(z, s, messages) ==>
                  |r.intake.handed| == |messages| && s.sent + r.intake.received == SentAfter(z, s, messages))
  {
    var taken := Taken(z, owner, FRESH, events);
    var (r, whole) := (Run(z, owner, FRESH, events), ParseAll(z, owner, With(EMPTY, taken)));
    RunFollowsParse(z, owner, events);
    FirstMessages(z, owner, s, messages, taken);
    FrontOfFirst(r.intake.handed, whole.handed, messages);
  }

  /** End to end, and to the end: the messages handed out are the first ones
      sent, and when everything sent has come in, every one if and only if no
      pause held a frame back at the last read. */
  lemma LinkDeliversToTheEnd(z: Compressor, owner: Owner, s: Sender, messages: seq<Message>,
                             before: seq<Event>, bytes: seq<byte>, after: seq<Event>)
    requires Sound(z) && Listens(owner) && (s.compresses ==> owner.acceptsCompressed)
    requires Network(before) && |bytes| <= RECEIVE_BYTES
    requires Run(z, owner, FRESH, before).receiving && !Run(z, owner, FRESH, before).intake.closed
    requires forall i :: 0 <= i < |messages| ==> Sendable(messages[i])
    requires Taken(z, owner, FRESH, before) + bytes <= Stream(z, s, messages)
    ensures var r := Run(z, owner, FRESH, before + ([Incoming(bytes, true)] + after)).intake;
            var d := AtTheEnd(z, owner, Run(z, owner, FRESH, before), bytes);
            && AreFirst(r.handed, messages)
            && (Taken(z, owner, FRESH, before) + bytes == Stream(z, s, messages) ==>
                  (|r.handed| == |messages| <==> !d.paused || !LeavesAFrame(z, owner, d.intake)))
  {
    CuttingToTheEnd(z, owner, before, bytes, after);
    FirstMessages(z, owner, s, messages, Taken(z, owner, FRESH, before) + bytes);
  }

  lemma PrefixParsesToPrefix(z: Compressor, owner: Owner, taken: seq<byte>, sent: seq<byte>)
    requires taken <= sent
    ensures var first, whole := ParseAll(z, owner, With(EMPTY, taken)), ParseAll(z, owner, With(EMPTY, sent));
            first.handed <= whole.handed && (first.closed ==> whole.closed)
  {
    var more := sent[|taken|..];
    assert [] + taken + more == [] + sent;
    ParseInTwo(z, owner, With(EMPTY, taken), more);
    ParseOnlyAdds(z, owner, With(ParseAll(z, owner, With(EMPTY, taken)), more));
  }

  // --------------------------------------------------- A frame held back

  const YES := Message(Event, 0, Boolean(true))

  lemma YesIsReceived(z: Compressor, owner: Owner)
    requires owner.limit([]) >= MAXIMUM_PAYLOAD
    ensures Encode(YES.source, 0) == Some([3, 1])
    ensures var frame := PlainFrame(Event, 0, [3, 1]);
            Stands(FrontOf(z, owner, owner.limit([]), frame), YES, |frame|)
  {
    assert Encode(YES.source, 0) == Some([3, 1]);
    var frame := PlainFrame(Event, 0, [3, 1]);
    PlainIsReceived(z, owner, YES, owner.limit([]), []);
    assert frame + [] == frame;
  }

  /** A run that loses one: the link is paused before anything came, and then
      the whole stream comes, one frame, with its end. It is whole in the
      buffer, the owner is never handed it, and the link is closed. */
  lemma PausedLinkDropsAFrame(z: Compressor, owner: Owner)
    requires owner.limit([]) >= MAXIMUM_PAYLOAD
    ensures var frame := PlainFrame(Event, 0, [3, 1]);
            var r := Run(z, owner, FRESH, [Ready, SetPaused(true)] + ([Incoming(frame, true)] + []));
            && Encode(YES.source, 0) == Some([3, 1])
            && Stands(FrontOf(z, owner, owner.limit([]), frame), YES, |frame|)
            && r.intake.buffer == frame && r.intake.handed == [] && r.intake.closed
            && |ParseAll(z, owner, With(EMPTY, frame)).handed| > 0
  {
    var frame := PlainFrame(Event, 0, [3, 1]);
    var before := [Ready, SetPaused(true)];
    var held := With(EMPTY, frame);
    YesIsReceived(z, owner);
    ReadyAndPaused(z, owner);
    RunInTwo(z, owner, FRESH, before, [Incoming(frame, true)] + []);
    assert ([Incoming(frame, true)] + [])[1..] == [];
    assert [] + frame == frame;
    assert LeavesAFrame(z, owner, held);
    MoreIsHanded(z, owner, held);
    ParseOnlyAdds(z, owner, held);
  }

  lemma ReadyAndPaused(z: Compressor, owner: Owner)
    ensures Run(z, owner, FRESH, [Ready, SetPaused(true)]) == Link(EMPTY, true, true, true)
  {
    var ready := Link(EMPTY, false, true, true);
    assert Step(z, owner, FRESH, Ready) == ready;
    assert [Ready, SetPaused(true)][1..] == [SetPaused(true)];
    assert Run(z, owner, ready, [SetPaused(true)]) == Link(EMPTY, true, true, true);
  }
}
