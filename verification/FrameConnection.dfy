/**
 A connection that carries frames. Inward, what arrives is a stream in pieces
 of any length, and frames are taken off its front as they complete; outward,
 messages become frames, compressed where that is agreed and saves bytes.
 The owner's `onFrame` is a function of the frames it was handed:
 it may pause, close, or begin to drain, and it sets the payload limit.
 */
module FrameConnection {
  import opened Bytes
  import opened Wire
  import opened Wrappers
  import opened Codec
  import LinkWindow

  const LENGTH_BYTES := 4
  const FLAGS_OFFSET := 5
  const COMPRESSED_FLAG: byte := 1
  const MINIMUM_COMPRESSED := 1024
  const PLAIN_AFTER_MISS := 32
  const MISS_BYTES := 8 * 1024
  const RECEIVE_BYTES := 256 * 1024

  /** The compressor: `pack` into at most so many bytes, empty when that is
      not enough; `unpack` as far as so many bytes reach. */
  datatype Compressor = Compressor(pack: (seq<byte>, nat) -> seq<byte>, unpack: (seq<byte>, nat) -> seq<byte>)

  /** What fits unpacks, given a byte to spare, to what was packed. */
  ghost predicate Sound(z: Compressor)
  {
    && (forall p, capacity :: |z.pack(p, capacity)| <= capacity)
    && (forall p, capacity, room ::
          z.pack(p, capacity) != [] && room > |p| ==> z.unpack(z.pack(p, capacity), room) == p)
  }

  datatype Frame = Frame(header: Header, value: Object)

  datatype Reaction = Continue | Pause | Close | Drain

  /** What the owner does on being handed the last of these frames, and the
      largest payload it takes next. */
  datatype Owner = Owner(reaction: seq<Frame> -> Reaction, limit: seq<Frame> -> nat, acceptsCompressed: bool)

  // ------------------------------------------------------------ Receiving

  /** What the buffer starts with: too little to tell, something that is no
      frame, or a frame: `size` bytes long here, `plain` bytes uncompressed. */
  datatype Front = Partial | Unreadable | Whole(frame: Frame, size: nat, plain: nat)

  function Decompress(z: Compressor, body: seq<byte>, limit: nat): (plain: Option<seq<byte>>)
    ensures plain.Some? ==> |body| > LENGTH_BYTES && |plain.value| == Load(body, 0, LENGTH_BYTES)
    ensures plain.Some? ==> 0 < |plain.value| <= limit
  {
    if |body| <= LENGTH_BYTES then None
    else
      var length := Load(body, 0, LENGTH_BYTES);
      if length == 0 || length > limit then None
      else
        var plain := z.unpack(body[LENGTH_BYTES..], length + 1);
        if |plain| == length then Some(plain) else None
  }

  function FrontOf(z: Compressor, owner: Owner, limit: nat, bytes: seq<byte>): (f: Front)
    ensures f.Whole? ==> HEADER_BYTES <= f.size <= |bytes|
    ensures f.Partial? ==> |bytes| < HEADER_BYTES + MAXIMUM_PAYLOAD
  {
    if |bytes| < HEADER_BYTES then Partial
    else
      var flags := bytes[FLAGS_OFFSET];
      var header := DecodeHeader(bytes[..HEADER_BYTES]);
      if flags != 0 && !(flags == COMPRESSED_FLAG && owner.acceptsCompressed) then Unreadable
      else if header.None? || header.value.payloadByteCount > limit then Unreadable
      else if |bytes| < HEADER_BYTES + header.value.payloadByteCount then Partial
      else
        var payload := bytes[HEADER_BYTES..HEADER_BYTES + header.value.payloadByteCount];
        FrameOf(z, limit, flags == COMPRESSED_FLAG, header.value, payload)
  }

  function FrameOf(z: Compressor, limit: nat, isCompressed: bool, header: Header, payload: seq<byte>): (f: Front)
    ensures f.Whole? ==> f.size == HEADER_BYTES + |payload| && f.frame.header == header
    ensures !f.Partial?
  {
    var plain := if isCompressed then Decompress(z, payload, limit) else Some(payload);
    if plain.None? then Unreadable
    else
      var value := Decode(plain.value);
      if value.None? then Unreadable
      else Whole(Frame(header, value.value), HEADER_BYTES + |payload|, HEADER_BYTES + |plain.value|)
  }

  /** What came in and was not handed out, what was, and how it stands. */
  datatype Intake = Intake(buffer: seq<byte>, handed: seq<Frame>, received: nat, draining: bool, closed: bool)

  /** The receiving half of a connection. */
  datatype Link = Link(intake: Intake, paused: bool, ready: bool, receiving: bool)

  const EMPTY := Intake([], [], 0, false, false)
  const FRESH := Link(EMPTY, false, false, false)

  /** A frame handed out, and what the owner did about it. */
  function Hand(owner: Owner, i: Intake, frame: Frame, size: nat, plain: nat): (r: Intake)
    requires size <= |i.buffer|
    ensures r.buffer == i.buffer[size..] && r.received == i.received + plain
  {
    var taken := i.(buffer := i.buffer[size..], received := i.received + plain);
    if i.draining then taken
    else
      var reaction := owner.reaction(i.handed + [frame]);
      taken.(handed := i.handed + [frame], closed := i.closed || reaction.Close?, draining := reaction.Drain?)
  }

  predicate Pauses(owner: Owner, i: Intake, frame: Frame)
  {
    !i.draining && owner.reaction(i.handed + [frame]).Pause?
  }

  datatype Drained = Drained(intake: Intake, paused: bool)

  /** Frame after frame off the front, for as long as there is one and the
      owner takes it. */
  function DrainFrames(z: Compressor, owner: Owner, i: Intake, paused: bool): (r: Drained)
    ensures |r.intake.buffer| <= |i.buffer|
    decreases |i.buffer|
  {
    if paused || i.closed then Drained(i, paused)
    else
      match FrontOf(z, owner, owner.limit(i.handed), i.buffer)
      case Partial => Drained(i, false)
      case Unreadable => Drained(i.(closed := true), false)
      case Whole(frame, size, plain) =>
        DrainFrames(z, owner, Hand(owner, i, frame, size, plain), Pauses(owner, i, frame))
  }

  /** One turn of draining. */
  lemma DrainUnfolds(z: Compressor, owner: Owner, i: Intake)
    requires !i.closed
    ensures DrainFrames(z, owner, i, false)
         == match FrontOf(z, owner, owner.limit(i.handed), i.buffer)
            case Partial => Drained(i, false)
            case Unreadable => Drained(i.(closed := true), false)
            case Whole(frame, size, plain) =>
              DrainFrames(z, owner, Hand(owner, i, frame, size, plain), Pauses(owner, i, frame))
  {
  }

  /** Asks the network for more, once. */
  predicate Asks(receiving: bool, d: Drained)
  {
    receiving || (!d.paused && !d.intake.closed)
  }

  datatype Event = Ready | Incoming(bytes: seq<byte>, isLast: bool) | SetPaused(paused: bool)

  /** What a connection answers to: it is ready; a read that was asked for
      brought bytes or none, and perhaps the end of them, which closes the
      link even when it is paused; the owner pauses or resumes. */
  function Step(z: Compressor, owner: Owner, l: Link, e: Event): Link
  {
    match e
    case Ready =>
      if l.ready || l.intake.closed then l
      else l.(ready := true, receiving := Asks(l.receiving, Drained(l.intake, l.paused)))
    case Incoming(bytes, isLast) =>
      if l.intake.closed || !l.receiving then l
      else
        var d := if bytes == [] then Drained(l.intake, l.paused)
                 else DrainFrames(z, owner, l.intake.(buffer := l.intake.buffer + bytes), l.paused);
        if isLast then Link(d.intake.(closed := true), d.paused, l.ready, false)
        else Link(d.intake, d.paused, l.ready, Asks(false, d))
    case SetPaused(paused) =>
      if paused == l.paused then l
      else if paused || !l.ready || l.intake.closed then l.(paused := paused)
      else
        var d := DrainFrames(z, owner, l.intake, false);
        Link(d.intake, d.paused, l.ready, Asks(l.receiving, d))
  }

  // -------------------------------------------------------------- Sending

  datatype Sender = Sender(compresses: bool, plainFramesLeft: nat, sent: nat, pending: nat)

  function PlainFrame(kind: Kind, tag: nat, payload: seq<byte>): (frame: seq<byte>)
    ensures |frame| == HEADER_BYTES + |payload|
  {
    HeaderBytes(Header(kind, 0, tag, |payload|)) + payload
  }

  /** The frame with its payload packed, when packing takes at least one byte
      in eight off it. */
  function CompressedFrame(z: Compressor, kind: Kind, tag: nat, payload: seq<byte>): (frame: Option<seq<byte>>)
  {
    var packed := z.pack(payload, |payload| - |payload| / 8);
    if payload == [] || |payload| >= TWO32 || packed == [] then None
    else
      var header := HeaderBytes(Header(kind, 0, tag, LENGTH_BYTES + |packed|));
      Some(header[FLAGS_OFFSET := COMPRESSED_FLAG] + LittleEndian(|payload|, LENGTH_BYTES) + packed)
  }

  /** The bytes that go out for a payload, and what a miss does to the next. */
  function Framed(z: Compressor, s: Sender, kind: Kind, tag: nat, payload: seq<byte>): (r: (seq<byte>, nat))
  {
    var plain := PlainFrame(kind, tag, payload);
    if !s.compresses || |payload| < MINIMUM_COMPRESSED then (plain, s.plainFramesLeft)
    else if s.plainFramesLeft > 0 then (plain, s.plainFramesLeft - 1)
    else
      match CompressedFrame(z, kind, tag, payload)
      case Some(frame) => (frame, 0)
      case None => (plain, if |payload| >= MISS_BYTES then PLAIN_AFTER_MISS else 0)
  }

  /** What `send` does with an object: the frame put on the wire, or nothing
      for one that does not encode or is too large. */
  function Send(z: Compressor, s: Sender, kind: Kind, tag: nat, source: Source): (r: (Sender, Option<seq<byte>>))
  {
    var payload := Encode(source, 0);
    if payload.None? || |payload.value| > MAXIMUM_PAYLOAD then (s, None)
    else
      var (sender, frame) := SendPayload(z, s, kind, tag, payload.value);
      (sender, Some(frame))
  }

  function SendPayload(z: Compressor, s: Sender, kind: Kind, tag: nat, payload: seq<byte>): (r: (Sender, seq<byte>))
  {
    var (frame, left) := Framed(z, s, kind, tag, payload);
    (s.(plainFramesLeft := left, sent := s.sent + HEADER_BYTES + |payload|, pending := s.pending + |frame|), frame)
  }

  // ----------------------------------------------------------- The object

  class RemoteFrameConnection {
    const compressor: Compressor
    const owner: Owner
    var buffer: seq<byte>
    var handed: seq<Frame>
    var receivedByteCount: nat
    var isReady: bool
    var isReceiving: bool
    var isReceivePaused: bool
    var isDraining: bool
    var isClosed: bool
    var compressesOutput: bool
    var plainFramesAfterMiss: nat
    var sentByteCount: nat
    var pendingByteCount: nat
    var acknowledgedByteCount: nat

    ghost function Took(): Intake
      reads this
    {
      Intake(buffer, handed, receivedByteCount, isDraining, isClosed)
    }

    ghost function Receiver(): Link
      reads this
    {
      Link(Took(), isReceivePaused, isReady, isReceiving)
    }

    ghost function Sends(): Sender
      reads this
    {
      Sender(compressesOutput, plainFramesAfterMiss, sentByteCount, pendingByteCount)
    }

    constructor (compressor: Compressor, owner: Owner, compressesOutput: bool)
      ensures this.compressor == compressor && this.owner == owner
      ensures Receiver() == FRESH && Sends() == Sender(compressesOutput, 0, 0, 0)
    {
      this.compressor, this.owner := compressor, owner;
      buffer, handed, receivedByteCount := [], [], 0;
      isReady, isReceiving, isReceivePaused, isDraining, isClosed := false, false, false, false, false;
      this.compressesOutput := compressesOutput;
      plainFramesAfterMiss, sentByteCount, pendingByteCount, acknowledgedByteCount := 0, 0, 0, 0;
    }

    method BecomeReady()
      modifies this`isReady, this`isReceiving
      ensures Receiver() == Step(compressor, owner, old(Receiver()), Ready)
    {
      if isReady || isClosed {
        return;
      }
      isReady := true;
      Receive();
    }

    method Receive()
      modifies this`isReceiving
      ensures isReceiving == Asks(old(isReceiving), Drained(Took(), isReceivePaused))
    {
      if isReceiving || isReceivePaused || isClosed {
        return;
      }
      isReceiving := true;
    }

    /** The outstanding read came back, with bytes or without. */
    method Received(data: seq<byte>, isLast: bool)
      requires isReceiving
      modifies this
      ensures Receiver() == Step(compressor, owner, old(Receiver()), Incoming(data, isLast)) && Sends() == old(Sends())
    {
      if isClosed {
        return;
      }
      isReceiving := false;
      if data != [] {
        buffer := buffer + data;
        var isOpen := DrainBuffer();
        if !isOpen {
          return;
        }
      }
      if isLast {
        isClosed := true;
      } else {
        Receive();
      }
    }

    method SetReceivingPaused(paused: bool)
      modifies this
      ensures Receiver() == Step(compressor, owner, old(Receiver()), SetPaused(paused)) && Sends() == old(Sends())
    {
      if paused == isReceivePaused {
        return;
      }
      isReceivePaused := paused;
      if paused || !isReady || isClosed {
        return;
      }
      var isOpen := DrainBuffer();
      if isOpen {
        Receive();
      }
    }

    /** The frames that are complete go to the owner and their bytes go from
        the buffer, all at once at the end. Says whether the link is open. */
    method DrainBuffer() returns (isOpen: bool)
      requires !isClosed
      modifies this`buffer, this`handed, this`receivedByteCount, this`isReceivePaused, this`isClosed, this`isDraining
      ensures Drained(Took(), isReceivePaused) == DrainFrames(compressor, owner, old(Took()), old(isReceivePaused))
      ensures isOpen == !isClosed
    {
      var offset, more := 0, true;
      while more && !isClosed && !isReceivePaused && |buffer| - offset >= HEADER_BYTES
        invariant offset <= |buffer| && buffer == old(buffer)
        invariant DrainFrames(compressor, owner, old(Took()), old(isReceivePaused))
               == DrainFrames(compressor, owner, From(offset), isReceivePaused)
        invariant !more ==> FrontOf(compressor, owner, owner.limit(handed), buffer[offset..]).Partial?
        decreases |buffer| - offset, !isClosed, more
      {
        offset, more := DrainOne(offset);
      }
      isOpen := !isClosed;
      buffer := buffer[offset..];
    }

    /** The link as it stands once the buffer's first `offset` bytes are gone. */
    ghost function From(offset: nat): Intake
      requires offset <= |buffer|
      reads this
    {
      Took().(buffer := buffer[offset..])
    }

    /** What is at `offset`: handed out, the end of the link, or not whole. */
    method DrainOne(offset: nat) returns (next: nat, more: bool)
      requires !isClosed && !isReceivePaused && offset <= |buffer|
      modifies this`handed, this`receivedByteCount, this`isReceivePaused, this`isClosed, this`isDraining
      ensures offset <= next <= |buffer| && (more ==> next > offset || isClosed)
      ensures !more ==> next == offset && !isClosed
      ensures !more ==> FrontOf(compressor, owner, owner.limit(handed), buffer[next..]).Partial?
      ensures DrainFrames(compressor, owner, old(From(offset)), false)
           == DrainFrames(compressor, owner, From(next), isReceivePaused)
    {
      var front := FrontOf(compressor, owner, owner.limit(handed), buffer[offset..]);
      ghost var was := From(offset);
      DrainUnfolds(compressor, owner, was);
      next, more := offset, true;
      match front {
        case Partial => more := false;
        case Unreadable => isClosed := true;
        case Whole(frame, size, plain) =>
          DropDropped(buffer, offset, size);
          next := offset + size;
          OnFrame(frame, plain);
          assert From(next) == Hand(owner, was, frame, size, plain);
      }
    }

    /** A frame is counted, and the owner is handed it. */
    method OnFrame(frame: Frame, plain: nat)
      requires !isClosed && !isReceivePaused
      modifies this`handed, this`receivedByteCount, this`isReceivePaused, this`isClosed, this`isDraining
      ensures Took() == Hand(owner, old(Took()), frame, 0, plain)
      ensures isReceivePaused == Pauses(owner, old(Took()), frame)
    {
      assert buffer[0..] == buffer;
      receivedByteCount := receivedByteCount + plain;
      if isDraining {
        return;
      }
      handed := handed + [frame];
      match owner.reaction(handed) {
        case Continue =>
        case Pause => isReceivePaused := true;
        case Close => isClosed := true;
        case Drain => isDraining := true;
      }
    }

    /** The device's receipt, once another quarter window has arrived. */
    method AcknowledgeReceived() returns (receipt: seq<nat>)
      modifies this`acknowledgedByteCount
      ensures (LinkWindow.Device(true, receivedByteCount, acknowledgedByteCount), receipt)
           == LinkWindow.Acknowledge(LinkWindow.Device(true, old(receivedByteCount), old(acknowledgedByteCount)))
    {
      if receivedByteCount - acknowledgedByteCount < LinkWindow.RECEIPT_BYTES {
        return [];
      }
      acknowledgedByteCount := receivedByteCount;
      receipt := [receivedByteCount];
    }

    /** Closes at once when nothing is pending, else once it has left. */
    method CloseWhenFlushed()
      modifies this`isClosed, this`isDraining
      ensures isClosed == (old(isClosed) || (!old(isDraining) && (!isReady || pendingByteCount == 0)))
      ensures isDraining == (old(isDraining) || (!old(isClosed) && isReady && pendingByteCount > 0))
    {
      if isClosed || isDraining {
        return;
      }
      if !isReady || pendingByteCount == 0 {
        isClosed := true;
        return;
      }
      isDraining := true;
    }

    /** The network took a frame of so many bytes. */
    method Processed(count: nat)
      requires count <= pendingByteCount
      modifies this`pendingByteCount, this`isClosed
      ensures pendingByteCount == old(pendingByteCount) - count
      ensures isClosed == (old(isClosed) || (isDraining && pendingByteCount == 0))
    {
      pendingByteCount := pendingByteCount - count;
      if isDraining && pendingByteCount == 0 {
        isClosed := true;
      }
    }

    /** The bytes for a payload: compressed where that pays. */
    method MakeFrame(kind: Kind, tag: nat, payload: seq<byte>) returns (bytes: seq<byte>)
      requires tag < TWO64 && |payload| <= MAXIMUM_PAYLOAD
      modifies this`plainFramesAfterMiss
      ensures (bytes, plainFramesAfterMiss) == Framed(compressor, old(Sends()), kind, tag, payload)
    {
      var compressed: Option<seq<byte>> := None;
      if compressesOutput && |payload| >= MINIMUM_COMPRESSED {
        if plainFramesAfterMiss > 0 {
          plainFramesAfterMiss := plainFramesAfterMiss - 1;
        } else {
          compressed := CompressedFrame(compressor, kind, tag, payload);
          if compressed.None? && |payload| >= MISS_BYTES {
            plainFramesAfterMiss := PLAIN_AFTER_MISS;
          }
        }
      }
      if compressed.Some? {
        bytes := compressed.value;
      } else {
        bytes := AppendHeader(Header(kind, 0, tag, |payload|), []);
        assert bytes == HeaderBytes(Header(kind, 0, tag, |payload|));
        bytes := bytes + payload;
      }
    }

    method Put(kind: Kind, tag: nat, payload: seq<byte>) returns (frame: seq<byte>)
      requires tag < TWO64 && |payload| <= MAXIMUM_PAYLOAD
      modifies this`plainFramesAfterMiss, this`sentByteCount, this`pendingByteCount
      ensures (Sends(), frame) == SendPayload(compressor, old(Sends()), kind, tag, payload)
    {
      frame := MakeFrame(kind, tag, payload);
      sentByteCount := sentByteCount + HEADER_BYTES + |payload|;
      pendingByteCount := pendingByteCount + |frame|;
    }

    /** A frame for the network, nothing when the link is going or the object
        cannot be sent. */
    method SendObject(kind: Kind, tag: nat, source: Source) returns (frame: Option<seq<byte>>)
      requires Typed(source) && tag < TWO64
      modifies this`plainFramesAfterMiss, this`sentByteCount, this`pendingByteCount
      ensures isClosed || isDraining ==> frame.None? && Sends() == old(Sends())
      ensures !isClosed && !isDraining ==> (Sends(), frame) == Send(compressor, old(Sends()), kind, tag, source)
    {
      if isClosed || isDraining {
        return None;
      }
      var encodes, payload := EncodeInto(source, 0, []);
      if !encodes || |payload| > MAXIMUM_PAYLOAD {
        return None;
      }
      assert payload == Encode(source, 0).value;
      var bytes := Put(kind, tag, payload);
      frame := Some(bytes);
    }
  }
}
