/** What stands before every payload: its length in four bytes, its kind in
    one, three that mean nothing, and two numbers of eight bytes, all least
    significant byte first. */
module Wire {
  import opened Bytes
  import opened Wrappers

  const HEADER_BYTES := 24
  const MAXIMUM_PAYLOAD := 4 * 1024 * 1024

  datatype Kind = Request | Reply | Event | PeerGone

  datatype Header = Header(kind: Kind, peer: nat, tag: nat, payloadByteCount: nat)

  function RawKind(kind: Kind): byte
  {
    match kind case Request => 1 case Reply => 2 case Event => 3 case PeerGone => 4
  }

  function KindOf(raw: byte): Option<Kind>
  {
    if raw == 1 then Some(Request) else if raw == 2 then Some(Reply)
    else if raw == 3 then Some(Event) else if raw == 4 then Some(PeerGone) else None
  }

  /** What the field widths can hold. */
  predicate Fits(h: Header)
  {
    h.peer < 0x1_0000_0000_0000_0000 && h.tag < 0x1_0000_0000_0000_0000 && h.payloadByteCount < 0x1_0000_0000
  }

  function HeaderBytes(h: Header): (bytes: seq<byte>)
    ensures |bytes| == HEADER_BYTES
  {
    LittleEndian(h.payloadByteCount, 4) + [RawKind(h.kind), 0, 0, 0] + LittleEndian(h.peer, 8) + LittleEndian(h.tag, 8)
  }

  method AppendHeader(header: Header, buffer: seq<byte>) returns (r: seq<byte>)
    requires Fits(header)
    ensures r == buffer + HeaderBytes(header)
  {
    r := buffer + LittleEndian(header.payloadByteCount, 4);
    r := r + [RawKind(header.kind)];
    r := r + [0, 0, 0];
    r := r + LittleEndian(header.peer, 8);
    r := r + LittleEndian(header.tag, 8);
  }

  function Load(bytes: seq<byte>, offset: nat, width: nat): nat
    requires offset + width <= |bytes|
  {
    NumberAt(bytes, offset, width)
  }

  /** The header these bytes begin with: there is one if they are enough, the
      kind is known and the length allowed, whatever bytes 5 to 7 are. */
  function DecodeHeader(bytes: seq<byte>): (h: Option<Header>)
    ensures h.Some? ==> |bytes| >= HEADER_BYTES && h.value.payloadByteCount <= MAXIMUM_PAYLOAD
  {
    if |bytes| < HEADER_BYTES then None
    else
      var length := Load(bytes, 0, 4);
      var kind := KindOf(bytes[4]);
      if kind.None? || length > MAXIMUM_PAYLOAD then None
      else Some(Header(kind.value, Load(bytes, 8, 8), Load(bytes, 16, 8), length))
  }

  lemma LoadOfLittleEndian(bytes: seq<byte>, offset: nat, value: nat, width: nat)
    requires offset + width <= |bytes| && value < Power256(width)
    requires bytes[offset..offset + width] == LittleEndian(value, width)
    ensures Load(bytes, offset, width) == value
  {
    NumberOfLittleEndian(bytes, offset, value, width);
  }

  /** A header read back, whatever follows it and whatever its reserved
      bytes hold: itself, or nothing when it announces too much. */
  lemma HeaderRoundTrip(h: Header, reserved: seq<byte>, rest: seq<byte>)
    requires Fits(h) && |reserved| == 3
    ensures var bytes := HeaderBytes(h)[..5] + reserved + HeaderBytes(h)[8..] + rest;
            DecodeHeader(bytes) == if h.payloadByteCount <= MAXIMUM_PAYLOAD then Some(h) else None
  {
    Power256Values();
    var bytes := HeaderBytes(h)[..5] + reserved + HeaderBytes(h)[8..] + rest;
    var (length, peer, tag) := (LittleEndian(h.payloadByteCount, 4), LittleEndian(h.peer, 8), LittleEndian(h.tag, 8));
    assert HeaderBytes(h)[..5] == length + [RawKind(h.kind)] && HeaderBytes(h)[8..] == peer + tag;
    assert bytes == length + [RawKind(h.kind)] + reserved + peer + tag + rest;
    assert bytes[0..4] == length;
    assert bytes[8..16] == LittleEndian(h.peer, 8);
    assert bytes[16..24] == LittleEndian(h.tag, 8);
    LoadOfLittleEndian(bytes, 0, h.payloadByteCount, 4);
    LoadOfLittleEndian(bytes, 8, h.peer, 8);
    LoadOfLittleEndian(bytes, 16, h.tag, 8);
  }
}
