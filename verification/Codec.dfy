/**
 How objects are written as bytes and read back. Each starts with a byte for
 its type; scalars have a width that goes with it, strings and data say how
 long they are, arrays and dictionaries how many values follow. Nesting stops
 at `MAXIMUM_DEPTH`.
 */
module Codec {
  import opened Bytes
  import opened Wire
  import opened Wrappers

  const MAXIMUM_DEPTH := 8

  /** An object as the encoder walks it: each dictionary with the order its
      entries are enumerated in. `Other` is any type the wire does not carry. */
  datatype Source =
    | UInt64(u: nat) | Int64(i: int) | Boolean(b: bool) | Text(text: seq<byte>) | Data(data: seq<byte>)
    | Array(items: seq<Source>) | Dictionary(entries: seq<Entry>) | Other

  datatype Entry = Entry(key: seq<byte>, value: Source)

  /** An object as such: a dictionary has no order. */
  datatype Object =
    | OUInt64(u: nat) | OInt64(i: int) | OBoolean(b: bool) | OText(text: seq<byte>) | OData(data: seq<byte>)
    | OArray(items: seq<Object>) | ODictionary(entries: map<seq<byte>, Object>)

  const TWO32 := 0x1_0000_0000
  const TWO64 := 0x1_0000_0000_0000_0000

  /** What the types of the objects promise: numbers in range, lengths that
      fit their prefix, C strings without NUL. */
  ghost predicate Typed(s: Source)
  {
    match s
    case UInt64(u) => u < TWO64
    case Int64(i) => -TWO64 / 2 <= i < TWO64 / 2
    case Boolean(_) => true
    case Text(t) => |t| < TWO32 && 0 !in t
    case Data(d) => |d| < TWO32
    case Array(items) => |items| < TWO32 && forall i :: 0 <= i < |items| ==> Typed(items[i])
    case Dictionary(entries) =>
      |entries| < TWO32 &&
      forall i :: 0 <= i < |entries| ==> |entries[i].key| < TWO32 && 0 !in entries[i].key && Typed(entries[i].value)
    case Other => true
  }

  /** Whether every part is of a carried type and at most `levels` nest. */
  ghost predicate Carried(s: Source, levels: nat)
  {
    levels > 0 &&
    match s
    case Array(items) => forall i :: 0 <= i < |items| ==> Carried(items[i], levels - 1)
    case Dictionary(entries) => forall i :: 0 <= i < |entries| ==> Carried(entries[i].value, levels - 1)
    case Other => false
    case _ => true
  }

  /** The object itself. A later entry of the same key replaces an earlier. */
  function Meaning(s: Source): Object
  {
    match s
    case UInt64(u) => OUInt64(u)
    case Int64(i) => OInt64(i)
    case Boolean(b) => OBoolean(b)
    case Text(t) => OText(t)
    case Data(d) => OData(d)
    case Array(items) => OArray(Meanings(items))
    case Dictionary(entries) => ODictionary(Added(map[], entries))
    case Other => OData([])
  }

  function Meanings(items: seq<Source>): (r: seq<Object>)
    ensures |r| == |items|
  {
    if items == [] then [] else [Meaning(items[0])] + Meanings(items[1..])
  }

  function Added(m: map<seq<byte>, Object>, entries: seq<Entry>): map<seq<byte>, Object>
    decreases entries
  {
    if entries == [] then m else Added(m[entries[0].key := Meaning(entries[0].value)], entries[1..])
  }

  // ------------------------------------------------------------- Encoding

  /** A length or count, then its bytes. */
  function Run(bytes: seq<byte>): seq<byte>
  {
    LittleEndian(|bytes|, 4) + bytes
  }

  /** The bytes of a source, if it has any: some sources cannot be sent. */
  function Encode(s: Source, depth: nat): (r: Option<seq<byte>>)
    requires depth <= MAXIMUM_DEPTH
    ensures r.Some? ==> |r.value| >= 2
    decreases s, 1
  {
    if depth == MAXIMUM_DEPTH then None
    else match s
    case Array(items) =>
      var body := EncodeItems(items, depth + 1);
      if body.None? then None else Some([6] + LittleEndian(|items|, 4) + body.value)
    case Dictionary(entries) =>
      var body := EncodeEntries(entries, depth + 1);
      if body.None? then None else Some([7] + LittleEndian(|entries|, 4) + body.value)
    case Other => None
    case _ => Some(EncodeLeaf(s))
  }

  predicate IsLeaf(s: Source) { !s.Array? && !s.Dictionary? && !s.Other? }

  function EncodeLeaf(s: Source): (r: seq<byte>)
    requires IsLeaf(s)
    ensures |r| >= 2
  {
    match s
    case UInt64(u) => [1] + LittleEndian(u, 8)
    case Int64(i) => [2] + LittleEndian(i % TWO64, 8)
    case Boolean(b) => [3, if b then 1 else 0]
    case Text(t) => [4] + Run(t)
    case Data(d) => [5] + Run(d)
  }

  function EncodeItems(items: seq<Source>, depth: nat): (r: Option<seq<byte>>)
    requires depth <= MAXIMUM_DEPTH
    ensures r.Some? ==> |r.value| >= |items|
    decreases items, 0
  {
    if items == [] then Some([])
    else
      var first := Encode(items[0], depth);
      var rest := EncodeItems(items[1..], depth);
      if first.None? || rest.None? then None else Some(first.value + rest.value)
  }

  function EncodeEntries(entries: seq<Entry>, depth: nat): (r: Option<seq<byte>>)
    requires depth <= MAXIMUM_DEPTH
    ensures r.Some? ==> |r.value| >= |entries|
    decreases entries, 0
  {
    if entries == [] then Some([])
    else
      var first := Encode(entries[0].value, depth);
      var rest := EncodeEntries(entries[1..], depth);
      if first.None? || rest.None? then None else Some(Run(entries[0].key) + first.value + rest.value)
  }

  /** Encoding refuses exactly what holds an uncarried type or nests more
      than the levels left. */
  lemma {:induction false} EncodesWhatIsCarried(s: Source, depth: nat)
    requires depth <= MAXIMUM_DEPTH
    ensures Encode(s, depth).Some? <==> Carried(s, MAXIMUM_DEPTH - depth)
    decreases s, 1
  {
    if depth < MAXIMUM_DEPTH {
      match s {
        case Array(items) => EncodesItemsCarried(items, depth + 1);
        case Dictionary(entries) => EncodesEntriesCarried(entries, depth + 1);
        case _ =>
      }
    }
  }

  lemma {:induction false} EncodesItemsCarried(items: seq<Source>, depth: nat)
    requires depth <= MAXIMUM_DEPTH
    ensures EncodeItems(items, depth).Some?
       <==> forall i :: 0 <= i < |items| ==> Carried(items[i], MAXIMUM_DEPTH - depth)
    decreases items, 0
  {
    if items != [] {
      EncodesWhatIsCarried(items[0], depth);
      EncodesItemsCarried(items[1..], depth);
      assert forall i :: 1 <= i < |items| ==> items[i] == items[1..][i - 1];
    }
  }

  lemma {:induction false} EncodesEntriesCarried(entries: seq<Entry>, depth: nat)
    requires depth <= MAXIMUM_DEPTH
    ensures EncodeEntries(entries, depth).Some?
       <==> forall i :: 0 <= i < |entries| ==> Carried(entries[i].value, MAXIMUM_DEPTH - depth)
    decreases entries, 0
  {
    if entries != [] {
      EncodesWhatIsCarried(entries[0].value, depth);
      EncodesEntriesCarried(entries[1..], depth);
      assert forall i :: 1 <= i < |entries| ==> entries[i] == entries[1..][i - 1];
    }
  }

  lemma ContainerAppended(buffer: seq<byte>, tag: byte, count: seq<byte>, body: seq<byte>)
    ensures buffer + [tag] + count + body == buffer + ([tag] + count + body)
  {
  }

  /** The encoder appends to a buffer as it walks; refused half way, it
      leaves what it wrote. */
  method EncodeInto(s: Source, depth: nat, buffer: seq<byte>) returns (succeeded: bool, r: seq<byte>)
    requires depth <= MAXIMUM_DEPTH && Typed(s)
    ensures succeeded <==> Encode(s, depth).Some?
    ensures succeeded ==> r == buffer + Encode(s, depth).value
    ensures buffer <= r
    decreases s, 1
  {
    succeeded, r := true, buffer;
    if depth == MAXIMUM_DEPTH {
      return false, r;
    }
    match s {
      case Array(items) =>
        r := r + [6];
        r := r + LittleEndian(|items|, 4);
        succeeded, r := EncodeItemsInto(items, depth + 1, r);
        if succeeded {
          ContainerAppended(buffer, 6, LittleEndian(|items|, 4), EncodeItems(items, depth + 1).value);
        }
      case Dictionary(entries) =>
        r := r + [7];
        r := r + LittleEndian(|entries|, 4);
        succeeded, r := EncodeEntriesInto(entries, depth + 1, r);
        if succeeded {
          ContainerAppended(buffer, 7, LittleEndian(|entries|, 4), EncodeEntries(entries, depth + 1).value);
        }
      case Other => succeeded := false;
      case _ => r := EncodeLeafInto(s, r);
    }
  }

  method EncodeLeafInto(s: Source, buffer: seq<byte>) returns (r: seq<byte>)
    requires IsLeaf(s) && Typed(s)
    ensures r == buffer + EncodeLeaf(s)
  {
    match s {
      case UInt64(u) => r := buffer + [1] + LittleEndian(u, 8);
      case Int64(i) => r := buffer + [2] + LittleEndian(i % TWO64, 8);
      case Boolean(b) => r := buffer + [3] + [if b then 1 else 0];
      case Text(t) => r := buffer + [4] + LittleEndian(|t|, 4) + t;
      case Data(d) => r := buffer + [5] + LittleEndian(|d|, 4) + d;
    }
  }

  /** How an encoding goes on from its `i`-th part: `done` so far, `left`
      still to come, `all` in the end. */
  ghost predicate GoesOn(start: seq<byte>, all: Option<seq<byte>>, done: seq<byte>, left: Option<seq<byte>>)
  {
    && (all.Some? <==> left.Some?)
    && (all.Some? ==> start + all.value == done + left.value)
  }

  lemma ItemsGoOn(start: seq<byte>, all: Option<seq<byte>>, done: seq<byte>, items: seq<Source>, depth: nat)
    requires depth <= MAXIMUM_DEPTH && items != []
    requires GoesOn(start, all, done, EncodeItems(items, depth))
    ensures var first := Encode(items[0], depth);
            && (first.None? ==> all.None?)
            && (first.Some? ==>
                  GoesOn(start, all, done + first.value, EncodeItems(items[1..], depth)))
  {
    var first, rest := Encode(items[0], depth), EncodeItems(items[1..], depth);
    if first.Some? && rest.Some? {
      AppendAssociates(done, first.value, rest.value);
    }
  }

  lemma EntriesGoOn(start: seq<byte>, all: Option<seq<byte>>, done: seq<byte>, entries: seq<Entry>, depth: nat)
    requires depth <= MAXIMUM_DEPTH && entries != []
    requires GoesOn(start, all, done, EncodeEntries(entries, depth))
    ensures var first := Encode(entries[0].value, depth);
            && (first.None? ==> all.None?)
            && (first.Some? ==>
                  GoesOn(start, all, done + Run(entries[0].key) + first.value, EncodeEntries(entries[1..], depth)))
  {
    var key, first, rest := Run(entries[0].key), Encode(entries[0].value, depth), EncodeEntries(entries[1..], depth);
    if first.Some? && rest.Some? {
      AppendAssociates(done, key + first.value, rest.value);
      AppendAssociates(done, key, first.value);
    }
  }

  method EncodeItemsInto(items: seq<Source>, depth: nat, buffer: seq<byte>) returns (succeeded: bool, r: seq<byte>)
    requires depth <= MAXIMUM_DEPTH && forall i :: 0 <= i < |items| ==> Typed(items[i])
    ensures succeeded <==> EncodeItems(items, depth).Some?
    ensures succeeded ==> r == buffer + EncodeItems(items, depth).value
    ensures buffer <= r
    decreases items, 0
  {
    succeeded, r := true, buffer;
    for i := 0 to |items|
      invariant buffer <= r && succeeded
      invariant GoesOn(buffer, EncodeItems(items, depth), r, EncodeItems(items[i..], depth))
    {
      ItemsGoOn(buffer, EncodeItems(items, depth), r, items[i..], depth);
      DropDropped(items, i, 1);
      succeeded, r := EncodeInto(items[i], depth, r);
      if !succeeded {
        return;
      }
    }
  }

  method EncodeEntriesInto(entries: seq<Entry>, depth: nat, buffer: seq<byte>) returns (succeeded: bool, r: seq<byte>)
    requires depth <= MAXIMUM_DEPTH
    requires forall i :: 0 <= i < |entries| ==>
      |entries[i].key| < TWO32 && 0 !in entries[i].key && Typed(entries[i].value)
    ensures succeeded <==> EncodeEntries(entries, depth).Some?
    ensures succeeded ==> r == buffer + EncodeEntries(entries, depth).value
    ensures buffer <= r
    decreases entries, 0
  {
    succeeded, r := true, buffer;
    for i := 0 to |entries|
      invariant buffer <= r && succeeded
      invariant GoesOn(buffer, EncodeEntries(entries, depth), r, EncodeEntries(entries[i..], depth))
    {
      EntriesGoOn(buffer, EncodeEntries(entries, depth), r, entries[i..], depth);
      DropDropped(entries, i, 1);
      AppendAssociates(r, LittleEndian(|entries[i].key|, 4), entries[i].key);
      r := r + LittleEndian(|entries[i].key|, 4);
      r := r + entries[i].key;
      succeeded, r := EncodeInto(entries[i].value, depth, r);
      if !succeeded {
        return;
      }
    }
  }

  // ------------------------------------------------------------- Decoding

  /** What reading a value gives: the object, or nothing; where it ended;
      how many objects were made, whether or not it came to anything. */
  datatype Decoded = Decoded(value: Option<Object>, end: nat, built: nat)

  function Failed(built: nat): Decoded { Decoded(None, 0, built) }

  /** At most one object is made of every two bytes read. */
  ghost predicate Bounded(r: Decoded, bytes: seq<byte>, at: nat)
  {
    && 2 * r.built <= |bytes| - at
    && (r.value.Some? ==> at <= r.end <= |bytes| && 2 * r.built <= r.end - at)
  }

  /** A number of `width` bytes. */
  function TakeNumber(bytes: seq<byte>, at: nat, width: nat): Option<nat>
  {
    if at + width > |bytes| then None else Some(NumberAt(bytes, at, width))
  }

  /** As many bytes as the number before them says, if there are that many. */
  function TakeBytes(bytes: seq<byte>, at: nat): (r: Option<seq<byte>>)
    ensures r.Some? ==> at + 4 + |r.value| <= |bytes|
  {
    var length := TakeNumber(bytes, at, 4);
    if length.None? || length.value > |bytes| - at - 4 then None
    else Some(bytes[at + 4..at + 4 + length.value])
  }

  function Signed(u: nat): int
  {
    if u < TWO64 / 2 then u else u - TWO64
  }

  predicate IsContainer(c: Object) { c.OArray? || c.ODictionary? }

  function Empty(tag: byte): Object
  {
    if tag == 6 then OArray([]) else ODictionary(map[])
  }

  function DecodeValue(bytes: seq<byte>, at: nat, depth: nat): (r: Decoded)
    requires at <= |bytes| && depth <= MAXIMUM_DEPTH
    ensures Bounded(r, bytes, at)
    ensures r.value.Some? ==> at + 2 <= r.end
    decreases MAXIMUM_DEPTH - depth, 0, 0
  {
    if depth == MAXIMUM_DEPTH || at == |bytes| then Failed(0)
    else if bytes[at] == 6 || bytes[at] == 7 then
      var count := TakeNumber(bytes, at + 1, 4);
      if count.None? || count.value > |bytes| - at - 5 then Failed(0)
      else
        var r := DecodeParts(Empty(bytes[at]), bytes, at + 5, depth + 1, count.value);
        r.(built := 1 + r.built)
    else DecodeLeaf(bytes, at)
  }

  /** A value of fixed size or a run. */
  function DecodeLeaf(bytes: seq<byte>, at: nat): (r: Decoded)
    requires at < |bytes|
    ensures Bounded(r, bytes, at)
    ensures r.value.Some? ==> at + 2 <= r.end
  {
    var tag := bytes[at];
    if 1 <= tag <= 3 then
      var width := if tag == 3 then 1 else 8;
      var number := TakeNumber(bytes, at + 1, width);
      if number.None? then Failed(0) else Decoded(Some(NumberObject(tag, number.value)), at + 1 + width, 1)
    else if tag == 4 || tag == 5 then
      var run := TakeBytes(bytes, at + 1);
      if run.None? || (tag == 4 && 0 in run.value) then Failed(0)
      else Decoded(Some(if tag == 4 then OText(run.value) else OData(run.value)), at + 5 + |run.value|, 1)
    else Failed(0)
  }

  function NumberObject(tag: byte, n: nat): Object
  {
    if tag == 1 then OUInt64(n) else if tag == 2 then OInt64(Signed(n)) else OBoolean(n != 0)
  }

  /** `count` more values for an array, or keys and values for a dictionary. */
  function DecodeParts(c: Object, bytes: seq<byte>, at: nat, depth: nat, count: nat): (r: Decoded)
    requires IsContainer(c) && at <= |bytes| && depth <= MAXIMUM_DEPTH
    ensures Bounded(r, bytes, at)
    decreases MAXIMUM_DEPTH - depth, 2, count
  {
    if count == 0 then Decoded(Some(c), at, 0)
    else
      var first := DecodePart(c, bytes, at, depth);
      if first.value.None? then first
      else
        var rest := DecodeParts(first.value.value, bytes, first.end, depth, count - 1);
        rest.(built := first.built + rest.built)
  }

  /** One more; a key met again replaces the value it had. */
  function DecodePart(c: Object, bytes: seq<byte>, at: nat, depth: nat): (r: Decoded)
    requires IsContainer(c) && at <= |bytes| && depth <= MAXIMUM_DEPTH
    ensures Bounded(r, bytes, at)
    ensures r.value.Some? ==> IsContainer(r.value.value)
    decreases MAXIMUM_DEPTH - depth, 1, 0
  {
    if c.OArray? then
      var v := DecodeValue(bytes, at, depth);
      if v.value.None? then v else v.(value := Some(OArray(c.items + [v.value.value])))
    else
      var key := TakeBytes(bytes, at);
      if key.None? || 0 in key.value then Failed(0)
      else
        var v := DecodeValue(bytes, at + 4 + |key.value|, depth);
        if v.value.None? then v else v.(value := Some(ODictionary(c.entries[key.value := v.value.value])))
  }

  /** What the bytes stand for, if one object takes up all of them. */
  function Decode(bytes: seq<byte>): Option<Object>
  {
    var r := DecodeValue(bytes, 0, 0);
    if r.value.Some? && r.end == |bytes| then r.value else None
  }

  /** Decoding any bytes builds at most half as many objects as there are
      bytes, message or not. */
  lemma ObjectsAreBounded(bytes: seq<byte>)
    ensures DecodeValue(bytes, 0, 0).built <= |bytes| / 2
  {
    assert Bounded(DecodeValue(bytes, 0, 0), bytes, 0);
  }

  // ----------------------------------------------------------- Round trip

  lemma NumberTaken(value: nat, width: nat, bytes: seq<byte>, at: nat)
    requires at <= |bytes| && value < Power256(width) && StandsAt(bytes, at, LittleEndian(value, width))
    ensures TakeNumber(bytes, at, width) == Some(value)
  {
    NumberOfLittleEndian(bytes, at, value, width);
  }

  lemma RunTaken(run: seq<byte>, bytes: seq<byte>, at: nat)
    requires at <= |bytes| && |run| < TWO32 && StandsAt(bytes, at, Run(run))
    ensures TakeBytes(bytes, at) == Some(run)
  {
    Power256Values();
    StandsInTwo(bytes, at, LittleEndian(|run|, 4), run);
    NumberTaken(|run|, 4, bytes, at);
  }

  /** Decoding an encoding wherever it stands gives back the object and ends
      where the encoding does. */
  lemma {:induction false} RoundTrip(s: Source, depth: nat, bytes: seq<byte>, at: nat)
    requires depth <= MAXIMUM_DEPTH && Typed(s) && Encode(s, depth).Some?
    requires at <= |bytes| && StandsAt(bytes, at, Encode(s, depth).value)
    ensures DecodeValue(bytes, at, depth).value == Some(Meaning(s))
    ensures DecodeValue(bytes, at, depth).end == at + |Encode(s, depth).value|
    decreases s, 1
  {
    if s.Array? {
      ArrayRoundTrip(s, depth, bytes, at);
    } else if s.Dictionary? {
      DictionaryRoundTrip(s, depth, bytes, at);
    } else {
      LeafRoundTrip(s, bytes, at);
    }
  }

  lemma {:induction false} ArrayRoundTrip(s: Source, depth: nat, bytes: seq<byte>, at: nat)
    requires depth <= MAXIMUM_DEPTH && s.Array? && Typed(s) && Encode(s, depth).Some?
    requires at <= |bytes| && StandsAt(bytes, at, Encode(s, depth).value)
    ensures DecodeValue(bytes, at, depth).value == Some(Meaning(s))
    ensures DecodeValue(bytes, at, depth).end == at + |Encode(s, depth).value|
    decreases s, 0
  {
    ContainerTaken(6, |s.items|, EncodeItems(s.items, depth + 1).value, bytes, at);
    RoundTripItems([], s.items, depth + 1, bytes, at + 5);
    assert [] + Meanings(s.items) == Meanings(s.items);
    ContainerDecodes(6, |s.items|, bytes, at, depth);
  }

  lemma {:induction false} DictionaryRoundTrip(s: Source, depth: nat, bytes: seq<byte>, at: nat)
    requires depth <= MAXIMUM_DEPTH && s.Dictionary? && Typed(s) && Encode(s, depth).Some?
    requires at <= |bytes| && StandsAt(bytes, at, Encode(s, depth).value)
    ensures DecodeValue(bytes, at, depth).value == Some(Meaning(s))
    ensures DecodeValue(bytes, at, depth).end == at + |Encode(s, depth).value|
    decreases s, 0
  {
    ContainerTaken(7, |s.entries|, EncodeEntries(s.entries, depth + 1).value, bytes, at);
    RoundTripEntries(map[], s.entries, depth + 1, bytes, at + 5);
    ContainerDecodes(7, |s.entries|, bytes, at, depth);
  }

  lemma ContainerTaken(tag: byte, count: nat, body: seq<byte>, bytes: seq<byte>, at: nat)
    requires at <= |bytes| && count < TWO32 && count <= |body|
    requires StandsAt(bytes, at, [tag] + LittleEndian(count, 4) + body)
    ensures at + 5 + count <= |bytes| && bytes[at] == tag && TakeNumber(bytes, at + 1, 4) == Some(count)
    ensures StandsAt(bytes, at + 5, body)
  {
    Power256Values();
    StandsInTwo(bytes, at, [tag] + LittleEndian(count, 4), body);
    StandsInTwo(bytes, at, [tag], LittleEndian(count, 4));
    NumberTaken(count, 4, bytes, at + 1);
  }

  lemma ContainerDecodes(tag: byte, count: nat, bytes: seq<byte>, at: nat, depth: nat)
    requires depth < MAXIMUM_DEPTH && at + 5 + count <= |bytes| && (tag == 6 || tag == 7)
    requires bytes[at] == tag && TakeNumber(bytes, at + 1, 4) == Some(count)
    ensures var (r, parts) := (DecodeValue(bytes, at, depth), DecodeParts(Empty(tag), bytes, at + 5, depth + 1, count));
            r.value == parts.value && r.end == parts.end
  {
  }

  ghost predicate LeafReadsBack(s: Source, bytes: seq<byte>, at: nat)
    requires IsLeaf(s)
  {
    && at < |bytes| && 1 <= bytes[at] <= 5
    && DecodeLeaf(bytes, at) == Decoded(Some(Meaning(s)), at + |EncodeLeaf(s)|, 1)
  }

  lemma NumberRoundTrip(s: Source, bytes: seq<byte>, at: nat)
    requires (s.UInt64? || s.Int64?) && Typed(s) && at <= |bytes| && StandsAt(bytes, at, EncodeLeaf(s))
    ensures LeafReadsBack(s, bytes, at)
  {
    if s.UInt64? {
      NumberLeafTaken(1, s.u, bytes, at);
    } else {
      NumberLeafTaken(2, s.i % TWO64, bytes, at);
    }
  }

  lemma RunRoundTrip(s: Source, bytes: seq<byte>, at: nat)
    requires (s.Text? || s.Data?) && Typed(s) && at <= |bytes| && StandsAt(bytes, at, EncodeLeaf(s))
    ensures LeafReadsBack(s, bytes, at)
  {
    if s.Text? {
      RunLeafTaken(4, s.text, bytes, at);
    } else {
      RunLeafTaken(5, s.data, bytes, at);
    }
  }

  lemma LeafRoundTrip(s: Source, bytes: seq<byte>, at: nat)
    requires IsLeaf(s) && Typed(s) && at <= |bytes| && StandsAt(bytes, at, EncodeLeaf(s))
    ensures at < |bytes| && 1 <= bytes[at] <= 5
    ensures DecodeLeaf(bytes, at) == Decoded(Some(Meaning(s)), at + |EncodeLeaf(s)|, 1)
  {
    match s {
      case UInt64(_) => NumberRoundTrip(s, bytes, at);
      case Int64(_) => NumberRoundTrip(s, bytes, at);
      case Boolean(b) => FlagTaken(b, bytes, at);
      case _ => RunRoundTrip(s, bytes, at);
    }
  }

  lemma NumberLeafTaken(tag: byte, n: nat, bytes: seq<byte>, at: nat)
    requires 1 <= tag <= 2 && n < TWO64 && at <= |bytes| && StandsAt(bytes, at, [tag] + LittleEndian(n, 8))
    ensures at + 9 <= |bytes| && bytes[at] == tag
    ensures DecodeLeaf(bytes, at) == Decoded(Some(NumberObject(tag, n)), at + 9, 1)
  {
    Power256Values();
    StandsInTwo(bytes, at, [tag], LittleEndian(n, 8));
    NumberTaken(n, 8, bytes, at + 1);
  }

  lemma RunLeafTaken(tag: byte, run: seq<byte>, bytes: seq<byte>, at: nat)
    requires 4 <= tag <= 5 && |run| < TWO32 && (tag == 4 ==> 0 !in run)
    requires at <= |bytes| && StandsAt(bytes, at, [tag] + Run(run))
    ensures at + 5 + |run| <= |bytes| && bytes[at] == tag
    ensures DecodeLeaf(bytes, at) == Decoded(Some(if tag == 4 then OText(run) else OData(run)), at + 5 + |run|, 1)
  {
    StandsInTwo(bytes, at, [tag], Run(run));
    RunTaken(run, bytes, at + 1);
  }

  lemma FlagTaken(b: bool, bytes: seq<byte>, at: nat)
    requires at <= |bytes| && StandsAt(bytes, at, [3, if b then 1 else 0])
    ensures at + 2 <= |bytes| && bytes[at] == 3
    ensures DecodeLeaf(bytes, at) == Decoded(Some(OBoolean(b)), at + 2, 1)
  {
    var flag: seq<byte> := [if b then 1 else 0];
    assert [3] + flag == [3, if b then 1 else 0];
    StandsInTwo(bytes, at, [3], flag);
    assert NumberAt(bytes, at + 1, 1) == flag[0];
  }

  /** The first of a run of items is decoded, and the rest stand after. */
  lemma {:induction false} ItemRoundTrip(made: seq<Object>, items: seq<Source>, depth: nat, bytes: seq<byte>, at: nat)
    requires depth <= MAXIMUM_DEPTH && items != [] && EncodeItems(items, depth).Some? && Typed(items[0])
    requires at <= |bytes| && StandsAt(bytes, at, EncodeItems(items, depth).value)
    ensures EncodeItems(items[1..], depth).Some?
    ensures DecodePart(OArray(made), bytes, at, depth).value == Some(OArray(made + [Meaning(items[0])]))
    ensures var (end, rest) := (DecodePart(OArray(made), bytes, at, depth).end, EncodeItems(items[1..], depth).value);
            StandsAt(bytes, end, rest) && end + |rest| == at + |EncodeItems(items, depth).value|
    decreases items, 0
  {
    ItemsStand(items, depth, bytes, at);
    RoundTrip(items[0], depth, bytes, at);
    AppendedUnfolds(made, bytes, at, depth);
  }

  lemma AppendedUnfolds(made: seq<Object>, bytes: seq<byte>, at: nat, depth: nat)
    requires at <= |bytes| && depth <= MAXIMUM_DEPTH && DecodeValue(bytes, at, depth).value.Some?
    ensures var (v, r) := (DecodeValue(bytes, at, depth), DecodePart(OArray(made), bytes, at, depth));
            r.value == Some(OArray(made + [v.value.value])) && r.end == v.end
  {
  }

  lemma {:induction false} RoundTripItems(made: seq<Object>, items: seq<Source>, depth: nat, bytes: seq<byte>, at: nat)
    requires depth <= MAXIMUM_DEPTH && EncodeItems(items, depth).Some?
    requires at <= |bytes| && StandsAt(bytes, at, EncodeItems(items, depth).value)
    requires forall i :: 0 <= i < |items| ==> Typed(items[i])
    ensures var r := DecodeParts(OArray(made), bytes, at, depth, |items|);
            r.value == Some(OArray(made + Meanings(items))) && r.end == at + |EncodeItems(items, depth).value|
    decreases items, 1
  {
    if items == [] {
      assert made + [] == made;
    } else {
      ItemRoundTrip(made, items, depth, bytes, at);
      var end := DecodePart(OArray(made), bytes, at, depth).end;
      RoundTripItems(made + [Meaning(items[0])], items[1..], depth, bytes, end);
      AppendAssociates(made, [Meaning(items[0])], Meanings(items[1..]));
      PartsUnfold(OArray(made), bytes, at, depth, |items|);
    }
  }

  lemma PartsUnfold(c: Object, bytes: seq<byte>, at: nat, depth: nat, count: nat)
    requires IsContainer(c) && at <= |bytes| && depth <= MAXIMUM_DEPTH && count > 0
    requires DecodePart(c, bytes, at, depth).value.Some?
    ensures var first, r := DecodePart(c, bytes, at, depth), DecodeParts(c, bytes, at, depth, count);
            var rest := DecodeParts(first.value.value, bytes, first.end, depth, count - 1);
            r.value == rest.value && r.end == rest.end
  {
  }

  /** An encoding of parts standing somewhere is its first part's encoding
      and, after it, the others'. */
  lemma ItemsStand(items: seq<Source>, depth: nat, bytes: seq<byte>, at: nat)
    requires depth <= MAXIMUM_DEPTH && items != [] && EncodeItems(items, depth).Some? && at <= |bytes|
    requires StandsAt(bytes, at, EncodeItems(items, depth).value)
    ensures Encode(items[0], depth).Some? && EncodeItems(items[1..], depth).Some?
    ensures var first, rest := Encode(items[0], depth).value, EncodeItems(items[1..], depth).value;
            && |EncodeItems(items, depth).value| == |first| + |rest|
            && at + |first| <= |bytes| && StandsAt(bytes, at, first) && StandsAt(bytes, at + |first|, rest)
  {
    StandsInTwo(bytes, at, Encode(items[0], depth).value, EncodeItems(items[1..], depth).value);
  }

  lemma EntriesStand(entries: seq<Entry>, depth: nat, bytes: seq<byte>, at: nat)
    requires depth <= MAXIMUM_DEPTH && entries != [] && EncodeEntries(entries, depth).Some? && at <= |bytes|
    requires StandsAt(bytes, at, EncodeEntries(entries, depth).value)
    ensures Encode(entries[0].value, depth).Some? && EncodeEntries(entries[1..], depth).Some?
    ensures var key, first := Run(entries[0].key), Encode(entries[0].value, depth).value;
            var rest := EncodeEntries(entries[1..], depth).value;
            && |EncodeEntries(entries, depth).value| == |key| + |first| + |rest|
            && at + |key| + |first| <= |bytes|
            && StandsAt(bytes, at, key) && StandsAt(bytes, at + |key|, first)
            && StandsAt(bytes, at + |key| + |first|, rest)
  {
    var key, first := Run(entries[0].key), Encode(entries[0].value, depth).value;
    StandsInTwo(bytes, at, key + first, EncodeEntries(entries[1..], depth).value);
    StandsInTwo(bytes, at, key, first);
  }

  ghost predicate TypedEntries(entries: seq<Entry>)
  {
    forall i :: 0 <= i < |entries| ==> |entries[i].key| < TWO32 && 0 !in entries[i].key && Typed(entries[i].value)
  }

  /** The first entry of a run of them is decoded, and the rest stand after. */
  lemma {:induction false} EntryRoundTrip(m: map<seq<byte>, Object>, entries: seq<Entry>, depth: nat,
                                          bytes: seq<byte>, at: nat)
    requires depth <= MAXIMUM_DEPTH && entries != [] && EncodeEntries(entries, depth).Some? && TypedEntries(entries)
    requires at <= |bytes| && StandsAt(bytes, at, EncodeEntries(entries, depth).value)
    ensures EncodeEntries(entries[1..], depth).Some?
    ensures DecodePart(ODictionary(m), bytes, at, depth).value
         == Some(ODictionary(m[entries[0].key := Meaning(entries[0].value)]))
    ensures var end := DecodePart(ODictionary(m), bytes, at, depth).end;
            var rest := EncodeEntries(entries[1..], depth).value;
            StandsAt(bytes, end, rest) && end + |rest| == at + |EncodeEntries(entries, depth).value|
    decreases entries, 0
  {
    EntriesStand(entries, depth, bytes, at);
    KeyedRoundTrip(m, entries[0].key, entries[0].value, depth, bytes, at);
  }

  /** A key and its value are decoded into the dictionary. */
  lemma {:induction false} KeyedRoundTrip(m: map<seq<byte>, Object>, key: seq<byte>, s: Source, depth: nat,
                                          bytes: seq<byte>, at: nat)
    requires depth <= MAXIMUM_DEPTH && |key| < TWO32 && 0 !in key && Typed(s) && Encode(s, depth).Some?
    requires at + |Run(key)| <= |bytes| && StandsAt(bytes, at, Run(key))
    requires StandsAt(bytes, at + |Run(key)|, Encode(s, depth).value)
    ensures var r := DecodePart(ODictionary(m), bytes, at, depth);
            r.value == Some(ODictionary(m[key := Meaning(s)])) && r.end == at + |Run(key)| + |Encode(s, depth).value|
    decreases s, 2
  {
    var next := at + |Run(key)|;
    RunTaken(key, bytes, at);
    RoundTrip(s, depth, bytes, next);
    KeyedUnfolds(m, key, bytes, at, next, depth);
  }

  lemma KeyedUnfolds(m: map<seq<byte>, Object>, key: seq<byte>, bytes: seq<byte>, at: nat, next: nat, depth: nat)
    requires at <= |bytes| && depth <= MAXIMUM_DEPTH && TakeBytes(bytes, at) == Some(key) && 0 !in key
    requires next == at + 4 + |key| && DecodeValue(bytes, next, depth).value.Some?
    ensures var (v, r) := (DecodeValue(bytes, next, depth), DecodePart(ODictionary(m), bytes, at, depth));
            r.value == Some(ODictionary(m[key := v.value.value])) && r.end == v.end
  {
  }

  lemma {:induction false} RoundTripEntries(m: map<seq<byte>, Object>, entries: seq<Entry>, depth: nat,
                                            bytes: seq<byte>, at: nat)
    requires depth <= MAXIMUM_DEPTH && EncodeEntries(entries, depth).Some? && TypedEntries(entries)
    requires at <= |bytes| && StandsAt(bytes, at, EncodeEntries(entries, depth).value)
    ensures var r := DecodeParts(ODictionary(m), bytes, at, depth, |entries|);
            r.value == Some(ODictionary(Added(m, entries))) && r.end == at + |EncodeEntries(entries, depth).value|
    decreases entries, 1
  {
    if entries != [] {
      EntryRoundTrip(m, entries, depth, bytes, at);
      var end := DecodePart(ODictionary(m), bytes, at, depth).end;
      RoundTripEntries(m[entries[0].key := Meaning(entries[0].value)], entries[1..], depth, bytes, end);
      PartsUnfold(ODictionary(m), bytes, at, depth, |entries|);
    }
  }

  /** A message round-trips, and with anything after it is malformed. */
  lemma MessageRoundTrip(s: Source, suffix: seq<byte>)
    requires Typed(s) && Carried(s, MAXIMUM_DEPTH)
    ensures Encode(s, 0).Some?
    ensures Decode(Encode(s, 0).value + suffix) == if suffix == [] then Some(Meaning(s)) else None
  {
    EncodesWhatIsCarried(s, 0);
    var e := Encode(s, 0).value;
    StandsBetween([], e, suffix);
    assert [] + e + suffix == e + suffix;
    RoundTrip(s, 0, e + suffix, 0);
  }

  /** Two orders of enumerating the same entries mean the same dictionary. */
  lemma {:induction false} MeaningOfEntries(m: map<seq<byte>, Object>, entries: seq<Entry>, key: seq<byte>)
    requires forall i, j :: 0 <= i < j < |entries| ==> entries[i].key != entries[j].key
    ensures var r := Added(m, entries);
            && (forall i :: 0 <= i < |entries| && entries[i].key == key ==>
                  key in r && r[key] == Meaning(entries[i].value))
            && ((forall i :: 0 <= i < |entries| ==> entries[i].key != key) ==>
                (key in r <==> key in m) && (key in m ==> r[key] == m[key]))
    decreases entries
  {
    if entries != [] {
      MeaningOfEntries(m[entries[0].key := Meaning(entries[0].value)], entries[1..], key);
      assert forall i :: 1 <= i < |entries| ==> entries[i] == entries[1..][i - 1];
    }
  }

  lemma OrderDoesNotMatter(first: seq<Entry>, second: seq<Entry>)
    requires multiset(first) == multiset(second)
    requires forall i, j :: 0 <= i < j < |first| ==> first[i].key != first[j].key
    requires forall i, j :: 0 <= i < j < |second| ==> second[i].key != second[j].key
    ensures Meaning(Dictionary(first)) == Meaning(Dictionary(second))
  {
    var a, b := Added(map[], first), Added(map[], second);
    forall key
      ensures key in a ==> key in b && a[key] == b[key]
      ensures key in b ==> key in a
    {
      SameKeyFound(first, second, key);
      SameKeyFound(second, first, key);
    }
    assert a == b;
  }

  lemma SameKeyFound(first: seq<Entry>, second: seq<Entry>, key: seq<byte>)
    requires multiset(first) == multiset(second)
    requires forall i, j :: 0 <= i < j < |first| ==> first[i].key != first[j].key
    requires forall i, j :: 0 <= i < j < |second| ==> second[i].key != second[j].key
    ensures var a, b := Added(map[], first), Added(map[], second);
            key in a ==> key in b && a[key] == b[key]
  {
    MeaningOfEntries(map[], first, key);
    MeaningOfEntries(map[], second, key);
    if i :| 0 <= i < |first| && first[i].key == key {
      assert first[i] in multiset(second);
      var j :| 0 <= j < |second| && second[j] == first[i];
    }
  }

  // ---------------------------------------------------------- The decoder

  /** The decoder's place in the bytes. What a failed read leaves of it is
      never looked at. */
  class Cursor {
    const bytes: seq<byte>
    var offset: nat

    constructor (bytes: seq<byte>)
      ensures this.bytes == bytes && offset == 0
    {
      this.bytes := bytes;
      offset := 0;
    }

    ghost predicate Valid()
      reads this
    {
      offset <= |bytes|
    }

    /** Whether a read came out as `r` says. */
    ghost predicate Is(r: Decoded, value: Option<Object>, built: nat)
      reads this
    {
      value == r.value && built == r.built && (value.Some? ==> offset == r.end)
    }

    method TakeUInt(width: nat) returns (value: Option<nat>)
      requires Valid()
      modifies this
      ensures Valid()
      ensures value == TakeNumber(bytes, old(offset), width)
      ensures offset == old(offset) + if value.Some? then width else 0
    {
      if |bytes| - offset < width {
        return None;
      }
      value := Some(NumberAt(bytes, offset, width));
      offset := offset + width;
    }

    method TakeRun() returns (run: Option<seq<byte>>)
      requires Valid()
      modifies this
      ensures Valid()
      ensures run == TakeBytes(bytes, old(offset))
      ensures run.Some? ==> offset == old(offset) + 4 + |run.value|
    {
      var length := TakeUInt(4);
      if length.None? || length.value > |bytes| - offset {
        return None;
      }
      run := Some(bytes[offset..offset + length.value]);
      offset := offset + length.value;
    }

    method DecodeNext(depth: nat) returns (value: Option<Object>, ghost built: nat)
      requires Valid() && depth <= MAXIMUM_DEPTH
      modifies this
      ensures Valid() && Is(DecodeValue(bytes, old(offset), depth), value, built)
      decreases MAXIMUM_DEPTH - depth, 0
    {
      if depth == MAXIMUM_DEPTH || offset == |bytes| {
        return None, 0;
      }
      var tag := bytes[offset];
      if tag != 6 && tag != 7 {
        value, built := DecodeLeafNext();
        return;
      }
      offset := offset + 1;
      var count := TakeUInt(4);
      if count.None? || count.value > |bytes| - offset {
        return None, 0;
      }
      value, built := DecodePartsNext(Empty(tag), count.value, depth + 1);
      built := 1 + built;
    }

    method DecodeLeafNext() returns (value: Option<Object>, ghost built: nat)
      requires Valid() && offset < |bytes|
      modifies this
      ensures Valid() && Is(DecodeLeaf(bytes, old(offset)), value, built)
    {
      var tag := bytes[offset];
      offset := offset + 1;
      value := None;
      match tag {
        case 1 =>
          var number := TakeUInt(8);
          value := if number.None? then None else Some(OUInt64(number.value));
        case 2 =>
          var number := TakeUInt(8);
          value := if number.None? then None else Some(OInt64(Signed(number.value)));
        case 3 =>
          var flag := TakeUInt(1);
          value := if flag.None? then None else Some(OBoolean(flag.value != 0));
        case 4 =>
          var run := TakeRun();
          value := if run.None? || 0 in run.value then None else Some(OText(run.value));
        case 5 =>
          var run := TakeRun();
          value := if run.None? then None else Some(OData(run.value));
        case _ =>
      }
      built := if value.None? then 0 else 1;
    }

    method DecodePartsNext(container: Object, count: nat, depth: nat) returns (value: Option<Object>, ghost built: nat)
      requires Valid() && IsContainer(container) && depth <= MAXIMUM_DEPTH
      modifies this
      ensures Valid() && Is(DecodeParts(container, bytes, old(offset), depth, count), value, built)
      decreases MAXIMUM_DEPTH - depth, 3
    {
      var c := container;
      built := 0;
      var remaining := count;
      while remaining > 0
        invariant Valid() && IsContainer(c)
        invariant var r := DecodeParts(c, bytes, offset, depth, remaining);
                  DecodeParts(container, bytes, old(offset), depth, count) == r.(built := built + r.built)
      {
        var more, n := DecodePartNext(c, depth);
        built := built + n;
        if more.None? {
          return None, built;
        }
        c := more.value;
        remaining := remaining - 1;
      }
      value := Some(c);
    }

    method DecodePartNext(container: Object, depth: nat) returns (value: Option<Object>, ghost built: nat)
      requires Valid() && IsContainer(container) && depth <= MAXIMUM_DEPTH
      modifies this
      ensures Valid() && Is(DecodePart(container, bytes, old(offset), depth), value, built)
      decreases MAXIMUM_DEPTH - depth, 2
    {
      if container.OArray? {
        value, built := DecodeItemNext(container.items, depth);
      } else {
        value, built := DecodeEntryNext(container.entries, depth);
      }
    }

    method DecodeItemNext(items: seq<Object>, depth: nat) returns (value: Option<Object>, ghost built: nat)
      requires Valid() && depth <= MAXIMUM_DEPTH
      modifies this
      ensures Valid() && Is(DecodePart(OArray(items), bytes, old(offset), depth), value, built)
      decreases MAXIMUM_DEPTH - depth, 1
    {
      var item;
      item, built := DecodeNext(depth);
      value := if item.None? then None else Some(OArray(items + [item.value]));
    }

    method DecodeEntryNext(entries: map<seq<byte>, Object>, depth: nat)
      returns (value: Option<Object>, ghost built: nat)
      requires Valid() && depth <= MAXIMUM_DEPTH
      modifies this
      ensures Valid() && Is(DecodePart(ODictionary(entries), bytes, old(offset), depth), value, built)
      decreases MAXIMUM_DEPTH - depth, 1
    {
      var key := TakeRun();
      if key.None? || 0 in key.value {
        return None, 0;
      }
      var entry;
      entry, built := DecodeNext(depth);
      value := if entry.None? then None else Some(ODictionary(entries[key.value := entry.value]));
    }
  }

  /** One object that takes up all of the bytes, or None. */
  method DecodeMessage(bytes: seq<byte>) returns (result: Option<Object>)
    ensures result == Decode(bytes)
  {
    var cursor := new Cursor(bytes);
    var value, _ := cursor.DecodeNext(0);
    result := if value.Some? && cursor.offset == |bytes| then value else None;
  }
}
