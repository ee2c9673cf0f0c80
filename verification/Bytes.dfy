/** Bytes, and integers in them, least or most significant first. */
module Bytes {

  type byte = b: int | 0 <= b < 0x100

  /** The low `width` bytes of `value`, least significant first. */
  function LittleEndian(value: nat, width: nat): (bytes: seq<byte>)
    ensures |bytes| == width
  {
    if width == 0 then [] else [value % 0x100] + LittleEndian(value / 0x100, width - 1)
  }

  /** The number `width` bytes from `at` on spell, least significant first. */
  function NumberAt(bytes: seq<byte>, at: nat, width: nat): (value: nat)
    requires at + width <= |bytes|
    decreases |bytes| - at
  {
    if width == 0 then 0 else bytes[at] + 0x100 * NumberAt(bytes, at + 1, width - 1)
  }

  function Power256(n: nat): (p: nat)
    ensures p > 0
  {
    if n == 0 then 1 else 0x100 * Power256(n - 1)
  }

  lemma Power256Values()
    ensures Power256(4) == 0x1_0000_0000
    ensures Power256(8) == 0x1_0000_0000_0000_0000
  {
    assert Power256(4) == 0x100 * Power256(3) == 0x10000 * Power256(2) == 0x1000000 * Power256(1) == 0x1_0000_0000;
    assert Power256(8) == 0x100 * Power256(7) == 0x10000 * Power256(6) == 0x1000000 * Power256(5);
    assert Power256(5) == 0x100 * Power256(4);
  }

  /** The number `bytes` spell, most significant first. */
  function BigEndian(bytes: seq<byte>): (value: nat)
  {
    if bytes == [] then 0 else 0x100 * BigEndian(bytes[..|bytes| - 1]) + bytes[|bytes| - 1]
  }

  /** The low `width` bytes of `value`, most significant first. */
  function MostFirst(value: nat, width: nat): (bytes: seq<byte>)
    ensures |bytes| == width
  {
    if width == 0 then [] else MostFirst(value / 0x100, width - 1) + [value % 0x100]
  }

  lemma BigEndianOfOneMore(bytes: seq<byte>, b: byte)
    ensures BigEndian(bytes + [b]) == 0x100 * BigEndian(bytes) + b
  {
    assert (bytes + [b])[..|bytes|] == bytes;
  }

  lemma {:induction false} BigEndianIsBounded(bytes: seq<byte>)
    ensures BigEndian(bytes) < Power256(|bytes|)
  {
    if bytes != [] {
      BigEndianIsBounded(bytes[..|bytes| - 1]);
    }
  }

  lemma {:induction false} BigEndianOfMostFirst(value: nat, width: nat)
    requires value < Power256(width)
    ensures BigEndian(MostFirst(value, width)) == value
  {
    if width > 0 {
      BigEndianOfMostFirst(value / 0x100, width - 1);
      BigEndianOfOneMore(MostFirst(value / 0x100, width - 1), value % 0x100);
    }
  }

  /** `part` stands in `bytes` from `at` on. */
  ghost predicate StandsAt<T>(bytes: seq<T>, at: nat, part: seq<T>)
  {
    at + |part| <= |bytes| && bytes[at..at + |part|] == part
  }

  lemma StandsInTwo<T>(bytes: seq<T>, at: nat, first: seq<T>, second: seq<T>)
    requires StandsAt(bytes, at, first + second)
    ensures StandsAt(bytes, at, first) && StandsAt(bytes, at + |first|, second)
  {
    var slice := bytes[at..at + |first + second|];
    assert bytes[at..at + |first|] == slice[..|first|] == first;
    assert bytes[at + |first|..at + |first| + |second|] == slice[|first|..] == second;
  }

  lemma StandsBetween<T>(before: seq<T>, part: seq<T>, after: seq<T>)
    ensures StandsAt(before + part + after, |before|, part)
  {
  }

  /** A number read where its bytes stand. */
  lemma {:induction false} NumberOfLittleEndian(bytes: seq<byte>, at: nat, value: nat, width: nat)
    requires at + width <= |bytes| && value < Power256(width) && StandsAt(bytes, at, LittleEndian(value, width))
    ensures NumberAt(bytes, at, width) == value
    decreases width
  {
    if width > 0 {
      var part := LittleEndian(value, width);
      assert part[0] == value % 0x100 && part[1..] == LittleEndian(value / 0x100, width - 1);
      assert part == [part[0]] + part[1..];
      StandsInTwo(bytes, at, [part[0]], part[1..]);
      NumberOfLittleEndian(bytes, at + 1, value / 0x100, width - 1);
    }
  }

  lemma AppendAssociates<T>(a: seq<T>, b: seq<T>, c: seq<T>)
    ensures (a + b) + c == a + (b + c)
  {
  }

  lemma DropDropped<T>(a: seq<T>, m: nat, n: nat)
    requires m + n <= |a|
    ensures a[m..][n..] == a[m + n..]
  {
  }
}
