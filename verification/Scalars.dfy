/**
 The two numbers a pairing code stands for. A library that maps any word into
 1 .. q - 1 by a remainder and an increment must be given the word that it
 maps to the number meant: the one below it, in as many bytes as it wants.
 */
module Scalars {
  import opened Bytes
  import opened Wrappers

  const CANDIDATES := 256
  const SCALAR_BYTES := 32

  function Zeros(n: nat): (r: seq<byte>)
    ensures |r| == n
  {
    if n == 0 then [] else Zeros(n - 1) + [0]
  }

  /** One less in one byte, wrapping around. */
  function Wrapped(b: byte): byte
  {
    if b == 0 then 0xFF else b - 1
  }

  /** One less, the borrow carried through trailing zeros, the first byte
      wrapping around. */
  function Less(value: seq<byte>): (r: seq<byte>)
    requires value != []
    ensures |r| == |value|
  {
    var (front, last) := (value[..|value| - 1], value[|value| - 1]);
    if front != [] && last == 0 then Less(front) + [0xFF] else front + [Wrapped(last)]
  }

  method ArrayOf(value: seq<byte>) returns (bytes: array<byte>)
    ensures fresh(bytes) && bytes[..] == value
  {
    bytes := new byte[|value|];
    var i := 0;
    while i < |value|
      invariant i <= |value| && bytes[..i] == value[..i]
    {
      bytes[i] := value[i];
      i := i + 1;
    }
  }

  method MinusOne(value: seq<byte>) returns (r: seq<byte>)
    requires value != []
    ensures r == Less(value)
  {
    var bytes := ArrayOf(value);
    var index := |value| - 1;
    assert value == value[..index + 1] && bytes[index + 1..] == [];
    while index > 0 && bytes[index] == 0
      invariant 0 <= index < |value| && bytes[..index + 1] == value[..index + 1]
      invariant Less(value) == Less(value[..index + 1]) + bytes[index + 1..]
    {
      assert value[..index + 1][..index] == value[..index];
      bytes[index] := 0xFF;
      assert bytes[index..] == [0xFF] + bytes[index + 1..];
      index := index - 1;
    }
    assert value[..index + 1][..index] == value[..index];
    ghost var rest := bytes[index + 1..];
    bytes[index] := Wrapped(bytes[index]);
    assert bytes[..] == value[..index] + [bytes[index]] + rest;
    r := bytes[..];
  }

  /** Subtraction of one, modulo 256 to the number of bytes. */
  lemma {:induction false} LessIsOneLess(value: seq<byte>)
    requires value != []
    ensures BigEndian(Less(value)) == (BigEndian(value) + Power256(|value|) - 1) % Power256(|value|)
  {
    BigEndianIsBounded(value);
    OneLess(value);
    Around(BigEndian(value), Power256(|value|), BigEndian(Less(value)));
  }

  lemma Around(v: nat, p: nat, less: nat)
    requires v < p && less == if v == 0 then p - 1 else v - 1
    ensures less == (v + p - 1) % p
  {
    if v > 0 {
      assert v + p - 1 == p + (v - 1);
    }
  }

  lemma OneMoreThanRemainder(t: nat, w: nat, q: nat)
    requires 1 <= t < q && w == t - 1
    ensures w % (q - 1) + 1 == t
  {
  }

  lemma {:induction false} OneLess(value: seq<byte>)
    requires value != []
    ensures BigEndian(Less(value)) == if BigEndian(value) == 0 then Power256(|value|) - 1 else BigEndian(value) - 1
  {
    var (front, last) := (value[..|value| - 1], value[|value| - 1]);
    if front != [] && last == 0 {
      OneLess(front);
      BigEndianOfOneMore(Less(front), 0xFF);
    } else {
      BigEndianOfOneMore(front, Wrapped(last));
      if front == [] {
        assert BigEndian(front) == 0 && Power256(1) == 0x100 * Power256(0);
      }
    }
  }

  lemma {:induction false} ZerosAreNothing(n: nat)
    ensures BigEndian(Zeros(n)) == 0
  {
    if n > 0 {
      ZerosAreNothing(n - 1);
      BigEndianOfOneMore(Zeros(n - 1), 0);
    }
  }

  lemma {:induction false} PaddingIsNothing(n: nat, bytes: seq<byte>)
    ensures BigEndian(Zeros(n) + bytes) == BigEndian(bytes)
    decreases |bytes|
  {
    if bytes == [] {
      ZerosAreNothing(n);
      assert Zeros(n) + bytes == Zeros(n);
    } else {
      var (front, last) := (bytes[..|bytes| - 1], bytes[|bytes| - 1]);
      PaddingIsNothing(n, front);
      BigEndianOfOneMore(Zeros(n) + front, last);
      BigEndianOfOneMore(front, last);
      assert Zeros(n) + bytes == Zeros(n) + front + [last] && bytes == front + [last];
    }
  }

  /** What the library makes of a word, for a curve of order q. */
  function LibraryScalar(w: seq<byte>, q: nat): nat
    requires q >= 2
  {
    BigEndian(w) % (q - 1) + 1
  }

  /** However wide the word and whatever the order, the library uses the very
      scalar that was handed over. */
  lemma LibraryUsesTheScalar(t: seq<byte>, padding: nat, q: nat)
    requires t != [] && q >= 2 && 1 <= BigEndian(t) < q
    ensures LibraryScalar(Zeros(padding) + Less(t), q) == BigEndian(t)
  {
    OneLess(t);
    PaddingIsNothing(padding, Less(t));
    OneMoreThanRemainder(BigEndian(t), BigEndian(Zeros(padding) + Less(t)), q);
  }

  predicate IsScalar(raw: seq<byte>, q: nat)
  {
    1 <= BigEndian(raw) < q
  }

  /** The first of the candidates that is a scalar, handed over in a word of
      so many bytes; nothing when none is. */
  method Derive(candidates: seq<seq<byte>>, wordByteCount: nat, q: nat) returns (word: Option<seq<byte>>, chosen: nat)
    requires |candidates| == CANDIDATES && forall i :: 0 <= i < CANDIDATES ==> |candidates[i]| == SCALAR_BYTES
    requires q >= 2
    ensures word.None? <==> forall i :: 0 <= i < CANDIDATES ==> !IsScalar(candidates[i], q)
    ensures word.Some? ==>
      && chosen < CANDIDATES && IsScalar(candidates[chosen], q)
      && (forall i :: 0 <= i < chosen ==> !IsScalar(candidates[i], q))
      && |word.value| == (if wordByteCount > SCALAR_BYTES then wordByteCount else SCALAR_BYTES)
      && LibraryScalar(word.value, q) == BigEndian(candidates[chosen])
  {
    chosen := 0;
    while chosen < CANDIDATES
      invariant chosen <= CANDIDATES && forall i :: 0 <= i < chosen ==> !IsScalar(candidates[i], q)
    {
      var raw := candidates[chosen];
      if IsScalar(raw, q) {
        var padding := if wordByteCount > SCALAR_BYTES then wordByteCount - SCALAR_BYTES else 0;
        var less := MinusOne(raw);
        LibraryUsesTheScalar(raw, padding, q);
        return Some(Zeros(padding) + less), chosen;
      }
      chosen := chosen + 1;
    }
    word := None;
  }
}
