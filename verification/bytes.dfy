// Bytes, fixed-width counters and little-endian fields as the wire carries them.
module Bytes {

  datatype Option<T> = None | Some(value: T)

  type Byte = b: int | 0 <= b < 256

  const TWO_TO_16 := 0x1_0000
  const TWO_TO_32 := 0x1_0000_0000

  type U16 = v: int | 0 <= v < 0x1_0000

  type U32 = v: int | 0 <= v < 0x1_0000_0000

  // uint32_t addition and increment wrap; the wrap is part of every definition that uses them.
  function Add32(a: U32, b: U32): U32 {
    (a + b) % TWO_TO_32
  }

  function Inc32(a: U32): U32 {
    Add32(a, 1)
  }

  function Sub32(a: U32, b: U32): U32 {
    (a - b) % TWO_TO_32
  }

  function Advance32(a: U32, n: nat): U32 {
    (a + n) % TWO_TO_32
  }

  function Min(a: int, b: int): int {
    if a < b then a else b
  }

  function Max(a: int, b: int): int {
    if a < b then b else a
  }

  // Little-endian fields: low byte first.
  function PutU16(v: U16): (s: seq<Byte>)
    ensures |s| == 2 && GetU16(s) == v
  {
    [v % 256, v / 256]
  }

  function GetU16(s: seq<Byte>): U16
    requires |s| >= 2
  {
    (s[0] as int) + 256 * (s[1] as int)
  }

  function PutU32(v: U32): (s: seq<Byte>)
    ensures |s| == 4 && GetU32(s) == v
  {
    PutU16(v % TWO_TO_16) + PutU16(v / TWO_TO_16)
  }

  function GetU32(s: seq<Byte>): U32
    requires |s| >= 4
  {
    GetU16(s) + TWO_TO_16 * GetU16(s[2..])
  }

  // Bit i of a natural number, least significant bit first.
  predicate Bit(v: nat, i: nat)
    decreases i
  {
    if i == 0 then v % 2 == 1 else Bit(v / 2, i - 1)
  }

  function Pow2(p: nat): (r: nat)
    ensures r >= 1
  {
    if p == 0 then 1 else 2 * Pow2(p - 1)
  }

  // (1 << p) - 1 has exactly its p lowest bits set.
  lemma {:induction false} LowOnes(p: nat, i: nat)
    ensures Bit(Pow2(p) - 1, i) <==> i < p
    decreases i
  {
    if p == 0 {
      NoBits(i);
    } else if i > 0 {
      LowOnes(p - 1, i - 1);
      assert (Pow2(p) - 1) / 2 == Pow2(p - 1) - 1;
    }
  }

  lemma {:induction false} NoBits(i: nat)
    ensures !Bit(0, i)
    decreases i
  {
    if i == 0 {
    } else {
      NoBits(i - 1);
    }
  }

  lemma {:induction false} Pow2Small(p: nat)
    requires p < 32
    ensures Pow2(p) <= 0x8000_0000
    decreases 31 - p
  {
    if p == 31 {
      Pow2At31();
    } else {
      Pow2Small(p + 1);
    }
  }

  lemma Pow2At31()
    ensures Pow2(31) == 0x8000_0000 && Pow2(32) == TWO_TO_32
  {
    assert Pow2(8) == 256;
    assert Pow2(16) == 0x1_0000;
    assert Pow2(24) == 0x100_0000;
  }

  // Congruent numbers less than 256 apart are equal: the arithmetic behind 8-bit sequence numbers.
  lemma SameModulo256(a: int, b: int)
    requires -256 < a - b < 256 && a % 256 == b % 256
    ensures a == b
  {
  }

  ghost function Concat(parts: seq<seq<Byte>>): (s: seq<Byte>) {
    if parts == [] then [] else Concat(parts[..|parts| - 1]) + parts[|parts| - 1]
  }

  lemma {:induction false} ConcatPrefix(parts: seq<seq<Byte>>, n: nat)
    requires n <= |parts|
    ensures Concat(parts[..n]) <= Concat(parts)
    decreases |parts|
  {
    if n < |parts| {
      ConcatPrefix(parts[..|parts| - 1], n);
      assert parts[..|parts| - 1][..n] == parts[..n];
    } else {
      assert parts[..n] == parts;
    }
  }
}
