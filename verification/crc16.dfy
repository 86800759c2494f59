// CRC-16/CCITT-FALSE: the shift-register loop, the polynomial remainder it computes,
// and the errors it cannot miss.
module Crc16 {
  import opened Bytes

  const POLYNOMIAL := 0x1021
  const INITIAL := 0xFFFF

  // Bitwise exclusive or of two unsigned words.
  function Xor(a: nat, b: nat): nat {
    if a == 0 && b == 0 then 0
    else 2 * Xor(a / 2, b / 2) + (if a % 2 != b % 2 then 1 else 0)
  }

  lemma {:induction false} XorBound(a: nat, b: nat, k: nat)
    requires a < Pow2(k) && b < Pow2(k)
    ensures Xor(a, b) < Pow2(k)
    decreases k
  {
    if k > 0 && (a != 0 || b != 0) {
      XorBound(a / 2, b / 2, k - 1);
    }
  }

  lemma Pow2At16()
    ensures Pow2(8) == 0x100 && Pow2(15) == 0x8000 && Pow2(16) == TWO_TO_16
  {
    assert Pow2(4) == 16;
    assert Pow2(8) == 256;
    assert Pow2(12) == 4096;
  }

  function Xor16(a: U16, b: U16): U16 {
    Pow2At16();
    XorBound(a, b, 16);
    Xor(a, b)
  }

  function Shift(c: U16): U16 {
    if c >= 0x8000 then Xor16((2 * c) % TWO_TO_16, POLYNOMIAL) else (2 * c) % TWO_TO_16
  }

  function Shifts(c: U16, k: nat): U16 {
    if k == 0 then c else Shift(Shifts(c, k - 1))
  }

  function FeedByte(c: U16, d: Byte): U16 {
    Shifts(Xor16(c, 256 * (d as int)), 8)
  }

  function FeedBytes(c: U16, data: seq<Byte>): U16 {
    if data == [] then c else FeedByte(FeedBytes(c, data[..|data| - 1]), data[|data| - 1])
  }

  function Crc(data: seq<Byte>): U16 {
    FeedBytes(INITIAL, data)
  }

  method ComputeCrc(data: seq<Byte>) returns (crc: U16)
    ensures crc == Crc(data)
  {
    hide Xor;
    crc := INITIAL;
    for i := 0 to |data|
      invariant crc == FeedBytes(INITIAL, data[..i])
    {
      crc := Xor16(crc, 256 * (data[i] as int));
      ghost var before := crc;
      for b := 0 to 8
        invariant crc == Shifts(before, b)
      {
        crc := if crc >= 0x8000 then Xor16((2 * crc) % TWO_TO_16, POLYNOMIAL) else (2 * crc) % TWO_TO_16;
      }
      assert data[..i + 1][..i] == data[..i];
    }
    assert data[..|data|] == data;
  }

  // --- Polynomials over GF(2) ---------------------------------------------------

  // A polynomial is its coefficients, highest power first; addition is exclusive or.
  type Poly = seq<bool>

  function Add(a: Poly, b: Poly): (s: Poly)
    requires |a| == |b|
    ensures |s| == |a|
  {
    seq(|a|, i requires 0 <= i < |a| => a[i] != b[i])
  }

  function Zeros(n: nat): (s: Poly)
    ensures |s| == n
  {
    seq(n, _ => false)
  }

  // x^16 + x^12 + x^5 + 1
  function Generator(): (g: Poly)
    ensures |g| == 17
  {
    [true, false, false, false, true, false, false, false, false,
     false, false, true, false, false, false, false, true]
  }

  function Scale(b: bool, p: Poly): (s: Poly)
    ensures |s| == |p|
  {
    if b then p else Zeros(|p|)
  }

  // The product of q with the generator.
  function TimesGenerator(q: Poly): (p: Poly)
    ensures |p| == |q| + 16
  {
    if q == [] then Zeros(16)
    else Add(Scale(q[0], Generator() + Zeros(|q| - 1)), [false] + TimesGenerator(q[1..]))
  }

  // The number whose binary digits are the coefficients, and back.
  function Value(p: Poly): nat {
    if p == [] then 0 else 2 * Value(p[..|p| - 1]) + (if p[|p| - 1] then 1 else 0)
  }

  function Digits(v: nat, n: nat): (p: Poly)
    ensures |p| == n
  {
    if n == 0 then [] else Digits(v / 2, n - 1) + [v % 2 == 1]
  }

  lemma {:induction false} ValueOfDigits(v: nat, n: nat)
    requires v < Pow2(n)
    ensures Value(Digits(v, n)) == v
    decreases n
  {
    if n == 0 {
    } else {
      ValueOfDigits(v / 2, n - 1);
    }
  }

  lemma {:induction false} DigitsOfValue(p: Poly)
    ensures Digits(Value(p), |p|) == p && Value(p) < Pow2(|p|)
    decreases |p|
  {
    if p == [] {
    } else {
      DigitsOfValue(p[..|p| - 1]);
    }
  }

  lemma {:induction false} XorOfValues(a: Poly, b: Poly)
    requires |a| == |b|
    ensures Xor(Value(a), Value(b)) == Value(Add(a, b))
    decreases |a|
  {
    hide Xor, Value, Add;
    if a == [] {
      NothingXored(a, b);
    } else {
      var n := |a| - 1;
      XorOfValues(a[..n], b[..n]);
      LastDigit(a);
      LastDigit(b);
      LastOfSum(a, b);
      LastDigit(Add(a, b));
      XorDigit(Value(a[..n]), Value(b[..n]), a[n], b[n]);
    }
  }

  lemma NothingXored(a: Poly, b: Poly)
    requires a == b == []
    ensures Xor(Value(a), Value(b)) == Value(Add(a, b))
  {
    assert Xor(0, 0) == 0;
  }

  lemma LastDigit(p: Poly)
    requires p != []
    ensures Value(p) == 2 * Value(p[..|p| - 1]) + (if p[|p| - 1] then 1 else 0)
  {
  }

  lemma LastOfSum(a: Poly, b: Poly)
    requires |a| == |b| > 0
    ensures Add(a, b)[..|a| - 1] == Add(a[..|a| - 1], b[..|a| - 1])
    ensures Add(a, b)[|a| - 1] == (a[|a| - 1] != b[|a| - 1])
  {
  }

  lemma XorDigit(a: nat, b: nat, x: bool, y: bool)
    ensures Xor(2 * a + (if x then 1 else 0), 2 * b + (if y then 1 else 0)) == 2 * Xor(a, b) + (if x != y then 1 else 0)
  {
  }

  lemma {:induction false} LeadingCoefficient(p: Poly)
    requires p != []
    ensures Value(p) == (if p[0] then Pow2(|p| - 1) else 0) + Value(p[1..])
    decreases |p|
  {
    var n := |p| - 1;
    if n == 0 {
    } else {
      LeadingCoefficient(p[..n]);
      assert p[1..][..n - 1] == p[..n][1..];
    }
  }

  lemma {:induction false} ValueShifted(p: Poly, n: nat)
    ensures Value(p + Zeros(n)) == Value(p) * Pow2(n)
    decreases n
  {
    if n == 0 {
      assert p + Zeros(0) == p;
    } else {
      ValueShifted(p, n - 1);
      var q := p + Zeros(n);
      assert q[..|q| - 1] == p + Zeros(n - 1) && !q[|q| - 1];
      LastDigit(q);
      hide Value, Zeros;
      assert 2 * (Value(p) * Pow2(n - 1)) == Value(p) * (2 * Pow2(n - 1));
    }
  }

  // --- The register as a polynomial ------------------------------------------------

  // Multiply by x and reduce by the generator.
  function ShiftPoly(r: Poly): (s: Poly)
    requires |r| == 16
    ensures |s| == 16
  {
    Add(r[1..] + [false], Scale(r[0], Generator()[1..]))
  }

  function FeedBit(r: Poly, b: bool): (s: Poly)
    requires |r| == 16
    ensures |s| == 16
  {
    ShiftPoly([r[0] != b] + r[1..])
  }

  function FeedBits(r: Poly, bits: seq<bool>): (s: Poly)
    requires |r| == 16
    ensures |s| == 16
    decreases |bits|
  {
    if bits == [] then r else FeedBits(FeedBit(r, bits[0]), bits[1..])
  }

  // Bytes go through the register most significant bit first.
  function Bits(data: seq<Byte>): (bits: seq<bool>)
    ensures |bits| == 8 * |data|
  {
    if data == [] then [] else Bits(data[..|data| - 1]) + Digits(data[|data| - 1], 8)
  }

  lemma DropLeading(p: Poly)
    requires p != []
    ensures Value(p[1..] + [false]) == 2 * Value(p[1..])
    ensures Value(p) == (if p[0] then Pow2(|p| - 1) else 0) + Value(p[1..])
    ensures Value(p[1..]) < Pow2(|p| - 1)
  {
    LeadingCoefficient(p);
    DigitsOfValue(p[1..]);
    assert (p[1..] + [false])[..|p| - 1] == p[1..];
  }

  lemma ShiftCases(c: U16, leading: bool, low: nat)
    requires low < 0x8000 && c == (if leading then 0x8000 else 0) + low
    ensures Shift(c) == if leading then Xor(2 * low, POLYNOMIAL) else 2 * low
  {
    assert (2 * c) % TWO_TO_16 == 2 * low;
  }

  lemma ShiftOfParts(c: U16, leading: bool, low: nat, tail: Poly, doubled: Poly)
    requires low < 0x8000 && c == (if leading then 0x8000 else 0) + low
    requires |tail| == |doubled| && Value(doubled) == 2 * low && Value(tail) == POLYNOMIAL
    ensures Shift(c) == Value(if leading then Add(doubled, tail) else doubled)
  {
    ShiftCases(c, leading, low);
    XorOfValues(doubled, tail);
  }

  lemma ShiftWith(r: Poly, tail: Poly, s: Poly)
    requires |r| == |tail| == 16 && Value(tail) == POLYNOMIAL
    requires s == if r[0] then Add(r[1..] + [false], tail) else r[1..] + [false]
    ensures Value(r) < TWO_TO_16 && Shift(Value(r)) == Value(s)
  {
    DropLeading16(r);
    ShiftOfParts(Value(r), r[0], Value(r[1..]), tail, r[1..] + [false]);
  }

  lemma DropLeading16(r: Poly)
    requires |r| == 16
    ensures Value(r) == (if r[0] then 0x8000 else 0) + Value(r[1..]) && Value(r[1..]) < 0x8000
    ensures Value(r[1..] + [false]) == 2 * Value(r[1..])
  {
    Pow2At16();
    DropLeading(r);
  }

  lemma ShiftPolyCases(r: Poly)
    requires |r| == 16
    ensures ShiftPoly(r) == if r[0] then Add(r[1..] + [false], Generator()[1..]) else r[1..] + [false]
  {
  }

  lemma ShiftOfValue(r: Poly)
    requires |r| == 16
    ensures Value(r) < TWO_TO_16 && Shift(Value(r)) == Value(ShiftPoly(r))
  {
    GeneratorValue();
    ShiftPolyCases(r);
    ShiftWith(r, Generator()[1..], ShiftPoly(r));
  }

  lemma GeneratorValue()
    ensures Value(Generator()[1..]) == POLYNOMIAL
  {
    var g := Generator()[1..];
    assert g[..12] == g[..11] + [false];
    assert g[..4] == [false, false, false, true];
    assert Value(g[..4]) == 1 by {
      assert g[..4][..3] == Zeros(3);
      ValueShifted([], 3);
      assert [] + Zeros(3) == Zeros(3);
    }
    assert g[..10] == g[..4] + Zeros(6);
    ValueShifted(g[..4], 6);
    assert Pow2(6) == 64;
    assert g[..11] == g[..10] + [true];
    assert g[..11][..10] == g[..10];
    assert Value(g[..11]) == 129;
    assert g[..15] == g[..11] + Zeros(4);
    ValueShifted(g[..11], 4);
    assert Pow2(4) == 16;
    assert Value(g[..15]) == 2064;
    assert g[..15] + [true] == g;
  }

  lemma {:induction false} ShiftsOfValue(r: Poly, k: nat)
    requires |r| == 16
    ensures Value(r) < TWO_TO_16 && Shifts(Value(r), k) == Value(FeedBits(r, Zeros(k)))
    decreases k
  {
    ShiftOfValue(r);
    if k == 0 {
    } else {
      ShiftsOfValue(r, k - 1);
      ShiftOfValue(FeedBits(r, Zeros(k - 1)));
      FeedConcat(r, Zeros(k - 1), [false]);
      assert Zeros(k) == Zeros(k - 1) + [false];
      var s := FeedBits(r, Zeros(k - 1));
      assert [s[0] != false] + s[1..] == s;
      assert FeedBits(s, [false]) == FeedBit(s, false);
    }
  }

  lemma {:induction false} FeedConcat(r: Poly, a: seq<bool>, b: seq<bool>)
    requires |r| == 16
    ensures FeedBits(r, a + b) == FeedBits(FeedBits(r, a), b)
    decreases |a|
  {
    if a == [] {
      assert a + b == b;
    } else {
      assert (a + b)[1..] == a[1..] + b;
      FeedConcat(FeedBit(r, a[0]), a[1..], b);
    }
  }

  // A bit waiting in the register has the effect of the same bit fed later.
  lemma {:induction false} PreloadedBits(r: Poly, bits: seq<bool>)
    requires |r| == 16 && |bits| <= 16
    ensures FeedBits(Add(r, bits + Zeros(16 - |bits|)), Zeros(|bits|)) == FeedBits(r, bits)
    decreases |bits|
  {
    var loaded := Add(r, bits + Zeros(16 - |bits|));
    if bits == [] {
      assert loaded == r;
    } else {
      var rest := bits[1..];
      assert FeedBit(loaded, false) == Add(FeedBit(r, bits[0]), rest + Zeros(16 - |rest|));
      assert Zeros(|bits|)[1..] == Zeros(|rest|);
      PreloadedBits(FeedBit(r, bits[0]), rest);
    }
  }

  // The byte loop and the bit-serial register agree on messages of every length.
  lemma {:induction false} BytesAreBits(r: Poly, data: seq<Byte>)
    requires |r| == 16
    ensures Value(r) < TWO_TO_16 && FeedBytes(Value(r), data) == Value(FeedBits(r, Bits(data)))
    decreases |data|
  {
    Pow2At16();
    DigitsOfValue(r);
    if data == [] {
    } else {
      var init, last := data[..|data| - 1], data[|data| - 1];
      BytesAreBits(r, init);
      ByteIsBits(FeedBits(r, Bits(init)), last);
      FeedConcat(r, Bits(init), Digits(last, 8));
    }
  }

  lemma ByteIsBits(s: Poly, b: Byte)
    requires |s| == 16 && Value(s) < TWO_TO_16
    ensures FeedByte(Value(s), b) == Value(FeedBits(s, Digits(b, 8)))
  {
    var d := Digits(b, 8);
    ByteLoaded(s, b);
    ShiftsOfValue(Add(s, d + Zeros(8)), 8);
    PreloadedBits(s, d);
  }

  lemma ByteLoaded(s: Poly, b: Byte)
    requires |s| == 16 && Value(s) < TWO_TO_16
    ensures Xor16(Value(s), 256 * (b as int)) == Value(Add(s, Digits(b, 8) + Zeros(8)))
  {
    hide Value, Digits, Xor, Add, Pow2;
    Pow2At16();
    ValueOfDigits(b, 8);
    ValueShifted(Digits(b, 8), 8);
    XorOfValues(s, Digits(b, 8) + Zeros(8));
  }

  function Ones(): (p: Poly)
    ensures |p| == 16
  {
    seq(16, _ => true)
  }

  lemma OnesValue()
    ensures Value(Ones()) == INITIAL
  {
    Pow2At16();
    LowOnesDigits(16);
    assert Ones() == Digits(0xFFFF, 16);
    ValueOfDigits(0xFFFF, 16);
  }

  lemma {:induction false} LowOnesDigits(n: nat)
    ensures Digits(Pow2(n) - 1, n) == seq(n, _ => true)
  {
    if n == 0 {
    } else {
      LowOnesDigits(n - 1);
      assert (Pow2(n) - 1) / 2 == Pow2(n - 1) - 1;
    }
  }

  // The loop's result is the bit-serial register started from all ones.
  lemma CrcIsRegister(data: seq<Byte>)
    ensures Crc(data) == Value(FeedBits(Ones(), Bits(data)))
    ensures Digits(Crc(data), 16) == FeedBits(Ones(), Bits(data))
  {
    OnesValue();
    BytesAreBits(Ones(), data);
    DigitsOfValue(FeedBits(Ones(), Bits(data)));
  }

  // --- The register ends as a remainder ------------------------------------------------

  // message * x^16 with the register's initial value added to its 16 leading coefficients.
  function Dividend(r: Poly, bits: seq<bool>): (p: Poly)
    requires |r| == 16
    ensures |p| == |bits| + 16
  {
    Add(bits + Zeros(16), r + Zeros(|bits|))
  }

  function Quotient(r: Poly, bits: seq<bool>): (q: Poly)
    requires |r| == 16
    ensures |q| == |bits|
    decreases |bits|
  {
    if bits == [] then [] else [bits[0] != r[0]] + Quotient(FeedBit(r, bits[0]), bits[1..])
  }

  lemma DivisionStep(r: Poly, bits: seq<bool>)
    requires |r| == 16 && bits != []
    ensures Dividend(r, bits) == Add(Scale(bits[0] != r[0], Generator() + Zeros(|bits| - 1)),
                                     [false] + Dividend(FeedBit(r, bits[0]), bits[1..]))
  {
    var t := bits[0] != r[0];
    var next := FeedBit(r, bits[0]);
    assert forall j | 1 <= j <= 16 :: next[j - 1] == ((if j < 16 then r[j] else false) != (t && Generator()[j]));
    var lhs := Dividend(r, bits);
    var rest := Dividend(next, bits[1..]);
    var rhs := Add(Scale(t, Generator() + Zeros(|bits| - 1)), [false] + rest);
    forall j | 0 <= j < |lhs|
      ensures lhs[j] == rhs[j]
    {
      if 1 <= j {
        assert rest[j - 1] == ((bits + Zeros(16))[j] != (next + Zeros(|bits| - 1))[j - 1]);
      }
    }
  }

  lemma AddRegroup(s: Poly, m: Poly, r: Poly)
    requires |s| == |m| + 1 && |m| == |r|
    ensures Add(s, [false] + Add(m, r)) == Add(Add(s, [false] + m), [false] + r)
  {
  }

  // With an explicit quotient.
  lemma {:induction false} RegisterIsRemainder(r: Poly, bits: seq<bool>)
    requires |r| == 16
    ensures Dividend(r, bits) == Add(TimesGenerator(Quotient(r, bits)), Zeros(|bits|) + FeedBits(r, bits))
    decreases |bits|
  {
    if bits == [] {
      assert Dividend(r, bits) == r;
      assert Zeros(0) + r == r;
    } else {
      var next, rest := FeedBit(r, bits[0]), bits[1..];
      DivisionStep(r, bits);
      RegisterIsRemainder(next, rest);
      OneMoreTerm(bits[0] != r[0], Quotient(next, rest), FeedBits(next, rest));
    }
  }

  // One more coefficient in front of the quotient.
  lemma OneMoreTerm(t: bool, q: Poly, remainder: Poly)
    requires |remainder| == 16
    ensures Add(Scale(t, Generator() + Zeros(|q|)), [false] + Add(TimesGenerator(q), Zeros(|q|) + remainder))
         == Add(TimesGenerator([t] + q), Zeros(|q| + 1) + remainder)
  {
    AddRegroup(Scale(t, Generator() + Zeros(|q|)), TimesGenerator(q), Zeros(|q|) + remainder);
    TimesGeneratorCons(t, q);
    ZerosCons(|q|, remainder);
  }

  lemma TimesGeneratorCons(t: bool, q: Poly)
    ensures TimesGenerator([t] + q) == Add(Scale(t, Generator() + Zeros(|q|)), [false] + TimesGenerator(q))
  {
    assert ([t] + q)[1..] == q;
  }

  lemma ZerosCons(n: nat, p: Poly)
    ensures [false] + (Zeros(n) + p) == Zeros(n + 1) + p
  {
  }

  // Quotient and remainder of degree below 16 are unique.
  lemma {:induction false} RemainderUnique(q: Poly, q': Poly, r: Poly, r': Poly)
    requires |q| == |q'| && |r| == |r'| == 16
    requires Add(TimesGenerator(q), Zeros(|q|) + r) == Add(TimesGenerator(q'), Zeros(|q|) + r')
    ensures q == q' && r == r'
    decreases |q|
  {
    if q == [] {
      SameRemainder(r, r');
    } else {
      SamePeel(q, q', r, r');
      RemainderUnique(q[1..], q'[1..], r, r');
      assert q == [q[0]] + q[1..] && q' == [q'[0]] + q'[1..];
    }
  }

  lemma SameRemainder(r: Poly, r': Poly)
    requires |r| == |r'| == 16 && Add(Zeros(16), Zeros(0) + r) == Add(Zeros(16), Zeros(0) + r')
    ensures r == r'
  {
    forall i | 0 <= i < 16
      ensures r[i] == r'[i]
    {
      assert Add(Zeros(16), Zeros(0) + r)[i] == r[i] && Add(Zeros(16), Zeros(0) + r')[i] == r'[i];
    }
  }

  lemma SamePeel(q: Poly, q': Poly, r: Poly, r': Poly)
    requires |q| == |q'| && q != [] && |r| == |r'| == 16
    requires Add(TimesGenerator(q), Zeros(|q|) + r) == Add(TimesGenerator(q'), Zeros(|q|) + r')
    ensures q[0] == q'[0]
    ensures Add(TimesGenerator(q[1..]), Zeros(|q| - 1) + r) == Add(TimesGenerator(q'[1..]), Zeros(|q| - 1) + r')
  {
    PeelDividend(q, r);
    PeelDividend(q', r');
    var d := Add(TimesGenerator(q), Zeros(|q|) + r);
    assert q[0] == d[0] == q'[0];
    var a := Add(TimesGenerator(q[1..]), Zeros(|q| - 1) + r);
    var b := Add(TimesGenerator(q'[1..]), Zeros(|q| - 1) + r');
    forall i | 0 <= i < |a|
      ensures a[i] == b[i]
    {
      assert d[i + 1] == (Scale(q[0], Generator() + Zeros(|q| - 1))[i + 1] != a[i]);
    }
  }

  // Taking the leading coefficient of the quotient off a dividend.
  lemma PeelDividend(q: Poly, r: Poly)
    requires q != [] && |r| == 16
    ensures var d, rest := Add(TimesGenerator(q), Zeros(|q|) + r), Add(TimesGenerator(q[1..]), Zeros(|q| - 1) + r);
            && d[0] == q[0]
            && forall i | 0 <= i < |rest| :: d[i + 1] == (Scale(q[0], Generator() + Zeros(|q| - 1))[i + 1] != rest[i])
  {
  }

  // The CRC of a byte string is the one polynomial of degree below 16 that leaves a multiple
  // of the generator when added to the (initialised) message times x^16.
  lemma CrcIsRemainder(data: seq<Byte>, r: Poly)
    requires |r| == 16
    ensures (exists q: Poly :: |q| == 8 * |data|
               && Dividend(Ones(), Bits(data)) == Add(TimesGenerator(q), Zeros(|q|) + r))
       <==> Value(r) == Crc(data)
  {
    var bits := Bits(data);
    var q0, r0 := Quotient(Ones(), bits), FeedBits(Ones(), bits);
    RegisterIsRemainder(Ones(), bits);
    CrcIsRegister(data);
    DigitsOfValue(r);
    if q: Poly :| |q| == 8 * |data| && Dividend(Ones(), bits) == Add(TimesGenerator(q), Zeros(|q|) + r) {
      RemainderUnique(q, q0, r, r0);
    }
  }

  // --- What a changed message cannot hide ----------------------------------------

  // The register can be run backwards: its last coefficient tells whether the generator was added.
  function Unshift(s: Poly): (r: Poly)
    requires |s| == 16
    ensures |r| == 16
  {
    [s[15]] + Add(s, Scale(s[15], Generator()[1..]))[..15]
  }

  lemma ShiftBijective(r: Poly)
    requires |r| == 16
    ensures Unshift(ShiftPoly(r)) == r && ShiftPoly(Unshift(r)) == r
  {
    var s, u := ShiftPoly(r), Unshift(r);
    assert s[15] == r[0] && Add(s, Scale(s[15], Generator()[1..]))[..15] == r[1..];
    assert forall i | 0 <= i < 15 :: u[i + 1] == (r[i] != Scale(r[15], Generator()[1..])[i]);
  }

  // Feeding the same bits keeps different registers different.
  lemma {:induction false} FeedInjective(a: Poly, b: Poly, bits: seq<bool>)
    requires |a| == |b| == 16 && a != b
    ensures FeedBits(a, bits) != FeedBits(b, bits)
    decreases |bits|
  {
    if bits == [] {
    } else {
      var a', b' := [a[0] != bits[0]] + a[1..], [b[0] != bits[0]] + b[1..];
      ShiftBijective(a');
      ShiftBijective(b');
      assert a' != b';
      FeedInjective(FeedBit(a, bits[0]), FeedBit(b, bits[0]), bits[1..]);
    }
  }

  // For every byte string, updating the CRC is a bijection of its 65536 states.
  lemma UpdateInjective(a: U16, b: U16, data: seq<Byte>)
    requires a != b
    ensures FeedBytes(a, data) != FeedBytes(b, data)
  {
    Pow2At16();
    ValueOfDigits(a, 16);
    ValueOfDigits(b, 16);
    BytesAreBits(Digits(a, 16), data);
    BytesAreBits(Digits(b, 16), data);
    FeedInjective(Digits(a, 16), Digits(b, 16), Bits(data));
    DigitsOfValue(FeedBits(Digits(a, 16), Bits(data)));
    DigitsOfValue(FeedBits(Digits(b, 16), Bits(data)));
  }

  // Two runs differ by the run of their difference.
  lemma {:induction false} FeedLinear(a: Poly, b: Poly, p: seq<bool>, q: seq<bool>)
    requires |a| == |b| == 16 && |p| == |q|
    ensures Add(FeedBits(a, p), FeedBits(b, q)) == FeedBits(Add(a, b), Add(p, q))
    decreases |p|
  {
    if p == [] {
    } else {
      assert FeedBit(Add(a, b), p[0] != q[0]) == Add(FeedBit(a, p[0]), FeedBit(b, q[0]));
      FeedLinear(FeedBit(a, p[0]), FeedBit(b, q[0]), p[1..], q[1..]);
      assert Add(p, q)[1..] == Add(p[1..], q[1..]);
    }
  }

  // A register that at most 16 bits drive to zero held exactly those bits.
  lemma {:induction false} ZeroAfter(e: Poly, d: seq<bool>)
    requires |e| == 16 && |d| <= 16 && FeedBits(e, d) == Zeros(16)
    ensures forall i | 0 <= i < 16 :: e[i] == (i < |d| && d[i])
    decreases |d|
  {
    if d == [] {
    } else {
      var next := FeedBit(e, d[0]);
      ZeroAfter(next, d[1..]);
      assert next[15] == (e[0] != d[0]);
      assert forall i | 1 <= i < 16 :: e[i] == next[i - 1];
    }
  }

  lemma {:induction false} ZerosStayZero(n: nat)
    ensures FeedBits(Zeros(16), Zeros(n)) == Zeros(16)
  {
    if n == 0 {
    } else {
      assert FeedBit(Zeros(16), false) == Zeros(16);
      assert Zeros(n)[1..] == Zeros(n - 1);
      ZerosStayZero(n - 1);
    }
  }

  lemma AbsorbedIsZero(burst: seq<bool>)
    requires |burst| <= 16 && FeedBits(Zeros(16), burst) == Zeros(16)
    ensures burst == Zeros(|burst|)
  {
    ZeroAfter(Zeros(16), burst);
    AllFalse(burst);
  }

  lemma AllFalse(p: Poly)
    requires |p| <= 16 && forall i | 0 <= i < 16 :: Zeros(16)[i] == (i < |p| && p[i])
    ensures p == Zeros(|p|)
  {
    forall i | 0 <= i < |p|
      ensures !p[i]
    {
      assert Zeros(16)[i] == (i < |p| && p[i]);
    }
  }

  lemma BurstLeavesTrace(before: nat, burst: seq<bool>, behind: nat)
    requires |burst| <= 16 && burst != Zeros(|burst|)
    ensures FeedBits(Zeros(16), Zeros(before) + (burst + Zeros(behind))) != Zeros(16)
  {
    FeedConcat(Zeros(16), Zeros(before), burst + Zeros(behind));
    ZerosStayZero(before);
    FeedConcat(Zeros(16), burst, Zeros(behind));
    if FeedBits(Zeros(16), burst) == Zeros(16) {
      AbsorbedIsZero(burst);
      assert false;
    }
    FeedInjective(FeedBits(Zeros(16), burst), Zeros(16), Zeros(behind));
    ZerosStayZero(behind);
  }

  // A difference confined to 16 consecutive positions is a burst between zeros.
  lemma IsolateBurst(d: seq<bool>, start: nat) returns (burst: seq<bool>, before: nat, behind: nat)
    requires exists i :: 0 <= i < |d| && d[i]
    requires forall i | 0 <= i < |d| :: d[i] ==> start <= i < start + 16
    ensures d == Zeros(before) + (burst + Zeros(behind))
    ensures |burst| <= 16 && burst != Zeros(|burst|)
  {
    var i :| 0 <= i < |d| && d[i];
    var upto := Min(start + 16, |d|);
    burst, before, behind := d[start..upto], start, |d| - upto;
    assert burst[i - start];
  }

  // Burst detection at every bit position: two messages of equal length that differ, but only
  // within 16 consecutive bits, never leave the register in the same state.
  lemma BurstDetected(r: Poly, a: seq<bool>, b: seq<bool>, start: nat)
    requires |r| == 16 && |a| == |b| && a != b
    requires forall i | 0 <= i < |a| :: a[i] != b[i] ==> start <= i < start + 16
    ensures FeedBits(r, a) != FeedBits(r, b)
  {
    var i :| 0 <= i < |a| && a[i] != b[i];
    assert Add(a, b)[i];
    var burst, before, behind := IsolateBurst(Add(a, b), start);
    BurstLeavesTrace(before, burst, behind);
    FeedLinear(r, r, a, b);
    assert Add(r, r) == Zeros(16);
    SelfCancels(FeedBits(r, a));
  }

  lemma SelfCancels(x: Poly)
    ensures Add(x, x) == Zeros(|x|)
  {
  }

  // Two byte strings of equal length that differ only within two adjacent bytes have different CRCs.
  lemma AdjacentBytesDetected(a: seq<Byte>, b: seq<Byte>, k: nat)
    requires |a| == |b| && a != b
    requires forall i | 0 <= i < |a| :: a[i] != b[i] ==> k <= i <= k + 1
    ensures Crc(a) != Crc(b)
  {
    var p, q := Bits(a), Bits(b);
    forall i | 0 <= i < |p| && p[i] != q[i]
      ensures 8 * k <= i < 8 * k + 16
    {
      BitAt(a, i);
      BitAt(b, i);
    }
    var j :| 0 <= j < |a| && a[j] != b[j];
    BytesFromBits(a, b, j);
    BurstDetected(Ones(), p, q, 8 * k);
    CrcIsRegister(a);
    CrcIsRegister(b);
  }

  lemma {:induction false} BitAt(data: seq<Byte>, i: nat)
    requires i < 8 * |data|
    ensures Bits(data)[i] == Digits(data[i / 8], 8)[i % 8]
    decreases |data|
  {
    if i < 8 * (|data| - 1) {
      BitAt(data[..|data| - 1], i);
    }
  }

  lemma DigitsDiffer(x: Byte, y: Byte) returns (t: nat)
    requires x != y
    ensures t < 8 && Digits(x, 8)[t] != Digits(y, 8)[t]
  {
    Pow2At16();
    ValueOfDigits(x, 8);
    ValueOfDigits(y, 8);
    assert Digits(x, 8) != Digits(y, 8);
    t :| 0 <= t < 8 && Digits(x, 8)[t] != Digits(y, 8)[t];
  }

  lemma BytesFromBits(a: seq<Byte>, b: seq<Byte>, j: nat)
    requires |a| == |b| && j < |a| && a[j] != b[j]
    ensures Bits(a) != Bits(b)
  {
    var t := DigitsDiffer(a[j], b[j]);
    var i := 8 * j + t;
    assert i / 8 == j && i % 8 == t;
    BitAt(a, i);
    BitAt(b, i);
  }

  // --- Errors of odd weight ---------------------------------------------------------

  // An odd number of ones.
  predicate Odd(p: Poly) {
    if p == [] then false else p[0] != Odd(p[1..])
  }

  lemma {:induction false} OddAdd(a: Poly, b: Poly)
    requires |a| == |b|
    ensures Odd(Add(a, b)) == (Odd(a) != Odd(b))
    decreases |a|
  {
    if a == [] {
    } else {
      OddAdd(a[1..], b[1..]);
      assert Add(a, b)[1..] == Add(a[1..], b[1..]);
    }
  }

  lemma {:induction false} OddConcat(a: Poly, b: Poly)
    ensures Odd(a + b) == (Odd(a) != Odd(b))
    decreases |a|
  {
    if a == [] {
      assert a + b == b;
    } else {
      OddConcat(a[1..], b);
      assert (a + b)[1..] == a[1..] + b;
    }
  }

  lemma {:induction false} OddZeros(n: nat)
    ensures !Odd(Zeros(n))
  {
    if n == 0 {
    } else {
      OddZeros(n - 1);
      assert Zeros(n)[1..] == Zeros(n - 1);
    }
  }

  lemma OddGenerator()
    ensures Odd(Generator()[1..])
  {
    var g := Generator()[1..];
    assert g == Zeros(3) + ([true] + (Zeros(6) + ([true] + (Zeros(4) + [true]))));
    OddConcat(Zeros(3), [true] + (Zeros(6) + ([true] + (Zeros(4) + [true]))));
    OddConcat([true], Zeros(6) + ([true] + (Zeros(4) + [true])));
    OddConcat(Zeros(6), [true] + (Zeros(4) + [true]));
    OddConcat([true], Zeros(4) + [true]);
    OddConcat(Zeros(4), [true]);
    OddZeros(3);
    OddZeros(4);
    OddZeros(6);
  }

  lemma {:induction false} FeedParity(r: Poly, bits: seq<bool>)
    requires |r| == 16
    ensures Odd(FeedBits(r, bits)) == (Odd(r) != Odd(bits))
    decreases |bits|
  {
    if bits == [] {
    } else {
      var u := [r[0] != bits[0]] + r[1..];
      OddConcat(u[1..], [false]);
      OddAdd(u[1..] + [false], Scale(u[0], Generator()[1..]));
      OddGenerator();
      OddZeros(16);
      FeedParity(FeedBit(r, bits[0]), bits[1..]);
    }
  }

  // The generator has an even number of terms, so any odd number of flipped bits is detected.
  lemma OddErrorsDetected(a: seq<Byte>, b: seq<Byte>)
    requires |a| == |b| && Odd(Add(Bits(a), Bits(b)))
    ensures Crc(a) != Crc(b)
  {
    CrcIsRegister(a);
    CrcIsRegister(b);
    OddAdd(Bits(a), Bits(b));
    FeedParity(Ones(), Bits(a));
    FeedParity(Ones(), Bits(b));
  }
}
