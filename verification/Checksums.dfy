/** The cyclic redundancy check of PNG chunks (src/net/png_writer.cpp), as the shift-and-xor loop the
    code runs, and as what it is for: the remainder of a division of polynomials over the field of two
    elements by the CRC-32 polynomial. */
module Checksums {
  import opened Words

  function Xor(a: bv32, b: bv32): bv32 { a ^ b }

  function Half(c: bv32): bv32 { c >> 1 }

  predicate Odd(c: bv32) { c & 1 == 1 }

  function CrcBit(c: bv32): bv32 { if Odd(c) then Xor(0xEDB8_8320, Half(c)) else Half(c) }

  function CrcBits(c: bv32, n: nat): bv32 { if n == 0 then c else CrcBit(CrcBits(c, n - 1)) }

  // A byte's `k` low bits as a register value.
  function Widened(b: nat, k: nat): bv32 {
    if k == 0 then 0 else Doubled(Widened(b / 2, k - 1), b % 2 == 1)
  }

  function Doubled(x: bv32, bit: bool): bv32 { (x << 1) | One(bit) }

  function One(bit: bool): bv32 { if bit then 1 else 0 }

  function CrcByte(c: bv32, b: u8): bv32 { CrcBits(Xor(c, Widened(b, 8)), 8) }

  function CrcFrom(c: bv32, s: seq<u8>): bv32
    decreases |s|
  {
    if s == [] then c else CrcByte(CrcFrom(c, s[..|s| - 1]), s[|s| - 1])
  }

  // ------------------------------------------------------------------
  // Polynomials
  // ------------------------------------------------------------------

  /** A polynomial is the set of exponents whose coefficient is one. */
  type Poly = set<nat>

  function Add(p: Poly, q: Poly): Poly { (p - q) + (q - p) }

  // Times x.
  function Shift(p: Poly): Poly { set e | e in p :: e + 1 }

  /** x^32 + x^26 + x^23 + ... + x + 1. */
  const DIVISOR: Poly := {0, 1, 2, 4, 5, 7, 8, 10, 11, 12, 16, 22, 23, 26, 32}

  function AddIf(b: bool, p: Poly, q: Poly): Poly { if b then Add(p, q) else p }

  /** Of degree below that of the divisor. */
  ghost predicate Low(p: Poly) { forall e :: e in p ==> e < 32 }

  /** The divisor times a polynomial given by its coefficients, the highest first. */
  function Multiple(q: seq<bool>): Poly {
    if q == [] then {} else AddIf(q[|q| - 1], Shift(Multiple(q[..|q| - 1])), DIVISOR)
  }

  // x^(n - 1) + ... + x + 1
  function Ones(n: nat): Poly { if n == 0 then {} else Ones(n - 1) + {n - 1} }

  /** The message times x^32, its first bit the highest coefficient, plus x^31 + ... + 1 times as many
      powers of x as the message has bits. */
  function Dividend(bits: seq<bool>): Poly {
    if bits == [] then Ones(32)
    else AddIf(bits[|bits| - 1], Shift(Dividend(bits[..|bits| - 1])), {32})
  }

  // The `n` low bits of a byte, lowest first.
  function ByteBits(b: nat, n: nat): (s: seq<bool>)
    ensures |s| == n
    decreases n
  {
    if n == 0 then [] else [b % 2 == 1] + ByteBits(b / 2, n - 1)
  }

  /** The bits of a message, each byte's lowest first. */
  function MessageBits(s: seq<u8>): (bits: seq<bool>)
    ensures |bits| == 8 * |s|
  {
    if s == [] then [] else MessageBits(s[..|s| - 1]) + ByteBits(s[|s| - 1], 8)
  }

  predicate IsOne(c: bv32, i: nat)
    decreases i
  {
    if i == 0 then Odd(c) else IsOne(Half(c), i - 1)
  }

  /** The register as a polynomial: its lowest bit is the coefficient of x^31. */
  function Register(c: bv32): Poly { set e: nat | e < 32 && Coefficient(c, e) }

  predicate Coefficient(c: bv32, e: nat)
    requires e < 32
  {
    IsOne(c, 31 - e)
  }

  // ------------------------------------------------------------------
  // Bits of a register
  // ------------------------------------------------------------------

  lemma XorHalf(a: bv32, b: bv32)
    ensures Half(Xor(a, b)) == Xor(Half(a), Half(b)) && (Odd(Xor(a, b)) <==> Odd(a) != Odd(b))
  {
  }

  lemma XorLaws(a: bv32, b: bv32, c: bv32)
    ensures Xor(a, Xor(b, c)) == Xor(Xor(a, b), c) && Xor(b, 0) == b
  {
  }

  lemma OneStep(c: bv32, i: nat)
    ensures IsOne(c, i) == if i == 0 then Odd(c) else IsOne(Half(c), i - 1)
  {
  }

  lemma {:induction false} XorOne(a: bv32, b: bv32, i: nat)
    ensures IsOne(Xor(a, b), i) <==> IsOne(a, i) != IsOne(b, i)
    decreases i
  {
    hide IsOne, Xor, Half, Odd;
    OneStep(a, i);
    OneStep(b, i);
    OneStep(Xor(a, b), i);
    XorHalf(a, b);
    if i > 0 { XorOne(Half(a), Half(b), i - 1); }
  }

  // The register four and eight places on.
  function FourOn(c: bv32): bv32 { Half(Half(Half(Half(c)))) }

  function EightOn(c: bv32): bv32 { FourOn(FourOn(c)) }

  lemma BitsFourOn(c: bv32, i: nat)
    ensures IsOne(c, i + 4) == IsOne(FourOn(c), i)
  {
    hide IsOne, Half, Odd;
    OneStep(c, i + 4);
    OneStep(Half(c), i + 3);
    OneStep(Half(Half(c)), i + 2);
    OneStep(Half(Half(Half(c))), i + 1);
  }

  lemma BitsEightOn(c: bv32, i: nat)
    ensures IsOne(c, i + 8) == IsOne(EightOn(c), i)
  {
    hide IsOne, FourOn;
    BitsFourOn(c, i + 4);
    BitsFourOn(FourOn(c), i);
  }

  // The eight lowest bits.
  lemma LowEight(c: bv32)
    ensures (IsOne(c, 0) <==> c & 1 != 0) && (IsOne(c, 1) <==> c & 2 != 0)
    ensures (IsOne(c, 2) <==> c & 4 != 0) && (IsOne(c, 3) <==> c & 8 != 0)
    ensures (IsOne(c, 4) <==> c & 16 != 0) && (IsOne(c, 5) <==> c & 32 != 0)
    ensures (IsOne(c, 6) <==> c & 64 != 0) && (IsOne(c, 7) <==> c & 128 != 0)
  {
    hide IsOne;
    FourBits(c);
    FourBits(FourOn(c));
    BitsFourOn(c, 0);
    BitsFourOn(c, 1);
    BitsFourOn(c, 2);
    BitsFourOn(c, 3);
  }

  lemma FourBits(c: bv32)
    ensures (IsOne(c, 0) <==> c & 1 != 0) && (IsOne(c, 1) <==> c & 2 != 0)
    ensures (IsOne(c, 2) <==> c & 4 != 0) && (IsOne(c, 3) <==> c & 8 != 0)
  {
    hide IsOne;
    OneStep(c, 0);
    OneStep(c, 1);
    OneStep(Half(c), 0);
    OneStep(c, 2);
    OneStep(Half(c), 1);
    OneStep(Half(Half(c)), 0);
    OneStep(c, 3);
    OneStep(Half(c), 2);
    OneStep(Half(Half(c)), 1);
    OneStep(Half(Half(Half(c))), 0);
  }

  // A bit of a byte of the register.
  lemma ByteOf(c: bv32, i: nat)
    requires i < 32
    ensures 8 <= i < 16 ==> IsOne(c, i) == IsOne(EightOn(c), i - 8)
    ensures 16 <= i < 24 ==> IsOne(c, i) == IsOne(EightOn(EightOn(c)), i - 16)
    ensures 24 <= i ==> IsOne(c, i) == IsOne(EightOn(EightOn(EightOn(c))), i - 24)
  {
    hide IsOne, EightOn;
    if i >= 8 { BitsEightOn(c, i - 8); }
    if i >= 16 { BitsEightOn(EightOn(c), i - 16); }
    if i >= 24 { BitsEightOn(EightOn(EightOn(c)), i - 24); }
  }

  // There is no thirty-third.
  lemma NoMoreBits(c: bv32)
    ensures !IsOne(c, 32)
  {
    hide IsOne, EightOn, Odd;
    BitsEightOn(c, 24);
    BitsEightOn(EightOn(c), 16);
    BitsEightOn(EightOn(EightOn(c)), 8);
    BitsEightOn(EightOn(EightOn(EightOn(c))), 0);
    AllOut(c);
    OneStep(0, 0);
    assert !Odd(0) by { ZeroBits(0); OneStep(0, 0); }
  }

  lemma AllOut(c: bv32)
    ensures EightOn(EightOn(EightOn(EightOn(c)))) == 0
  {
    ByteOut(c);
    ByteOut(EightOn(c));
    ByteOut(EightOn(EightOn(c)));
    ByteOut(EightOn(EightOn(EightOn(c))));
  }

  lemma ByteOut(c: bv32)
    ensures EightOn(c) == c >> 8
  {
  }

  // The constant of the loop is the divisor without x^32, reflected.
  lemma DivisorBits(e: nat)
    requires e < 32
    ensures IsOne(0xEDB8_8320, 31 - e) <==> e in DIVISOR
  {
    hide IsOne, EightOn;
    var k: bv32 := 0xEDB8_8320;
    ByteOut(k);
    ByteOut(0xED_B883);
    ByteOut(0xEDB8);
    assert EightOn(k) == 0xED_B883 && EightOn(0xED_B883) == 0xEDB8 && EightOn(0xEDB8) == 0xED;
    ByteOf(k, 31 - e);
    LowEight(k);
    LowEight(0xED_B883);
    LowEight(0xEDB8);
    LowEight(0xED);
  }

  lemma OnesBits(i: nat)
    requires i < 32
    ensures IsOne(0xFFFF_FFFF, i)
  {
    hide IsOne, EightOn;
    var k: bv32 := 0xFFFF_FFFF;
    ByteOut(k);
    ByteOut(0xFF_FFFF);
    ByteOut(0xFFFF);
    assert EightOn(k) == 0xFF_FFFF && EightOn(0xFF_FFFF) == 0xFFFF && EightOn(0xFFFF) == 0xFF;
    ByteOf(k, i);
    LowEight(k);
    LowEight(0xFF_FFFF);
    LowEight(0xFFFF);
    LowEight(0xFF);
  }

  lemma {:induction false} ZeroBits(i: nat)
    ensures !IsOne(0, i)
    decreases i
  {
    assert Half(0) == 0 && !Odd(0);
    if i > 0 { ZeroBits(i - 1); }
  }

  // ------------------------------------------------------------------
  // One bit
  // ------------------------------------------------------------------

  // A message bit comes in at the low end.
  lemma BitIn(c: bv32, bit: bool)
    ensures Register(Xor(c, One(bit))) == AddIf(bit, Register(c), {31})
  {
    hide IsOne, Xor, Half, Odd;
    forall e: nat | e < 32
      ensures Coefficient(Xor(c, One(bit)), e) <==> Coefficient(c, e) != (bit && e == 31)
    {
      XorOne(c, One(bit), 31 - e);
      OneStep(One(bit), 31 - e);
      OneBit(bit);
      if e < 31 { ZeroBits(30 - e); }
    }
  }

  lemma OneBit(bit: bool)
    ensures Half(One(bit)) == 0 && Odd(One(bit)) == bit
  {
  }

  // One turn of the loop: times x, less the divisor when that reaches x^32.
  lemma BitThrough(y: bv32)
    ensures var s := Shift(Register(y));
      Register(CrcBit(y)) == AddIf(32 in s, s, DIVISOR)
  {
    hide CrcBit, IsOne, Odd, Shift, DIVISOR;
    var s := Shift(Register(y));
    InShift(Register(y), 32);
    OneStep(y, 0);
    assert 32 in s <==> Odd(y) by { assert Coefficient(y, 31) <==> Odd(y); }
    forall e: nat
      ensures e in Register(CrcBit(y)) <==> e in AddIf(32 in s, s, DIVISOR)
    {
      InShift(Register(y), e);
      if e < 32 { TurnAt(y, e); } else { TopTerm(e); }
    }
  }

  lemma TopTerm(e: nat)
    requires e >= 32
    ensures e in DIVISOR <==> e == 32
  {
  }

  lemma InShift(p: Poly, e: nat)
    ensures e in Shift(p) <==> e > 0 && e - 1 in p
  {
    if e > 0 && e - 1 in p { assert e == (e - 1) + 1; }
  }

  lemma TurnAt(y: bv32, e: nat)
    requires e < 32
    ensures Coefficient(CrcBit(y), e) <==> (e > 0 && Coefficient(y, e - 1)) != (Odd(y) && e in DIVISOR)
  {
    hide DIVISOR, IsOne, Xor, Half, Odd;
    XorOne(0xEDB8_8320, Half(y), 31 - e);
    DivisorBits(e);
    OneStep(y, 32 - e);
    if e == 0 { NoMoreBits(y); }
  }

  lemma ShiftAdd(p: Poly, q: Poly)
    ensures Shift(Add(p, q)) == Add(Shift(p), Shift(q))
  {
    forall e: nat
      ensures e in Shift(Add(p, q)) <==> e in Add(Shift(p), Shift(q))
    {
      if e > 0 { assert e == (e - 1) + 1; }
    }
  }

  // Quotient and register after one message bit more.
  lemma BitDivides(bits: seq<bool>, bit: bool, q: seq<bool>, c: bv32) returns (next: bool)
    requires Dividend(bits) == Add(Multiple(q), Register(c))
    ensures Dividend(bits + [bit]) == Add(Multiple(q + [next]), Register(CrcBit(Xor(c, One(bit)))))
  {
    hide Register, CrcBit, DIVISOR, Add, Shift, One, Xor, Dividend, Multiple;
    var y := Xor(c, One(bit));
    var s := Shift(Register(y));
    next := 32 in s;
    BitIn(c, bit);
    BitThrough(y);
    DividendMore(bits, bit);
    MultipleMore(q, next);
    ShiftAdd(Multiple(q), Register(c));
    ShiftAdd(Register(c), {31});
    ShiftOne();
    AddMore(Shift(Multiple(q)), Shift(Register(c)), {32});
    AddBoth(Shift(Multiple(q)), s, DIVISOR);
  }

  lemma DividendMore(bits: seq<bool>, bit: bool)
    ensures Dividend(bits + [bit]) == AddIf(bit, Shift(Dividend(bits)), {32})
  {
    assert (bits + [bit])[..|bits|] == bits;
  }

  lemma MultipleMore(q: seq<bool>, b: bool)
    ensures Multiple(q + [b]) == AddIf(b, Shift(Multiple(q)), DIVISOR)
  {
    assert (q + [b])[..|q|] == q;
  }

  lemma ShiftOne()
    ensures Shift({31}) == {32}
  {
  }

  lemma AddMore(p: Poly, q: Poly, r: Poly)
    ensures Add(Add(p, q), r) == Add(p, Add(q, r))
  {
  }

  lemma AddBoth(p: Poly, q: Poly, r: Poly)
    ensures Add(Add(p, r), Add(q, r)) == Add(p, q)
  {
  }

  // ------------------------------------------------------------------
  // A byte and a message
  // ------------------------------------------------------------------

  // A byte bit by bit, rather than all its bits at once.
  function Serial(c: bv32, b: nat, n: nat): bv32
    decreases n
  {
    if n == 0 then c else Serial(CrcBit(Xor(c, One(b % 2 == 1))), b / 2, n - 1)
  }

  lemma {:induction false} BitsFromFront(c: bv32, n: nat)
    requires n > 0
    ensures CrcBits(c, n) == CrcBits(CrcBit(c), n - 1)
    decreases n
  {
    hide CrcBit;
    if n > 1 { BitsFromFront(c, n - 1); }
  }

  lemma BitLinear(c: bv32, x: bv32, bit: bool)
    requires x < 128
    ensures CrcBit(Xor(c, Doubled(x, bit))) == Xor(CrcBit(Xor(c, One(bit))), x)
  {
    hide Xor, Half, Odd, One, Doubled;
    var y := Doubled(x, bit);
    XorHalf(c, y);
    XorHalf(c, One(bit));
    OneMore(x, bit);
    XorLaws(0xEDB8_8320, Half(c), x);
  }

  lemma OneMore(x: bv32, bit: bool)
    requires x < 128
    ensures Half(Doubled(x, bit)) == x && Odd(Doubled(x, bit)) == Odd(One(bit)) && Half(One(bit)) == 0
  {
  }

  // `k` bits stay below 2^k.
  lemma {:induction false} WidenedSmall(b: nat, k: nat)
    requires k <= 8
    ensures Widened(b, k) < Power(k)
    decreases k
  {
    hide Doubled, Power;
    PowerStep(k);
    if k > 0 {
      WidenedSmall(b / 2, k - 1);
      Powers(k - 1);
      DoubledBelow(Widened(b / 2, k - 1), Power(k - 1), b % 2 == 1);
    }
  }

  function Power(k: nat): bv32 { if k == 0 then 1 else Power(k - 1) << 1 }

  lemma PowerStep(k: nat)
    ensures Power(0) == 1 && (k > 0 ==> Power(k) == Power(k - 1) << 1)
  {
  }

  lemma Powers(k: nat)
    requires k < 8
    ensures Power(k) <= 128
  {
    assert Power(0) == 1;
    assert Power(1) == 2;
    assert Power(2) == 4;
    assert Power(3) == 8;
    assert Power(4) == 16;
    assert Power(5) == 32;
    assert Power(6) == 64;
    assert Power(7) == 128;
  }

  lemma DoubledBelow(x: bv32, p: bv32, bit: bool)
    requires x < p <= 128
    ensures Doubled(x, bit) < p << 1
  {
  }

  lemma {:induction false} SerialIs(c: bv32, b: nat, n: nat)
    requires n <= 8
    ensures CrcBits(Xor(c, Widened(b, n)), n) == Serial(c, b, n)
    decreases n
  {
    hide CrcBit, One, Xor, Doubled, Power, CrcBits;
    if n > 0 {
      var x := Widened(b / 2, n - 1);
      WidenedSmall(b / 2, n - 1);
      Powers(n - 1);
      BitsFromFront(Xor(c, Widened(b, n)), n);
      BitLinear(c, x, b % 2 == 1);
      SerialIs(CrcBit(Xor(c, One(b % 2 == 1))), b / 2, n - 1);
    } else {
      XorLaws(c, c, c);
      NoBits(c);
    }
  }

  lemma NoBits(c: bv32)
    ensures CrcBits(c, 0) == c
  {
  }

  lemma {:induction false} SerialDivides(bits: seq<bool>, q: seq<bool>, c: bv32, b: nat, n: nat)
    returns (more: seq<bool>)
    requires Dividend(bits) == Add(Multiple(q), Register(c))
    ensures |more| == n && Dividend(bits + ByteBits(b, n)) == Add(Multiple(q + more), Register(Serial(c, b, n)))
    decreases n
  {
    hide Register, CrcBit, Dividend, Multiple, One, Add, Xor;
    if n == 0 {
      more := [];
      assert bits + [] == bits && q + [] == q;
    } else {
      var bit := b % 2 == 1;
      var next := BitDivides(bits, bit, q, c);
      var rest := SerialDivides(bits + [bit], q + [next], CrcBit(Xor(c, One(bit))), b / 2, n - 1);
      more := [next] + rest;
      assert bits + ([bit] + ByteBits(b / 2, n - 1)) == bits + [bit] + ByteBits(b / 2, n - 1);
      assert q + ([next] + rest) == q + [next] + rest;
    }
  }

  /** The register after a message, begun with all ones, is the remainder of the division of the
      message's dividend by the CRC-32 polynomial; `q` is the quotient. */
  lemma {:induction false} CrcIsRemainder(s: seq<u8>) returns (q: seq<bool>)
    ensures |q| == 8 * |s| && Low(Register(CrcFrom(0xFFFF_FFFF, s)))
    ensures Dividend(MessageBits(s)) == Add(Multiple(q), Register(CrcFrom(0xFFFF_FFFF, s)))
    decreases |s|
  {
    hide Dividend, Multiple, Register, Add, CrcByte, CrcFrom, MessageBits, Low, Serial;
    if s == [] {
      q := [];
      EmptyMessage();
    } else {
      var n := |s| - 1;
      var front := CrcIsRemainder(s[..n]);
      MessageMore(s);
      var c := CrcFrom(0xFFFF_FFFF, s[..n]);
      ByteIsSerial(c, s[n]);
      var more := SerialDivides(MessageBits(s[..n]), front, c, s[n], 8);
      q := front + more;
    }
    BelowDivisor(CrcFrom(0xFFFF_FFFF, s));
  }

  lemma MessageMore(s: seq<u8>)
    requires s != []
    ensures var n := |s| - 1;
      && MessageBits(s) == MessageBits(s[..n]) + ByteBits(s[n], 8)
      && CrcFrom(0xFFFF_FFFF, s) == CrcByte(CrcFrom(0xFFFF_FFFF, s[..n]), s[n])
  {
    hide CrcByte;
  }

  lemma ByteIsSerial(c: bv32, b: u8)
    ensures CrcByte(c, b) == Serial(c, b, 8)
  {
    hide Widened, CrcBits, Serial, Xor;
    SerialIs(c, b, 8);
  }

  lemma BelowDivisor(c: bv32)
    ensures Low(Register(c))
  {
  }

  // Before the first bit the register is the dividend.
  lemma EmptyMessage()
    ensures Dividend(MessageBits([])) == Add(Multiple([]), Register(CrcFrom(0xFFFF_FFFF, [])))
  {
    hide IsOne;
    BelowOnes(32);
    forall e: nat | e < 32
      ensures Coefficient(0xFFFF_FFFF, e)
    {
      OnesBits(31 - e);
    }
    assert Ones(32) == Register(0xFFFF_FFFF);
  }

  lemma {:induction false} BelowOnes(n: nat)
    ensures forall e: nat :: e in Ones(n) <==> e < n
    decreases n
  {
    if n > 0 { BelowOnes(n - 1); }
  }

  /** Remainder and quotient are the only ones: a polynomial of degree below 32 that differs from the
      dividend by a multiple of the divisor is the register. */
  lemma RemainderUnique(s: seq<u8>, q: seq<bool>, r: Poly)
    requires Low(r) && Dividend(MessageBits(s)) == Add(Multiple(q), r)
    ensures r == Register(CrcFrom(0xFFFF_FFFF, s))
  {
    hide Register, CrcFrom, Dividend, MessageBits;
    var p := CrcIsRemainder(s);
    var t := Register(CrcFrom(0xFFFF_FFFF, s));
    assert Add(Multiple(p), Multiple(q)) == Add(r, t);
    MultiplesApart(p, q);
  }

  // Two multiples of the divisor that differ, differ in a coefficient of x^32 or above.
  lemma {:induction false} MultiplesApart(p: seq<bool>, q: seq<bool>)
    requires Low(Add(Multiple(p), Multiple(q)))
    ensures Multiple(p) == Multiple(q)
    decreases |p| + |q|
  {
    hide DIVISOR, Add, Shift, Multiple, Low;
    if p != [] || q != [] {
      FromInit(p);
      FromInit(q);
      LowerApart(Multiple(Init(p)), Multiple(Init(q)), Last(p), Last(q));
      MultiplesApart(Init(p), Init(q));
      SameLast(Shift(Multiple(Init(p))), Last(p), Last(q));
    }
  }

  // The multiples before the last coefficient are apart no higher.
  lemma LowerApart(p: Poly, q: Poly, x: bool, y: bool)
    requires Low(Add(AddIf(x, Shift(p), DIVISOR), AddIf(y, Shift(q), DIVISOR)))
    ensures Low(Add(p, q))
  {
    var t := Add(AddIf(x, Shift(p), DIVISOR), AddIf(y, Shift(q), DIVISOR));
    forall e | e in Add(p, q)
      ensures e < 32
    {
      InShift(p, e + 1);
      InShift(q, e + 1);
      assert e + 1 in t || e < 32;
    }
  }

  lemma SameLast(a: Poly, x: bool, y: bool)
    requires Low(Add(AddIf(x, a, DIVISOR), AddIf(y, a, DIVISOR)))
    ensures x == y
  {
    assert x == y || 32 in Add(AddIf(x, a, DIVISOR), AddIf(y, a, DIVISOR));
  }

  function Init(q: seq<bool>): seq<bool> { if q == [] then [] else q[..|q| - 1] }

  function Last(q: seq<bool>): bool { q != [] && q[|q| - 1] }

  lemma FromInit(q: seq<bool>)
    ensures Multiple(q) == AddIf(Last(q), Shift(Multiple(Init(q))), DIVISOR)
  {
  }
}
