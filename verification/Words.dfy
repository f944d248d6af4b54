/** Fixed-width words of the emulator, modelled as bounded integers.
    Every wrap-around of the C++ code is written out with one of the functions below. */
module Words {
  type u8 = x: int | 0 <= x < 0x100
  type u16 = x: int | 0 <= x < 0x1_0000
  type u32 = x: int | 0 <= x < 0x1_0000_0000

  function W8(x: int): u8 { x % 0x100 }

  function W16(x: int): u16 { x % 0x1_0000 }

  function W32(x: int): u32 { x % 0x1_0000_0000 }

  // `v << n`
  function Shl(v: nat, n: nat): nat
    decreases v, n
  {
    if n == 0 then v else 2 * Shl(v, n - 1)
  }

  lemma ShlByte(v: nat)
    ensures Shl(v, 8) == v * 0x100
  {
    assert Shl(v, 1) == 2 * v;
    assert Shl(v, 3) == 8 * v;
    assert Shl(v, 5) == 32 * v;
    assert Shl(v, 7) == 128 * v;
  }

  datatype Option<+T> = None | Some(value: T)
}

/** Single bits of a byte, for the byte arrays the code uses as bitmaps. */
module Bits {
  type Index = i: nat | i < 8

  function Mask(i: Index): bv8 {
    match i
    case 0 => 1
    case 1 => 2
    case 2 => 4
    case 3 => 8
    case 4 => 16
    case 5 => 32
    case 6 => 64
    case _ => 128
  }

  // Bit `i` is `1 << i`.
  lemma MaskIs(i: Index)
    ensures Mask(i) == (1 as bv8) << i
  {
  }

  predicate IsSet(b: bv8, i: Index) { b & Mask(i) != 0 }

  function WithBit(b: bv8, i: Index, v: bool): bv8 { if v then b | Mask(i) else b & !Mask(i) }

  lemma OneBit(b: bv8, i: Index, v: bool, j: Index)
    ensures IsSet(WithBit(b, i, v), j) == if j == i then v else IsSet(b, j)
  {
  }
}

/** Facts about products and quotients of variables that the solver needs spelled out. */
module Arithmetic {
  import opened Words

  lemma StepUp(p: int, a: int, b: int)
    requires a < b && p >= 0
    ensures p * a + p <= p * b
  {
    assert p * (a + 1) <= p * b;
  }

  lemma QuotientIs(a: int, p: int, q: int, r: int)
    requires p > 0 && 0 <= r < p && a == p * q + r
    ensures a / p == q && a % p == r
  {
    var d := a / p;
    assert a == p * d + a % p;
    if d < q { StepUp(p, d, q); }
    if d > q { StepUp(p, q, d); }
  }

  lemma Wraps(a: nat, d: nat)
    requires d < 0x1_0000_0000
    ensures W32(W32(a + d) - W32(a)) == d
    ensures W32(W32(a) - W32(a + d)) == if d == 0 then 0 else 0x1_0000_0000 - d
    ensures W32(W32(a) + d) == W32(a + d)
  {
    var q := a / 0x1_0000_0000;
    var m := W32(a);
    assert a == q * 0x1_0000_0000 + m;
    if m + d < 0x1_0000_0000 {
      WrapIs(a + d, q, m + d);
    } else {
      WrapIs(a + d, q + 1, m + d - 0x1_0000_0000);
    }
  }

  lemma WrapIs(a: nat, q: nat, m: nat)
    requires a == q * 0x1_0000_0000 + m && m < 0x1_0000_0000
    ensures W32(a) == m
  {
  }

  lemma SameWrap(a: nat, k: nat)
    ensures W32(a + k * 0x1_0000_0000) == W32(a)
  {
    var q, m := a / 0x1_0000_0000, W32(a);
    assert a + k * 0x1_0000_0000 == (q + k) * 0x1_0000_0000 + m;
    WrapIs(a + k * 0x1_0000_0000, q + k, m);
  }

  /** Moving a free-running 32-bit index back. */
  lemma Retreats(a: nat, n: nat)
    requires n <= a
    ensures W32(W32(a) - n) == W32(a - n)
  {
  }

  // The cell of a free-running index in a ring whose size divides 2^32.
  predicate RingSize(size: nat) { size == 1024 || size == 2048 || size == 4096 }

  lemma Distinct(p: nat, q: nat, size: nat)
    requires p < q < p + size && RingSize(size)
    ensures p % size != q % size
  {
    if size == 4096 {
      assert p % 4096 != q % 4096;
    } else if size == 2048 {
      assert p % 2048 != q % 2048;
    } else {
      assert p % 1024 != q % 1024;
    }
  }

  lemma WrapCell(p: nat)
    ensures W32(p) % 1024 == p % 1024 && W32(p) % 2048 == p % 2048 && W32(p) % 4096 == p % 4096
  {
    var q, m := p / 0x1_0000_0000, W32(p);
    assert p == q * 0x1_0000_0000 + m;
    Cells1024(q * 0x40_0000, m);
    Cells2048(q * 0x20_0000, m);
    Cells4096(q * 0x10_0000, m);
  }

  lemma Cells1024(k: nat, m: nat)
    ensures (k * 1024 + m) % 1024 == m % 1024
  {
  }

  lemma Cells2048(k: nat, m: nat)
    ensures (k * 2048 + m) % 2048 == m % 2048
  {
  }

  lemma Cells4096(k: nat, m: nat)
    ensures (k * 4096 + m) % 4096 == m % 4096
  {
  }
}
