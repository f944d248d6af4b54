/** The register file of the HD6309 and the arithmetic behind its condition codes
    (src/core/mc6809.h, src/core/mc6809_core_impl.h). */
module Hd6309 {
  import opened Words

  datatype Flags = Flags(e: bool, f: bool, h: bool, i: bool, n: bool, z: bool, v: bool, c: bool)

  /** D is the pair A:B and W the pair E:F; the halves of D are kept apart because most
      instructions touch only one of them. */
  datatype Regs = Regs(pc: u16, a: u8, b: u8, x: u16, y: u16, u: u16, s: u16, dp: u8, cc: Flags, w: u16, md: u8)
  {
    function D(): u16 { Pair(a, b) }

    function SetD(v: u16): Regs { this.(a := Hi(v), b := Lo(v)) }
  }

  const MD_D0: u8 := 0x80
  const MD_IL: u8 := 0x40

  predicate Native(r: Regs) { r.md % 2 == 1 }

  predicate FirqFull(r: Regs) { r.md / 2 % 2 == 1 }

  function Hi(v: u16): u8 { v / 0x100 }

  function Lo(v: u16): u8 { v % 0x100 }

  // `(hi << 8) | lo`
  function Pair(hi: u8, lo: u8): u16 {
    ShlByte(hi);
    Shl(hi, 8) + lo
  }

  lemma PairOf(v: u16)
    ensures Pair(Hi(v), Lo(v)) == v
  {
    ShlByte(Hi(v));
  }

  lemma HalvesOf(hi: u8, lo: u8)
    ensures Hi(Pair(hi, lo)) == hi && Lo(Pair(hi, lo)) == lo
  {
    ShlByte(hi);
  }

  function Neg8(v: u8): bool { v >= 0x80 }

  function Neg16(v: u16): bool { v >= 0x8000 }

  function Signed8(v: u8): int { if v >= 0x80 then v - 0x100 else v }

  datatype Nzv = Nzv(n: bool, z: bool, v: bool)

  /** The flags an operation writes; the others keep their value. */
  datatype Change = Change(nzv: Option<Nzv>, c: Option<bool>, h: Option<bool>)

  function Put(cc: Flags, ch: Change): Flags {
    var t := match ch.nzv case None => Nzv(cc.n, cc.z, cc.v) case Some(t) => t;
    var c := match ch.c case None => cc.c case Some(b) => b;
    var h := match ch.h case None => cc.h case Some(b) => b;
    Flags(cc.e, cc.f, h, cc.i, t.n, t.z, t.v, c)
  }

  // N and Z from a result, V cleared: loads and the logic operations.
  function Logic8(r: u8): Change { Change(Some(Nzv(Neg8(r), r == 0, false)), None, None) }

  function Logic16(r: u16): Change { Change(Some(Nzv(Neg16(r), r == 0, false)), None, None) }

  function Sub8(a: u8, b: u8): Change {
    var r := W8(a - b);
    Change(Some(Nzv(Neg8(r), r == 0, Neg8(a) != Neg8(b) && Neg8(a) != Neg8(r))), Some(a < b), None)
  }

  function Sub16(a: u16, b: u16): Change {
    var r := W16(a - b);
    Change(Some(Nzv(Neg16(r), r == 0, Neg16(a) != Neg16(b) && Neg16(a) != Neg16(r))), Some(a < b), None)
  }

  function Add8(a: u8, b: u8): Change {
    var r := W8(a + b);
    Change(Some(Nzv(Neg8(r), r == 0, Neg8(a) == Neg8(b) && Neg8(a) != Neg8(r))),
           Some(a + b >= 0x100), Some(a % 16 + b % 16 >= 16))
  }

  /** Condition of a short branch, selected by the low nibble of its opcode. */
  predicate Taken(cc: Flags, cond: int)
    requires 0 <= cond < 16
  {
    match cond
    case 0 => true
    case 1 => false
    case 2 => !(cc.c || cc.z)
    case 3 => cc.c || cc.z
    case 4 => !cc.c
    case 5 => cc.c
    case 6 => !cc.z
    case 7 => cc.z
    case 8 => !cc.v
    case 9 => cc.v
    case 10 => !cc.n
    case 11 => cc.n
    case 12 => cc.n == cc.v
    case 13 => cc.n != cc.v
    case 14 => !cc.z && cc.n == cc.v
    case _ => cc.z || cc.n != cc.v
  }
}
