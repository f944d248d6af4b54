/** What the CoCo 3 address map means to a program (src/core/tcc1014.cpp, src/core/machine.cpp): where RAM is, what
    is read elsewhere, and that what is written is what is read.

    `MemoryMap` proves that page tables, callbacks and full decode agree. The laws here say on what, in
    terms of the registers. */
module MemoryLaws {
  import opened Words
  import M = MemoryMap

  // ------------------------------------------------------------------
  // Banks
  // ------------------------------------------------------------------

  /** The 8 KB bank behind an address: the MMU register of its slot in the set chosen, or $38 to $3F. With MC3 the page
      $FE00 always shows the last bank of the first 64. */
  function BankAt(m: M.Map, addr: u16): u8 {
    if addr >= 0xFE00 && m.mc3 then 0x3F
    else if !m.mmuen then 0x38 + addr / 0x2000
    else m.banks[addr / 0x2000 + if m.task then 8 else 0]
  }

  /** Its RAM cell, in as much RAM as is fitted. */
  function CellAt(m: M.Map, addr: u16): (cell: nat)
    ensures cell < m.size
  {
    (BankAt(m, addr) * 0x2000 + addr % 0x2000) % m.size
  }

  /** RAM is seen everywhere with the map type set, and else in all but the last four of every 64 banks. */
  predicate SeesRam(m: M.Map, addr: u16) {
    m.sam[15] || BankAt(m, addr) % 64 < 60 || (addr >= 0xFE00 && m.mc3)
  }

  // Those four banks show internal ROM or the cartridge: two each without MC1, else all as MC0 says.
  predicate SeesCartridge(m: M.Map, addr: u16) {
    if m.mc1 then m.mc0 else BankAt(m, addr) % 64 >= 62
  }

  function InternalByte(r: M.Roms, addr: u16): u8
    requires M.RomsOk(r)
  {
    if r.coco3Loaded then r.coco3[addr % 0x8000] else 0xFF
  }

  /** A bank-switched cartridge shows 16 KB of its bank in every 16 KB; another one its ROM from $C000 up to its end,
      and the internal ROM elsewhere. */
  function CartridgeByte(m: M.Map, r: M.Roms, addr: u16): u8
    requires M.RomsOk(r) && M.CartOk(m.cart)
  {
    if m.cart.Some? then r.disk[m.cart.value * 0x4000 + addr % 0x4000]
    else if r.diskLoaded && 0xC000 <= addr < r.diskEnd then r.disk[addr - 0xC000]
    else InternalByte(r, addr)
  }

  lemma CellIs(m: M.Map, addr: u16)
    ensures M.InRam(m.size, BankAt(m, addr) * 0x2000 + addr % 0x2000) == CellAt(m, addr)
  {
  }

  lemma ReadIs(m: M.Map, r: M.Roms, ram: seq<u8>, addr: u16)
    requires M.RomsOk(r) && M.CartOk(m.cart) && |ram| == m.size && addr < 0xFF00
    ensures M.FullRead(m, r, ram, addr) ==
            if SeesRam(m, addr) then ram[CellAt(m, addr)]
            else if SeesCartridge(m, addr) then CartridgeByte(m, r, addr)
            else InternalByte(r, addr)
  {
    hide M.InRam, CellAt, M.RomByte, M.CartByte, InternalByte, CartridgeByte;
    CellIs(m, addr);
    RomsAre(m, r, addr);
  }

  lemma RomsAre(m: M.Map, r: M.Roms, addr: u16)
    requires M.RomsOk(r) && M.CartOk(m.cart)
    ensures M.RomByte(r, addr) == InternalByte(r, addr)
    ensures M.CartByte(m.cart, r, addr) == CartridgeByte(m, r, addr)
  {
  }

  // Below $FE00 writes reach RAM under ROM too; above only where RAM is seen.
  lemma WriteIs(m: M.Map, ram: seq<u8>, addr: u16, val: u8)
    requires |ram| == m.size && addr < 0xFF00
    ensures M.Stored(m, ram, addr, val) ==
            if addr < 0xFE00 || SeesRam(m, addr) then ram[CellAt(m, addr) := val] else ram
  {
    hide M.InRam, CellAt;
    CellIs(m, addr);
  }

  // ------------------------------------------------------------------
  // Accesses of the CPU
  // ------------------------------------------------------------------

  /** A CPU read: RAM, cartridge or internal ROM by bank, map type and MC bits. */
  method ReadByte(m: M.Machine, addr: u16) returns (b: u8)
    requires m.Valid() && addr < 0xFF00
    ensures SeesRam(m.State(), addr) ==> b == m.ram[CellAt(m.State(), addr)]
    ensures !SeesRam(m.State(), addr) ==>
              b == if SeesCartridge(m.State(), addr) then CartridgeByte(m.State(), m.roms, addr)
                   else InternalByte(m.roms, addr)
  {
    ReadIs(m.State(), m.roms, m.ram[..], addr);
    hide M.FullRead, SeesRam, CellAt, SeesCartridge, CartridgeByte, InternalByte;
    b := m.Read(addr);
  }

  /** Write, then read, anywhere below $FE00. Where RAM is seen, the byte written is read at every address of the
      same cell and no other cell has changed; where it is not, the write changes nothing that is read, although
      the cell below has taken it. */
  method WriteThenRead(m: M.Machine, at: u16, val: u8, from: u16) returns (before: u8, b: u8)
    requires m.Valid() && at < 0xFE00 && from < 0xFE00
    modifies m, m.banks, m.active, m.rdPage, m.wrPage, m.sam, m.ram
    ensures m.Valid() && m.State() == old(m.State())
    ensures var s := m.State();
      && m.ram[CellAt(s, at)] == val
      && (SeesRam(s, from) && CellAt(s, from) == CellAt(s, at) ==> b == val)
      && (SeesRam(s, from) && CellAt(s, from) != CellAt(s, at) ==> b == before == old(m.ram[CellAt(s, from)]))
      && (!SeesRam(s, from) ==> b == before)
  {
    hide M.FullRead, M.Stored, SeesRam, CellAt, SeesCartridge, CartridgeByte, InternalByte;
    ghost var s := m.State();
    before := ReadByte(m, from);
    WriteIs(s, m.ram[..], at, val);
    m.Write(at, val);
    b := ReadByte(m, from);
  }

  /** Two addresses below $FE00 share a cell exactly when their offsets are the same and their banks are, in the
      RAM fitted. */
  lemma SameCell(m: M.Map, a: u16, b: u16)
    requires a < 0xFE00 && b < 0xFE00
    ensures CellAt(m, a) == CellAt(m, b) <==>
            a % 0x2000 == b % 0x2000 && BankAt(m, a) % (m.size / 0x2000) == BankAt(m, b) % (m.size / 0x2000)
  {
    var p, q := BankAt(m, a), BankAt(m, b);
    match m.size
    case 0x2_0000 => Cells(p, q, a % 0x2000, b % 0x2000, 16);
    case 0x8_0000 => Cells(p, q, a % 0x2000, b % 0x2000, 64);
    case 0x10_0000 => Cells(p, q, a % 0x2000, b % 0x2000, 128);
    case _ => Cells(p, q, a % 0x2000, b % 0x2000, 256);
  }

  lemma Cells(p: u8, q: u8, i: nat, j: nat, n: nat)
    requires i < 0x2000 && j < 0x2000 && n in {16, 64, 128, 256}
    ensures (p * 0x2000 + i) % (n * 0x2000) == (q * 0x2000 + j) % (n * 0x2000) <==> i == j && p % n == q % n
  {
    OneCell(p, i, n);
    OneCell(q, j, n);
  }

  lemma OneCell(p: u8, i: nat, n: nat)
    requires i < 0x2000 && n in {16, 64, 128, 256}
    ensures (p * 0x2000 + i) % (n * 0x2000) == p % n * 0x2000 + i
  {
    if n == 16 {
      M.PageCell128(p, i); M.PageStart128(p);
    } else if n == 64 {
      M.PageCell512(p, i); M.PageStart512(p);
    } else if n == 128 {
      M.PageCell1024(p, i); M.PageStart1024(p);
    } else {
      M.PageCell2048(p, i);
    }
  }

  // ------------------------------------------------------------------
  // Registers
  // ------------------------------------------------------------------

  // The number with the bits of INIT0 that matter here.
  function Init0Byte(mmuen: bool, mc3: bool, mc2: bool, mc1: bool, mc0: bool): nat {
    (if mmuen then 64 else 0) + (if mc3 then 8 else 0) + (if mc2 then 4 else 0) + (if mc1 then 2 else 0)
    + (if mc0 then 1 else 0)
  }

  // Bits 7, 5 and 4 only.
  predicate OtherBits(n: int) { n % 16 == 0 && (0 <= n < 64 || 128 <= n < 192) }

  /** A write to $FF90 sets MMUEN, MC3, MC2, MC1 and MC0 to its bits 6, 3, 2, 1 and 0; a write to $FF91
      chooses between the two sets of MMU registers by its bit 0. */
  lemma Init0Bits(m: M.Map, r: M.Roms, val: u8)
    ensures var s := M.Io(m, r, 0xFF90, val);
      OtherBits(val - Init0Byte(s.mmuen, s.mc3, s.mc2, s.mc1, s.mc0))
    ensures M.Io(m, r, 0xFF91, val).task <==> val % 2 == 1
  {
    hide Init0Byte, OtherBits;
    Halves(val);
    Assembled(val % 2, val / 2 % 2, val / 4 % 2, val / 8 % 2, val / 16 % 4, val / 64 % 2, val / 128);
  }

  lemma Halves(p: u8)
    ensures p == p % 2 + 2 * (p / 2 % 2) + 4 * (p / 4 % 2) + 8 * (p / 8 % 2) + 16 * (p / 16 % 4) + 64 * (p / 64 % 2)
                 + 128 * (p / 128)
    ensures p / 128 < 2
  {
    var a, b, c, d := p / 2, p / 4, p / 8, p / 16;
    assert b == a / 2 && c == b / 2 && d == c / 2 && p / 64 == d / 4 && p / 128 == p / 64 / 2;
  }

  lemma Assembled(b0: nat, b1: nat, b2: nat, b3: nat, b54: nat, b6: nat, b7: nat)
    requires b0 < 2 && b1 < 2 && b2 < 2 && b3 < 2 && b54 < 4 && b6 < 2 && b7 < 2
    ensures OtherBits(b0 + 2 * b1 + 4 * b2 + 8 * b3 + 16 * b54 + 64 * b6 + 128 * b7
                      - Init0Byte(b6 == 1, b3 == 1, b2 == 1, b1 == 1, b0 == 1))
  {
    SumOfBits(b0, b1, b2, b3, b6);
    hide Init0Byte;
    Others(b54, b7);
  }

  lemma SumOfBits(b0: nat, b1: nat, b2: nat, b3: nat, b6: nat)
    requires b0 < 2 && b1 < 2 && b2 < 2 && b3 < 2 && b6 < 2
    ensures Init0Byte(b6 == 1, b3 == 1, b2 == 1, b1 == 1, b0 == 1) == b0 + 2 * b1 + 4 * b2 + 8 * b3 + 64 * b6
  {
  }

  lemma Others(b54: nat, b7: nat)
    requires b54 < 4 && b7 < 2
    ensures OtherBits(16 * b54 + 128 * b7)
  {
  }

  /** A write to the MMU register of a slot in the set chosen moves that slot to the bank written, as many bits of
      it as the RAM needs, at least six; no other slot moves. Writing to $FFDF makes everything RAM,
      to $FFDE puts the ROM back. */
  lemma MmuWrites(m: M.Map, r: M.Roms, slot: nat, val: u8, addr: u16)
    requires slot < 8 && addr < 0xFE00 && m.mmuen
    ensures var s := M.Io(m, r, 0xFFA0 + slot + (if m.task then 8 else 0), val);
      BankAt(s, addr) ==
      if addr / 0x2000 != slot then BankAt(m, addr)
      else val % (if m.size == 0x20_0000 then 256 else if m.size == 0x10_0000 then 128 else 64)
    ensures M.Io(m, r, 0xFFDF, val).sam[15] && !M.Io(m, r, 0xFFDE, val).sam[15]
  {
  }

  /** After a reset the lower half of the address space is RAM and the upper half is not: internal ROM, then the
      cartridge. */
  lemma ResetMap(size: M.RamSize, r: M.Roms, addr: u16)
    requires M.RomsOk(r) && addr < 0xFE00
    ensures var s := M.AfterReset(size, r);
      && (SeesRam(s, addr) <==> addr < 0x8000)
      && (!SeesRam(s, addr) ==> (SeesCartridge(s, addr) <==> addr >= 0xC000))
  {
  }
}
