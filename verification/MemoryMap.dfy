/** The CoCo 3 address decode and the page tables that shortcut it
    (src/core/tcc1014.cpp, src/core/machine.cpp, src/core/mc6809_core_impl.h).

    `Decode` is the full decode of the GIME. The CPU core instead reads and writes through two tables
    of eight page pointers, rebuilt on some register writes. The class keeps those tables as the code
    does; every access is proved to reach the byte the full decode selects. */
module MemoryMap {
  import opened Words

  // 128 KB, 512 KB, 1 MB or 2 MB
  type RamSize = n: nat | n == 0x2_0000 || n == 0x8_0000 || n == 0x10_0000 || n == 0x20_0000 witness 0x8_0000
  type Banks = s: seq<u8> | |s| == 16 witness seq(16, _ => 0)
  type SamBits = s: seq<bool> | |s| == 16 witness seq(16, _ => false)
  type Slot = i: nat | i < 8

  /** The registers that decide where an address goes. `task` is the task bit of INIT1, `cart` the
      selected bank of a bank-switched cartridge. */
  datatype Map = Map(banks: Banks, task: bool, mmuen: bool, mc0: bool, mc1: bool, mc2: bool, mc3: bool,
                     sam: SamBits, size: RamSize, cart: Option<nat>)

  datatype Roms = Roms(coco3: seq<u8>, coco3Loaded: bool, disk: seq<u8>, diskLoaded: bool, diskEnd: nat, cartBanks: nat)

  predicate RomsOk(r: Roms) {
    && |r.coco3| == 0x8000 && |r.disk| == 0x2_0000 && (r.diskEnd == 0xE000 || r.diskEnd == 0xFF00)
    && (r.cartBanks == 0 || r.cartBanks == 2 || r.cartBanks == 4 || r.cartBanks == 8)
  }

  predicate CartOk(cart: Option<nat>) { cart.Some? ==> cart.value < 8 }

  // `& ram_mask`
  function InRam(size: RamSize, a: nat): (r: nat)
    ensures r < size
  {
    match size
    case 0x2_0000 => a % 0x2_0000
    case 0x8_0000 => a % 0x8_0000
    case 0x10_0000 => a % 0x10_0000
    case _ => a % 0x20_0000
  }

  // `& bank_mask`: with more than 512 KB the MMU registers are wider.
  function BankBits(size: RamSize, v: u8): u8 {
    if size > 0x10_0000 then v else if size > 0x8_0000 then v % 0x80 else v % 0x40
  }

  function Bank(m: Map, slot: Slot): u8 {
    if m.mmuen then m.banks[(if m.task then 8 else 0) + slot] else 0x38 + slot
  }

  function All(m: Map): bool { m.sam[15] }

  // A bank of the internal ROM or the cartridge, by the GIME's own six bits.
  predicate RomBank(bank: u8) { bank % 0x40 >= 0x3C }

  // ------------------------------------------------------------------
  // The full decode
  // ------------------------------------------------------------------

  datatype Place = Ram(cell: nat) | Rom | Cart

  /** `tcc1014_mem_cycle` below $FF00. */
  function Decode(m: Map, addr: u16): Place
    requires addr < 0xFF00
  {
    var top := addr >= 0xFE00 && m.mc3;
    var bank: u8 := if top then 0x3F else Bank(m, addr / 0x2000);
    if top || All(m) || !RomBank(bank) then Ram(InRam(m.size, bank * 0x2000 + addr % 0x2000))
    else if !m.mc1 then if bank % 0x40 >= 0x3E then Cart else Rom
    else if m.mc0 then Cart else Rom
  }

  function RomByte(r: Roms, addr: u16): u8
    requires RomsOk(r)
  {
    if r.coco3Loaded then r.coco3[addr % 0x8000] else 0xFF
  }

  function CartByte(cart: Option<nat>, r: Roms, addr: u16): u8
    requires RomsOk(r) && CartOk(cart)
  {
    if cart.Some? then r.disk[cart.value * 0x4000 + addr % 0x4000]
    else if r.diskLoaded && 0xC000 <= addr < r.diskEnd then r.disk[addr - 0xC000]
    else RomByte(r, addr)
  }

  /** The byte the full decode selects. */
  function FullRead(m: Map, r: Roms, ram: seq<u8>, addr: u16): u8
    requires RomsOk(r) && CartOk(m.cart) && |ram| == m.size && addr < 0xFF00
  {
    match Decode(m, addr)
    case Ram(cell) => ram[cell]
    case Rom => RomByte(r, addr)
    case Cart => CartByte(m.cart, r, addr)
  }

  /** The cell a write lands in: below $FE00 always the RAM under the address, ROM or not. */
  function WriteCell(m: Map, addr: u16): Option<nat>
    requires addr < 0xFF00
  {
    if addr < 0xFE00 then Some(InRam(m.size, Bank(m, addr / 0x2000) * 0x2000 + addr % 0x2000))
    else match Decode(m, addr) case Ram(cell) => Some(cell) case _ => None
  }

  function Stored(m: Map, ram: seq<u8>, addr: u16, val: u8): seq<u8>
    requires |ram| == m.size && addr < 0xFF00
  {
    match WriteCell(m, addr)
    case Some(cell) => ram[cell := val]
    case None => ram
  }

  /** What a write to the I/O page does to the map. */
  function Io(m: Map, r: Roms, addr: u16, val: u8): Map
    requires addr >= 0xFF00
  {
    if addr == 0xFF40 then
      if m.mc2 && m.cart.Some? && r.cartBanks > 0 then m.(cart := Some(val % r.cartBanks)) else m
    else if addr == 0xFF90 then
      m.(mmuen := val / 64 % 2 == 1, mc3 := val / 8 % 2 == 1, mc2 := val / 4 % 2 == 1,
         mc1 := val / 2 % 2 == 1, mc0 := val % 2 == 1)
    else if addr == 0xFF91 then m.(task := val % 2 == 1)
    else if 0xFFA0 <= addr < 0xFFB0 then m.(banks := m.banks[addr - 0xFFA0 := BankBits(m.size, val)])
    else if 0xFFC0 <= addr < 0xFFE0 then m.(sam := m.sam[(addr - 0xFFC0) / 2 := addr % 2 == 1])
    else m
  }

  // ------------------------------------------------------------------
  // The page tables
  // ------------------------------------------------------------------

  function PageBase(size: RamSize, bank: u8): nat { InRam(size, bank * 0x2000) }

  lemma PageCell(size: RamSize, bank: u8, off: nat)
    requires off < 0x2000
    ensures InRam(size, bank * 0x2000 + off) == PageBase(size, bank) + off < size
  {
    match size
    case 0x2_0000 => PageCell128(bank, off);
    case 0x8_0000 => PageCell512(bank, off);
    case 0x10_0000 => PageCell1024(bank, off);
    case _ => PageCell2048(bank, off);
  }

  lemma PageCell128(bank: u8, off: nat)
    requires off < 0x2000
    ensures (bank * 0x2000 + off) % 0x2_0000 == bank * 0x2000 % 0x2_0000 + off
  {
    var q, r := bank / 16, bank % 16;
    assert bank * 0x2000 == q * 0x2_0000 + r * 0x2000 && r * 0x2000 + off < 0x2_0000;
  }

  lemma PageCell512(bank: u8, off: nat)
    requires off < 0x2000
    ensures (bank * 0x2000 + off) % 0x8_0000 == bank * 0x2000 % 0x8_0000 + off
  {
    var q, r := bank / 64, bank % 64;
    assert bank * 0x2000 == q * 0x8_0000 + r * 0x2000 && r * 0x2000 + off < 0x8_0000;
  }

  lemma PageCell1024(bank: u8, off: nat)
    requires off < 0x2000
    ensures (bank * 0x2000 + off) % 0x10_0000 == bank * 0x2000 % 0x10_0000 + off
  {
    var q, r := bank / 128, bank % 128;
    assert bank * 0x2000 == q * 0x10_0000 + r * 0x2000 && r * 0x2000 + off < 0x10_0000;
  }

  lemma PageCell2048(bank: u8, off: nat)
    requires off < 0x2000
    ensures (bank * 0x2000 + off) % 0x20_0000 == bank * 0x2000 % 0x20_0000 + off
  {
    assert bank * 0x2000 + off < 0x20_0000;
  }

  /** What the tables hold for a map: the write page always, the read page unless ROM is selected. */
  function ReadPage(m: Map, i: Slot): Option<nat> {
    if All(m) || !RomBank(Bank(m, i)) then Some(PageBase(m.size, Bank(m, i))) else None
  }

  /** Below $FE00 a present read page holds the cell the full decode selects, an absent one means the
      full decode selects ROM or the cartridge; the write page holds the cell a write must reach. */
  lemma PagesDecode(m: Map, addr: u16)
    requires addr < 0xFE00
    ensures match ReadPage(m, addr / 0x2000)
            case Some(base) => Decode(m, addr) == Ram(base + addr % 0x2000) && base + addr % 0x2000 < m.size
            case None => !Decode(m, addr).Ram?
    ensures var cell := PageBase(m.size, Bank(m, addr / 0x2000)) + addr % 0x2000;
            cell < m.size && WriteCell(m, addr) == Some(cell)
  {
    hide InRam, RomBank;
    PageCell(m.size, Bank(m, addr / 0x2000), addr % 0x2000);
  }

  /** Two addresses of one map reach the same RAM cell exactly when they have the same offset and
      their banks are the same modulo the RAM fitted. */
  lemma SharedCell(m: Map, a: u16, b: u16)
    requires a < 0xFE00 && b < 0xFE00
    ensures WriteCell(m, a) == WriteCell(m, b) <==>
            a % 0x2000 == b % 0x2000 && PageBase(m.size, Bank(m, a / 0x2000)) == PageBase(m.size, Bank(m, b / 0x2000))
  {
    hide InRam;
    PageCell(m.size, Bank(m, a / 0x2000), a % 0x2000);
    PageCell(m.size, Bank(m, b / 0x2000), b % 0x2000);
    PageStart(m.size, Bank(m, a / 0x2000));
    PageStart(m.size, Bank(m, b / 0x2000));
  }

  lemma PageStart(size: RamSize, bank: u8)
    ensures PageBase(size, bank) % 0x2000 == 0
  {
    match size
    case 0x2_0000 => PageStart128(bank);
    case 0x8_0000 => PageStart512(bank);
    case 0x10_0000 => PageStart1024(bank);
    case _ => assert bank * 0x2000 < 0x20_0000;
  }

  lemma PageStart128(bank: u8)
    ensures bank * 0x2000 % 0x2_0000 == bank % 16 * 0x2000
  {
    var q, r := bank / 16, bank % 16;
    assert bank * 0x2000 == q * 0x2_0000 + r * 0x2000;
  }

  lemma PageStart512(bank: u8)
    ensures bank * 0x2000 % 0x8_0000 == bank % 64 * 0x2000
  {
    var q, r := bank / 64, bank % 64;
    assert bank * 0x2000 == q * 0x8_0000 + r * 0x2000;
  }

  lemma PageStart1024(bank: u8)
    ensures bank * 0x2000 % 0x10_0000 == bank % 128 * 0x2000
  {
    var q, r := bank / 128, bank % 128;
    assert bank * 0x2000 == q * 0x10_0000 + r * 0x2000;
  }

  lemma BankBelow(val: u8, n: nat)
    requires n == 2 || n == 4 || n == 8
    ensures 0 <= val % n < 8
  {
  }

  function AfterReset(size: RamSize, r: Roms): Map {
    Map(seq(16, i requires 0 <= i < 16 => 0x38 + i % 8), false, false, false, false, false, false,
        seq(16, _ => false), size, if r.cartBanks > 0 then Some(0) else None)
  }

  class Machine {
    // the GIME's registers and tables
    const banks: array<u8>
    const active: array<u8>
    const rdPage: array<Option<nat>>
    const wrPage: array<nat>
    var tr: nat
    var mmuen: bool
    var mc0: bool
    var mc1: bool
    var mc2: bool
    var mc3: bool
    const sam: array<bool>
    var size: RamSize
    // memory
    const ram: array<u8>
    const roms: Roms
    var cart: Option<nat>

    ghost predicate Shaped()
      reads this, banks, sam
    {
      && banks.Length == 16 && active.Length == 8 && rdPage.Length == 8 && wrPage.Length == 8 && sam.Length == 16
      && banks != active && banks != ram && active != ram
      && (tr == 0 || tr == 8) && RomsOk(roms)
      && (cart.Some? ==> cart.value < 8) && (cart.Some? <==> roms.cartBanks > 0)
    }

    ghost function State(): Map
      requires Shaped()
      reads this, banks, sam
    {
      Map(banks[..], tr == 8, mmuen, mc0, mc1, mc2, mc3, sam[..], size, cart)
    }

    /** The tables hold what the registers say. */
    ghost predicate Current()
      requires Shaped()
      reads this, banks, sam, active, rdPage, wrPage
    {
      forall i: Slot ::
        active[i] == Bank(State(), i) && rdPage[i] == ReadPage(State(), i) && wrPage[i] == PageBase(size, active[i])
    }

    ghost predicate Valid()
      reads this, banks, sam, active, rdPage, wrPage
    {
      Shaped() && size == ram.Length && Current()
    }

    /** Power on: `size` bytes of RAM fitted, then a reset. */
    constructor (size: RamSize, roms: Roms)
      requires RomsOk(roms)
      ensures Valid() && this.roms == roms && ram.Length == size && State() == AfterReset(size, roms)
      ensures fresh(banks) && fresh(active) && fresh(rdPage) && fresh(wrPage) && fresh(sam) && fresh(ram)
    {
      banks, active, ram := new u8[16](_ => 0), new u8[8](_ => 0), new u8[size](_ => 0);
      rdPage, wrPage := new Option<nat>[8](_ => None), new nat[8](_ => 0);
      sam := new bool[16](_ => false);
      this.size, this.roms := size, roms;
      tr, mmuen, mc0, mc1, mc2, mc3 := 0, false, false, false, false, false;
      cart := if roms.cartBanks > 0 then Some(0) else None;
      new;
      Reset();
    }

    /** `update_fast_pages` */
    method UpdateFastPages()
      requires Shaped() && forall i: Slot :: active[i] == Bank(State(), i)
      modifies rdPage, wrPage
      ensures Shaped() && State() == old(State()) && Current()
    {
      hide PageBase, RomBank, Bank;
      var i := 0;
      while i < 8
        invariant i <= 8
        invariant forall j: Slot | j < i :: rdPage[j] == ReadPage(State(), j) && wrPage[j] == PageBase(size, active[j])
      {
        var bank := active[i];
        wrPage[i] := PageBase(size, bank);
        rdPage[i] := if sam[15] || !RomBank(bank) then Some(PageBase(size, bank)) else None;
        i := i + 1;
      }
    }

    /** `tcc1014_update_active_banks` */
    method UpdateActiveBanks()
      requires Shaped()
      modifies active, rdPage, wrPage
      ensures Shaped() && State() == old(State()) && Current()
    {
      var i := 0;
      while i < 8
        invariant i <= 8 && Shaped() && State() == old(State())
        invariant forall j: Slot | j < i :: active[j] == Bank(State(), j)
      {
        active[i] := if mmuen then banks[tr + i] else 0x38 + i;
        i := i + 1;
      }
      UpdateFastPages();
    }

    /** INIT0 */
    method WriteInit0(val: u8)
      requires Valid()
      modifies this`mmuen, this`mc0, this`mc1, this`mc2, this`mc3, active, rdPage, wrPage
      ensures Valid() && State() == Io(old(State()), roms, 0xFF90, val)
    {
      hide ReadPage, PageBase, Bank;
      mmuen := val / 64 % 2 == 1;
      mc3 := val / 8 % 2 == 1;
      mc2 := val / 4 % 2 == 1;
      mc1 := val / 2 % 2 == 1;
      mc0 := val % 2 == 1;
      UpdateActiveBanks();
    }

    /** INIT1: the tables are rebuilt only when TR really changes. */
    method WriteInit1(val: u8)
      requires Valid()
      modifies this`tr, active, rdPage, wrPage
      ensures Valid() && State() == Io(old(State()), roms, 0xFF91, val)
    {
      hide ReadPage, PageBase, Bank;
      var t := if val % 2 == 1 then 8 else 0;
      if t != tr {
        tr := t;
        UpdateActiveBanks();
      }
    }

    method WriteMmu(offset: nat, val: u8)
      requires Valid() && offset < 16
      modifies banks, active, rdPage, wrPage
      ensures Valid() && State() == Io(old(State()), roms, 0xFFA0 + offset, val)
    {
      hide ReadPage, PageBase, Bank;
      banks[offset] := BankBits(size, val);
      UpdateActiveBanks();
    }

    /** A SAM bit pair: the active banks stay, the pages are rebuilt for the map type. */
    method WriteSam(offset: nat)
      requires Valid() && offset < 32
      modifies sam, rdPage, wrPage
      ensures Valid() && State() == old(State()).(sam := old(sam[..])[offset / 2 := offset % 2 == 1])
    {
      hide ReadPage, PageBase;
      var bit := offset / 2;
      sam[bit] := offset % 2 == 1;
      UpdateFastPages();
    }

    /** `tcc1014_set_ram`; the RAM itself is `ram`. */
    method SetRam()
      requires Shaped()
      requires ram.Length == 0x2_0000 || ram.Length == 0x8_0000 || ram.Length == 0x10_0000 || ram.Length == 0x20_0000
      modifies this`size, active, rdPage, wrPage
      ensures Valid() && State() == old(State()).(size := ram.Length)
    {
      hide ReadPage, PageBase, Bank;
      size := ram.Length;
      UpdateActiveBanks();
    }

    /** `machine_reset_coco3`: registers and banks to their reset values, RAM cleared and wired. */
    method Reset()
      requires Shaped()
      requires ram.Length == 0x2_0000 || ram.Length == 0x8_0000 || ram.Length == 0x10_0000 || ram.Length == 0x20_0000
      modifies this, banks, active, rdPage, wrPage, sam, ram
      ensures Valid() && State() == AfterReset(ram.Length, roms)
      ensures forall a :: 0 <= a < ram.Length ==> ram[a] == 0
    {
      if cart.Some? { cart := Some(0); }
      forall a | 0 <= a < ram.Length { ram[a] := 0; }
      ResetRegisters();
      SetRam();
    }

    method ResetRegisters()
      requires Shaped()
      modifies this`mmuen, this`mc0, this`mc1, this`mc2, this`mc3, this`tr, sam, banks
      ensures Shaped() && State() == AfterReset(size, roms).(cart := cart)
    {
      mmuen, mc0, mc1, mc2, mc3, tr := false, false, false, false, false, 0;
      forall i | 0 <= i < 16 { sam[i] := false; }
      forall i | 0 <= i < 16 { banks[i] := 0x38 + i % 8; }
      assert banks[..] == AfterReset(size, roms).banks;
      assert sam[..] == AfterReset(size, roms).sam;
    }

    /** The callback behind the tables, `machine_read_coco3`, below $FF00. */
    method ReadCallback(addr: u16) returns (b: u8)
      requires Valid() && addr < 0xFF00
      ensures b == FullRead(State(), roms, ram[..], addr)
    {
      hide RomBank, InRam, Bank, PageBase, ReadPage;
      if addr < 0xFE00 {
        var bank := active[addr / 0x2000];
        if sam[15] || !RomBank(bank) { return ram[InRam(size, bank * 0x2000 + addr % 0x2000)]; }
      } else if mc3 {
        return ram[InRam(size, 0x3F * 0x2000 + addr % 0x2000)];
      }
      b := MemCycleRead(addr);
    }

    /** `tcc1014_mem_cycle` and the selection after it. */
    method MemCycleRead(addr: u16) returns (b: u8)
      requires Valid() && addr < 0xFF00
      ensures b == FullRead(State(), roms, ram[..], addr)
    {
      hide RomBank, InRam, PageBase, ReadPage;
      var useMmu, ras := mmuen, false;
      if addr >= 0xFE00 && mc3 {
        ras := true;
        useMmu := false;
      }
      var bank := if useMmu then banks[tr + addr / 0x2000] else 0x38 + addr / 0x2000;
      var s := 7;
      if !sam[15] && RomBank(bank) {
        if !mc1 { s := if bank % 0x40 >= 0x3E then 1 else 0; } else { s := if mc0 then 1 else 0; }
      } else {
        ras := true;
      }
      if ras { return ram[InRam(size, bank * 0x2000 + addr % 0x2000)]; }
      if s == 1 { return CartByte(cart, roms, addr); }
      return RomByte(roms, addr);
    }

    /** `mem_read` of the CPU core, below $FF00. */
    method Read(addr: u16) returns (b: u8)
      requires Valid() && addr < 0xFF00
      ensures b == FullRead(State(), roms, ram[..], addr)
    {
      hide Decode, Bank, RomBank, PageBase, ReadPage;
      if addr < 0xFE00 {
        PagesDecode(State(), addr);
        var p := rdPage[addr / 0x2000];
        if p.Some? { return ram[p.value + addr % 0x2000]; }
      }
      b := ReadCallback(addr);
    }

    /** `mem_write` of the CPU core: RAM below $FF00, the registers above. */
    method Write(addr: u16, val: u8)
      requires Valid()
      modifies this, banks, active, rdPage, wrPage, sam, ram
      ensures Valid()
      ensures addr < 0xFF00 ==> State() == old(State()) && ram[..] == Stored(old(State()), old(ram[..]), addr, val)
      ensures addr >= 0xFF00 ==> State() == Io(old(State()), roms, addr, val) && ram[..] == old(ram[..])
    {
      if addr < 0xFF00 { WriteMemory(addr, val); } else { WriteIo(addr, val); }
    }

    method WriteMemory(addr: u16, val: u8)
      requires Valid() && addr < 0xFF00
      modifies ram
      ensures Valid() && State() == old(State())
      ensures ram[..] == Stored(State(), old(ram[..]), addr, val)
    {
      hide Bank, RomBank, PageBase, ReadPage, InRam;
      if addr < 0xFE00 {
        PagesDecode(State(), addr);
        ram[wrPage[addr / 0x2000] + addr % 0x2000] := val;
        return;
      }
      if mc3 {
        ram[InRam(size, 0x3F * 0x2000 + addr % 0x2000)] := val;
        return;
      }
      var bank := active[addr / 0x2000];
      if sam[15] || !RomBank(bank) { ram[InRam(size, bank * 0x2000 + addr % 0x2000)] := val; }
    }

    method WriteIo(addr: u16, val: u8)
      requires Valid() && addr >= 0xFF00
      modifies this, banks, active, rdPage, wrPage, sam
      ensures Valid() && State() == Io(old(State()), roms, addr, val)
    {
      hide Current;
      if addr == 0xFF40 { WriteCart(val); }
      else if addr == 0xFF90 { WriteInit0(val); }
      else if addr == 0xFF91 { WriteInit1(val); }
      else if 0xFFA0 <= addr < 0xFFB0 { WriteMmu(addr - 0xFFA0, val); }
      else if 0xFFC0 <= addr < 0xFFE0 { WriteSam(addr - 0xFFC0); }
    }

    // The bank register of a bank-switched cartridge, behind the disk select.
    method WriteCart(val: u8)
      requires Valid()
      modifies this`cart
      ensures Valid() && State() == Io(old(State()), roms, 0xFF40, val)
    {
      hide InRam, RomBank;
      if mc2 && cart.Some? {
        BankBelow(val, roms.cartBanks);
        cart := Some(val % roms.cartBanks);
      }
    }
  }
}

/** The CoCo 2 address decode below $FF00 and its page tables (src/core/machine.cpp): ROM pages are
    read through the tables too, an absent ROM and every ROM write go to the callbacks. */
module MemoryMapCoco2 {
  import opened Words

  type Slot = i: nat | i < 8

  datatype Rom = Rom(bytes: seq<u8>, loaded: bool)

  /** `ty` is the SAM map type: all RAM when set. */
  datatype Map = Map(ty: bool, extbas: Rom, basic: Rom, cart: Rom)

  predicate MapOk(m: Map) { |m.extbas.bytes| == 0x2000 && |m.basic.bytes| == 0x2000 && |m.cart.bytes| == 0x4000 }

  // `machine_read_coco2` below $FF00, the RAM being 64 KB.
  function FullRead(m: Map, ram: seq<u8>, addr: u16): u8
    requires MapOk(m) && |ram| == 0x1_0000 && addr < 0xFF00
  {
    if addr < 0x8000 || m.ty then ram[addr]
    else if addr >= 0xC000 then if m.cart.loaded then m.cart.bytes[addr - 0xC000] else 0xFF
    else if addr >= 0xA000 then if m.basic.loaded then m.basic.bytes[addr - 0xA000] else 0xFF
    else if m.extbas.loaded then m.extbas.bytes[addr - 0x8000] else 0xFF
  }

  function FullWrite(m: Map, ram: seq<u8>, addr: u16, val: u8): seq<u8>
    requires |ram| == 0x1_0000 && addr < 0xFF00
  {
    if addr < 0x8000 || m.ty then ram[addr := val] else ram
  }

  /** What a page pointer points to: an offset into RAM or into a ROM. */
  datatype Page = Null | Ram(at: nat) | ExtBas | Basic | Cart(at: nat)

  function ReadPage(m: Map, i: Slot): Page {
    if i < 4 || m.ty then Ram(i * 0x2000)
    else if i == 4 then if m.extbas.loaded then ExtBas else Null
    else if i == 5 then if m.basic.loaded then Basic else Null
    else if m.cart.loaded then Cart((i - 6) * 0x2000) else Null
  }

  function WritePage(m: Map, i: Slot): Page { if i < 4 || m.ty then Ram(i * 0x2000) else Null }

  function Fetch(m: Map, ram: seq<u8>, p: Page, off: nat): u8
    requires MapOk(m) && |ram| == 0x1_0000 && off < 0x2000 && p != Null
    requires p.Ram? ==> p.at <= 0xE000
    requires p.Cart? ==> p.at <= 0x2000
  {
    match p
    case Ram(at) => ram[at + off]
    case ExtBas => m.extbas.bytes[off]
    case Basic => m.basic.bytes[off]
    case Cart(at) => m.cart.bytes[at + off]
  }

  /** A present page holds the byte the callback would return; a null one stands for $FF. */
  lemma PagesDecode(m: Map, ram: seq<u8>, addr: u16)
    requires MapOk(m) && |ram| == 0x1_0000 && addr < 0xFF00
    ensures var p := ReadPage(m, addr / 0x2000);
      if p == Null then FullRead(m, ram, addr) == 0xFF
      else
        && (p.Ram? ==> p.at <= 0xE000) && (p.Cart? ==> p.at <= 0x2000)
        && FullRead(m, ram, addr) == Fetch(m, ram, p, addr % 0x2000)
    ensures var w := WritePage(m, addr / 0x2000);
      if w.Ram? then w.at + addr % 0x2000 == addr && (forall val :: FullWrite(m, ram, addr, val) == ram[addr := val])
      else w == Null && (forall val :: FullWrite(m, ram, addr, val) == ram)
  {
  }

  class Machine {
    const ram: array<u8>
    const sam: array<bool>
    var roms: Map     // `ty` as of the last rebuild
    const rdPage: array<Page>
    const wrPage: array<Page>

    ghost predicate Shaped()
      reads this, sam
    {
      && ram.Length == 0x1_0000 && sam.Length == 16 && rdPage.Length == 8 && wrPage.Length == 8 && rdPage != wrPage
      && MapOk(roms)
    }

    ghost function State(): Map
      requires Shaped()
      reads this, sam
    {
      roms.(ty := sam[15])
    }

    ghost predicate Valid()
      reads this, sam, rdPage, wrPage
    {
      Shaped() && forall i: Slot :: rdPage[i] == ReadPage(State(), i) && wrPage[i] == WritePage(State(), i)
    }

    /** `machine_init_coco2`: 64 KB, the ROM buffers allocated and no ROM in them yet. */
    constructor ()
      ensures Valid() && !State().ty
      ensures !State().basic.loaded && !State().extbas.loaded && !State().cart.loaded
      ensures fresh(ram) && fresh(sam) && fresh(rdPage) && fresh(wrPage)
    {
      ram, sam := new u8[0x1_0000](_ => 0), new bool[16](_ => false);
      rdPage, wrPage := new Page[8](_ => Null), new Page[8](_ => Null);
      var blank := Rom(seq(0x2000, _ => 0xFF), false);
      roms := Map(false, blank, blank, Rom(seq(0x4000, _ => 0xFF), false));
      new;
      UpdateFastPages();
    }

    /** `update_fast_pages_coco2` */
    method UpdateFastPages()
      requires Shaped()
      modifies rdPage, wrPage
      ensures Valid() && State() == old(State())
    {
      var i := 0;
      while i < 8
        invariant i <= 8
        invariant forall j: Slot | j < i :: rdPage[j] == ReadPage(State(), j) && wrPage[j] == WritePage(State(), j)
      {
        if i < 4 || sam[15] {
          rdPage[i] := Ram(i * 0x2000);
          wrPage[i] := Ram(i * 0x2000);
        } else {
          wrPage[i] := Null;
          if i == 4 { rdPage[i] := if roms.extbas.loaded then ExtBas else Null; }
          else if i == 5 { rdPage[i] := if roms.basic.loaded then Basic else Null; }
          else { rdPage[i] := if roms.cart.loaded then Cart((i - 6) * 0x2000) else Null; }
        }
        i := i + 1;
      }
    }

    /** A SAM write: the map type may have changed. */
    method WriteSam(offset: nat)
      requires Valid() && offset < 32
      modifies sam, rdPage, wrPage
      ensures Valid() && State() == old(State()).(ty := if offset / 2 == 15 then offset % 2 == 1 else old(State()).ty)
    {
      sam[offset / 2] := offset % 2 == 1;
      UpdateFastPages();
    }

    /** `machine_load_roms_coco2`: each ROM file read replaces one buffer; what is missing stays as it was. */
    method LoadRoms(basic: Option<seq<u8>>, extbas: Option<seq<u8>>, cart: Option<seq<u8>>)
      requires Valid()
      requires basic.Some? ==> |basic.value| == 0x2000
      requires extbas.Some? ==> |extbas.value| == 0x2000
      requires cart.Some? ==> |cart.value| == 0x4000
      modifies this`roms, rdPage, wrPage
      ensures Valid() && State().ty == old(State().ty)
      ensures State().basic == if basic.Some? then Rom(basic.value, true) else old(State().basic)
      ensures State().extbas == if extbas.Some? then Rom(extbas.value, true) else old(State().extbas)
      ensures State().cart == if cart.Some? then Rom(cart.value, true) else old(State().cart)
    {
      if basic.Some? { roms := roms.(basic := Rom(basic.value, true)); }
      if extbas.Some? { roms := roms.(extbas := Rom(extbas.value, true)); }
      if cart.Some? { roms := roms.(cart := Rom(cart.value, true)); }
      UpdateFastPages();
    }

    /** `mem_read` below $FF00, callback included. */
    method Read(addr: u16) returns (b: u8)
      requires Valid() && addr < 0xFF00
      ensures b == FullRead(State(), ram[..], addr)
    {
      PagesDecode(State(), ram[..], addr);
      var p := rdPage[addr / 0x2000];
      var off := addr % 0x2000;
      match p
      case Ram(at) => b := ram[at + off];
      case ExtBas => b := roms.extbas.bytes[off];
      case Basic => b := roms.basic.bytes[off];
      case Cart(at) => b := roms.cart.bytes[at + off];
      case Null => b := ReadCallback(addr);
    }

    method ReadCallback(addr: u16) returns (b: u8)
      requires Valid() && addr < 0xFF00
      ensures b == FullRead(State(), ram[..], addr)
    {
      if addr >= 0x8000 {
        if sam[15] { return ram[addr]; }
        if addr >= 0xC000 { return if roms.cart.loaded then roms.cart.bytes[addr - 0xC000] else 0xFF; }
        if addr >= 0xA000 { return if roms.basic.loaded then roms.basic.bytes[addr - 0xA000] else 0xFF; }
        return if roms.extbas.loaded then roms.extbas.bytes[addr - 0x8000] else 0xFF;
      }
      return ram[addr];
    }

    /** `mem_write` below $FF00, callback included. */
    method Write(addr: u16, val: u8)
      requires Valid() && addr < 0xFF00
      modifies ram
      ensures Valid() && State() == old(State()) && ram[..] == FullWrite(State(), old(ram[..]), addr, val)
    {
      PagesDecode(State(), ram[..], addr);
      var p := wrPage[addr / 0x2000];
      if p.Ram? {
        ram[p.at + addr % 0x2000] := val;
      } else {
        WriteCallback(addr, val);
      }
    }

    method WriteCallback(addr: u16, val: u8)
      requires Valid() && addr < 0xFF00
      modifies ram
      ensures Valid() && State() == old(State()) && ram[..] == FullWrite(State(), old(ram[..]), addr, val)
    {
      if addr < 0x8000 || sam[15] { ram[addr] := val; }
    }
  }
}
