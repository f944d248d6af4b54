/** What an interrupt does on the HD6309 (src/core/mc6809_core_impl.h), in numbers: which one is taken, the vector, the
    masks, the cycles, and where each register lies on the stack. */
module InterruptLaws {
  import opened Words
  import opened Hd6309
  import opened Interrupts
  import Loop = IdleLoop

  /** NMI goes before FIRQ and FIRQ before IRQ; NMI waits until it is armed, the others for their mask to be
      clear. */
  lemma Priority(c: Cpu, l: Lines)
    ensures Chosen(c, l).Nmi? <==> l.nmi && l.nmiArmed
    ensures Chosen(c, l).Firq? <==> !(l.nmi && l.nmiArmed) && l.firq && !c.r.cc.f
    ensures Chosen(c, l).Irq? <==> !(l.nmi && l.nmiArmed) && !(l.firq && !c.r.cc.f) && l.irq && !c.r.cc.i
  {
  }

  function WordAt(m: Mem, a: u16): u16 { 0x100 * (m[a] as int) + m[(a + 1) % 0x1_0000] }

  lemma WordIs(m: Mem, a: u16)
    ensures Read16(m, a) == WordAt(m, a)
  {
    ShlByte(m[a]);
  }

  // Bytes from the stack pointer up.
  function Above(c: Cpu, i: nat): u8 { c.mem[(c.r.s + i) % 0x1_0000] }

  function AboveWord(c: Cpu, i: nat): u16 { 0x100 * (Above(c, i) as int) + Above(c, i + 1) }

  /** CC as a byte: E, F, H, I, N, Z, V, C from bit 7 to bit 0. */
  function Code(f: Flags): nat {
    (if f.e then 128 else 0) + (if f.f then 64 else 0) + (if f.h then 32 else 0) + (if f.i then 16 else 0)
    + (if f.n then 8 else 0) + (if f.z then 4 else 0) + (if f.v then 2 else 0) + (if f.c then 1 else 0)
  }

  lemma CodeIs(f: Flags)
    ensures CcByte(f) == Code(f)
  {
  }

  /** The whole state on the stack: CC, A, B, in native mode E and F (the halves of W), DP, X, Y, U and PC from the
      stack pointer up, the high byte of each word first. */
  predicate HoldsWhole(c: Cpu, r: Regs, cc: Flags) {
    && Above(c, 0) == Code(cc) && Above(c, 1) == r.a && Above(c, 2) == r.b
    && var n := if r.md % 2 == 1 then 2 else 0;
      && (n == 2 ==> AboveWord(c, 3) == r.w)
      && Above(c, 3 + n) == r.dp && AboveWord(c, 4 + n) == r.x && AboveWord(c, 6 + n) == r.y
      && AboveWord(c, 8 + n) == r.u && AboveWord(c, 10 + n) == r.pc
      && c.r.s == (r.s - 12 - n) % 0x1_0000
  }

  predicate HoldsShort(c: Cpu, r: Regs, cc: Flags) {
    Above(c, 0) == Code(cc) && AboveWord(c, 1) == r.pc && c.r.s == (r.s - 3) % 0x1_0000
  }

  lemma WordBack(v: u16)
    ensures 0x100 * Hi(v) + Lo(v) == v
  {
  }

  lemma WholeHolds(c: Cpu, e: Cpu)
    requires e.mem == Stack(c, Whole(c.r)).mem && e.r.s == Stack(c, Whole(c.r)).r.s
    ensures HoldsWhole(e, c.r, c.r.cc)
  {
    hide PushBytes, Hi, Lo, CcByte, Code, At;
    StackedAt(c);
    CodeIs(c.r.cc);
    WordBack(c.r.w); WordBack(c.r.x); WordBack(c.r.y); WordBack(c.r.u); WordBack(c.r.pc);
    forall i: nat | i < FrameSize(c.r, true)
      ensures Above(e, i) == Whole(c.r)[FrameSize(c.r, true) - 1 - i]
    {
      AtIs(Stack(c, Whole(c.r)), e, i);
    }
  }

  lemma AtIs(s: Cpu, e: Cpu, i: nat)
    requires e.mem == s.mem && e.r.s == s.r.s
    ensures Above(e, i) == At(s, i)
  {
  }

  lemma ShortHolds(c: Cpu, e: Cpu)
    requires e.mem == Stack(c, Short(c.r)).mem && e.r.s == Stack(c, Short(c.r)).r.s
    ensures HoldsShort(e, c.r, c.r.cc)
  {
    hide PushBytes, Hi, Lo, CcByte, Code, At;
    CodeIs(c.r.cc);
    WordBack(c.r.pc);
    forall i: nat | i < 3
      ensures Above(e, i) == Short(c.r)[2 - i]
    {
      Stacked(c, Short(c.r), i);
      AtIs(Stack(c, Short(c.r)), e, i);
    }
  }

  /** Entry from the program: NMI and IRQ, and FIRQ when MD bit 1 asks for it, stack everything with E set; FIRQ else
      CC and PC only, with E clear. Then I is set, by NMI and FIRQ F too, PC is the word at $FFFC, $FFF6 or $FFF8,
      and 19 cycles are gone (21 in native mode), 10 for the short FIRQ. */
  lemma Entry(c: Cpu, l: Lines)
    requires !c.cwai && Chosen(c, l) != NoInterrupt
    ensures var d := Dispatch(c, l); var short := Chosen(c, l).Firq? && c.r.md / 2 % 2 == 0;
      var stacked := c.r.cc.(e := !short);
      && (if short then HoldsShort(d, c.r, stacked) else HoldsWhole(d, c.r, stacked))
      && d.r.pc == WordAt(d.mem, if Chosen(c, l).Nmi? then 0xFFFC else if Chosen(c, l).Firq? then 0xFFF6 else 0xFFF8)
      && d.r.cc == stacked.(i := true, f := stacked.f || !Chosen(c, l).Irq?)
      && d.cycles == c.cycles + (if short then 10 else if c.r.md % 2 == 1 then 21 else 19)
      && !d.wait && !d.cwai && !d.busy
  {
    hide PushBytes, Whole, Short, HoldsWhole, HoldsShort, WordAt, Read16;
    var short := Chosen(c, l).Firq? && c.r.md / 2 % 2 == 0;
    var d := c.(r := c.r.(cc := c.r.cc.(e := !short)));
    var e := Dispatch(c, l);
    WordIs(e.mem, 0xFFFC);
    WordIs(e.mem, 0xFFF6);
    WordIs(e.mem, 0xFFF8);
    if short {
      ShortHolds(d, e);
      SameHolds(e, d.r, c.r, d.r.cc);
    } else {
      WholeHolds(d, e);
      SameHolds(e, d.r, c.r, d.r.cc);
    }
  }

  lemma SameHolds(e: Cpu, r: Regs, q: Regs, cc: Flags)
    requires r == q.(cc := r.cc)
    ensures HoldsWhole(e, r, cc) ==> HoldsWhole(e, q, cc)
    ensures HoldsShort(e, r, cc) ==> HoldsShort(e, q, cc)
  {
  }

  /** The interrupt that ends a CWAI stacks nothing and takes 7 cycles. */
  lemma EntryAfterCwai(c: Cpu, l: Lines)
    requires c.cwai && Chosen(c, l) != NoInterrupt
    ensures var d := Dispatch(c, l);
      && d.mem == c.mem && d.r.s == c.r.s && !d.wait && !d.cwai && d.cycles == c.cycles + 7
      && d.r.pc == WordAt(c.mem, if Chosen(c, l).Nmi? then 0xFFFC else if Chosen(c, l).Firq? then 0xFFF6 else 0xFFF8)
      && d.r.cc == c.r.cc.(i := true, f := c.r.cc.f || !Chosen(c, l).Irq?)
  {
    hide WordAt, Read16;
    WordIs(c.mem, 0xFFFC);
    WordIs(c.mem, 0xFFF6);
    WordIs(c.mem, 0xFFF8);
  }

  /** SWI sets I and F and takes the word at $FFFA; SWI2 and SWI3 mask nothing. Both stack everything. */
  lemma Software(c: Cpu, vec: u16)
    ensures var d := AfterSwi(c);
      && HoldsWhole(d, c.r, c.r.cc.(e := true)) && d.r.pc == WordAt(d.mem, 0xFFFA)
      && d.r.cc == c.r.cc.(e := true, i := true, f := true)
      && d.cycles == c.cycles + (if c.r.md % 2 == 1 then 21 else 19)
    ensures var d := AfterSwi23(c, vec);
      && HoldsWhole(d, c.r, c.r.cc.(e := true)) && d.r.pc == WordAt(d.mem, vec) && d.r.cc == c.r.cc.(e := true)
      && d.cycles == c.cycles + (if c.r.md % 2 == 1 then 22 else 20)
  {
    hide PushBytes, Whole, HoldsWhole, WordAt, Read16;
    var d := c.(r := c.r.(cc := c.r.cc.(e := true)));
    WordIs(AfterSwi(c).mem, 0xFFFA);
    WordIs(AfterSwi23(c, vec).mem, vec);
    WholeHolds(d, AfterSwi(c));
    WholeHolds(d, AfterSwi23(c, vec));
    SameHolds(AfterSwi(c), d.r, c.r, d.r.cc);
    SameHolds(AfterSwi23(c, vec), d.r, c.r, d.r.cc);
  }

  /** The trap stacks everything, sets I and F and takes the word at $FFF0. */
  lemma TrapEntry(c: Cpu, bit: u8)
    requires bit == MD_IL || bit == MD_D0
    ensures var d := AfterTrap(c, bit);
      && HoldsWhole(d, c.r, c.r.cc.(e := true)) && d.r.pc == WordAt(d.mem, 0xFFF0)
      && d.r.cc == c.r.cc.(e := true, i := true, f := true) && !d.busy
      && d.cycles == c.cycles + (if c.r.md % 2 == 1 then 19 else 17)
  {
    hide PushBytes, Whole, HoldsWhole, WordAt, Read16;
    TrapMd(c, bit);
    var d := c.(r := c.r.(cc := c.r.cc.(e := true), md := AfterTrap(c, bit).r.md), busy := false);
    WordIs(AfterTrap(c, bit).mem, 0xFFF0);
    WholeHolds(d, AfterTrap(c, bit));
    SameMode(AfterTrap(c, bit), d.r, c.r, d.r.cc);
  }

  lemma SameMode(e: Cpu, r: Regs, q: Regs, cc: Flags)
    requires r == q.(cc := r.cc, md := r.md) && r.md % 2 == q.md % 2
    ensures HoldsWhole(e, r, cc) ==> HoldsWhole(e, q, cc)
  {
  }

  /** CWAI clears the condition codes whose bit of its operand is clear, stacks everything with E set, and waits. */
  lemma Waiting(c: Cpu, keep: Flags)
    ensures var d, cc := AfterCwai(c, Code(keep)), c.r.cc;
      var left := Flags(true, cc.f && keep.f, cc.h && keep.h, cc.i && keep.i, cc.n && keep.n, cc.z && keep.z,
                        cc.v && keep.v, cc.c && keep.c);
      && HoldsWhole(d, c.r, left) && d.r.cc == left && d.wait && d.cwai && d.r.pc == c.r.pc
      && d.cycles == c.cycles + (if c.r.md % 2 == 1 then 22 else 20)
  {
    hide PushBytes, Whole, HoldsWhole, CcByte, CcFlags, Code;
    CodeIs(keep);
    CcRoundTrip(keep);
    var d := c.(r := c.r.(cc := Masked(c.r.cc, Code(keep)).(e := true)));
    WholeHolds(d, AfterCwai(c, Code(keep)));
    SameHolds(AfterCwai(c, Code(keep)), d.r, c.r, d.r.cc);
  }

  /** The run loop looks further than the next instruction exactly when the CPU is halted or waiting or an
      interrupt would be taken. */
  lemma CalmIff(c: Loop.Core, k: Cpu, l: Lines)
    requires k.r == c.r && k.wait == c.lines.waiting
    requires (c.lines.nmi <==> l.nmi && l.nmiArmed) && c.lines.firq == l.firq && c.lines.irq == l.irq
    ensures Loop.Calm(c) <==> !c.lines.halted && !k.wait && Chosen(k, l) == NoInterrupt
  {
  }
}
