/** Interrupt entry, software interrupts, CWAI and RTI of the HD6309
    (src/core/mc6809_core_impl.h, src/core/hd6309_ops.h), over flat RAM.

    Entry stacks some registers, RTI unstacks them; the theorems say that whatever the handler does
    with the registers, RTI brings back every stacked one. */
module Interrupts {
  import opened Words
  import opened Hd6309

  type Mem = m: seq<u8> | |m| == 0x1_0000 witness seq(0x1_0000, _ => 0)

  /** The CPU; `busy` and `busyPc` are the part-done TFM. */
  datatype Cpu = Cpu(r: Regs, mem: Mem, cycles: int, wait: bool, cwai: bool, busy: bool, busyPc: u16)

  datatype Lines = Lines(nmi: bool, nmiArmed: bool, firq: bool, irq: bool)

  const VEC_TRAP: u16 := 0xFFF0
  const VEC_FIRQ: u16 := 0xFFF6
  const VEC_IRQ: u16 := 0xFFF8
  const VEC_SWI: u16 := 0xFFFA
  const VEC_NMI: u16 := 0xFFFC

  // ------------------------------------------------------------------
  // The condition code as a byte
  // ------------------------------------------------------------------

  function B(b: bool, weight: nat): nat { if b then weight else 0 }

  // Four flags, highest first.
  function Nibble(p: bool, q: bool, r: bool, t: bool): (n: nat)
    ensures n < 16
  {
    B(p, 8) + B(q, 4) + B(r, 2) + B(t, 1)
  }

  lemma NibbleBits(p: bool, q: bool, r: bool, t: bool)
    ensures var n := Nibble(p, q, r, t);
      && (n / 8 == 1 <==> p) && (n / 4 % 2 == 1 <==> q) && (n / 2 % 2 == 1 <==> r) && (n % 2 == 1 <==> t)
  {
  }

  function CcByte(f: Flags): u8 { Nibble(f.e, f.f, f.h, f.i) * 16 + Nibble(f.n, f.z, f.v, f.c) }

  function CcFlags(b: u8): Flags {
    var hi, lo := b / 16, b % 16;
    Flags(hi / 8 == 1, hi / 4 % 2 == 1, hi / 2 % 2 == 1, hi % 2 == 1,
          lo / 8 == 1, lo / 4 % 2 == 1, lo / 2 % 2 == 1, lo % 2 == 1)
  }

  lemma CcRoundTrip(f: Flags)
    ensures CcFlags(CcByte(f)) == f
  {
    hide Nibble;
    NibbleBits(f.e, f.f, f.h, f.i);
    NibbleBits(f.n, f.z, f.v, f.c);
    SplitByte(Nibble(f.e, f.f, f.h, f.i), Nibble(f.n, f.z, f.v, f.c));
  }

  lemma SplitByte(hi: nat, lo: nat)
    requires hi < 16 && lo < 16
    ensures (hi * 16 + lo) / 16 == hi && (hi * 16 + lo) % 16 == lo
  {
  }

  // `cc &= imm`
  function Masked(f: Flags, imm: u8): Flags {
    var m := CcFlags(imm);
    Flags(f.e && m.e, f.f && m.f, f.h && m.h, f.i && m.i, f.n && m.n, f.z && m.z, f.v && m.v, f.c && m.c)
  }

  // ------------------------------------------------------------------
  // The stack
  // ------------------------------------------------------------------

  /** Memory after pushing `bytes`, in order, from stack pointer `s`. */
  function PushBytes(m: Mem, s: u16, bytes: seq<u8>): Mem {
    if bytes == [] then m
    else PushBytes(m, s, bytes[..|bytes| - 1])[W16(s - |bytes|) := bytes[|bytes| - 1]]
  }

  lemma PushMore(m: Mem, s: u16, bytes: seq<u8>, v: u8)
    ensures PushBytes(m, s, bytes + [v]) == PushBytes(m, s, bytes)[W16(s - |bytes| - 1) := v]
  {
    assert (bytes + [v])[..|bytes|] == bytes;
  }

  function Below(s: u16, j: nat): u16 { W16(s - j) }

  lemma Apart(s: u16, i: nat, j: nat)
    requires i < j < i + 0x1_0000
    ensures W16(s - i) != W16(s - j)
  {
  }

  /** The byte pushed `j`-th lies `j` below the old stack pointer, wraparound included. */
  lemma {:induction false} PushedAt(m: Mem, s: u16, bytes: seq<u8>, j: nat)
    requires 1 <= j <= |bytes| < 0x1_0000
    ensures PushBytes(m, s, bytes)[W16(s - j)] == bytes[j - 1]
    decreases |bytes|
  {
    if j < |bytes| {
      Apart(s, j, |bytes|);
      PushedAt(m, s, bytes[..|bytes| - 1], j);
    }
  }

  /** Nothing but the stacked bytes changes. */
  lemma {:induction false} PushedElsewhere(m: Mem, s: u16, bytes: seq<u8>, a: u16)
    requires forall j: nat :: 1 <= j <= |bytes| ==> a != Below(s, j)
    ensures PushBytes(m, s, bytes)[a] == m[a]
    decreases |bytes|
  {
    if bytes != [] {
      assert a != Below(s, |bytes|);
      PushedElsewhere(m, s, bytes[..|bytes| - 1], a);
    }
  }

  /** The whole state, in the order it is pushed. */
  function Whole(r: Regs): seq<u8> {
    [Lo(r.pc), Hi(r.pc), Lo(r.u), Hi(r.u), Lo(r.y), Hi(r.y), Lo(r.x), Hi(r.x), r.dp]
    + (if Native(r) then [Lo(r.w), Hi(r.w)] else [])
    + [r.b, r.a, CcByte(r.cc)]
  }

  function Short(r: Regs): seq<u8> { [Lo(r.pc), Hi(r.pc), CcByte(r.cc)] }

  function Stack(c: Cpu, bytes: seq<u8>): Cpu {
    c.(r := c.r.(s := W16(c.r.s - |bytes|)), mem := PushBytes(c.mem, c.r.s, bytes))
  }

  function StackWhole(c: Cpu): Cpu {
    var d := c.(r := c.r.(cc := c.r.cc.(e := true)));
    Stack(d, Whole(d.r)).(cycles := c.cycles + B(Native(c.r), 2))
  }

  function StackShort(c: Cpu): Cpu {
    var d := c.(r := c.r.(cc := c.r.cc.(e := false)));
    Stack(d, Short(d.r))
  }

  function Read16(m: Mem, a: u16): u16 { Pair(m[a], m[W16(a + 1)]) }

  // Mask, take the vector, leave any wait.
  function Enter(c: Cpu, vec: u16, maskF: bool, cycles: int): Cpu {
    c.(r := c.r.(cc := c.r.cc.(i := true, f := c.r.cc.f || maskF), pc := Read16(c.mem, vec)),
       cycles := c.cycles + cycles, wait := false, cwai := false, busy := false)
  }

  // ------------------------------------------------------------------
  // The instructions and the dispatch
  // ------------------------------------------------------------------

  datatype Taken = Nmi | Firq | Irq | NoInterrupt

  function Chosen(c: Cpu, l: Lines): Taken {
    if l.nmi && l.nmiArmed then Nmi
    else if l.firq && !c.r.cc.f then Firq
    else if l.irq && !c.r.cc.i then Irq
    else NoInterrupt
  }

  /** `check_interrupts` */
  function Dispatch(c: Cpu, l: Lines): Cpu {
    match Chosen(c, l)
    case Nmi => if c.cwai then Enter(c, VEC_NMI, true, 7) else Enter(StackWhole(c), VEC_NMI, true, 19)
    case Firq =>
      if c.cwai then Enter(c, VEC_FIRQ, true, 7)
      else if FirqFull(c.r) then Enter(StackWhole(c), VEC_FIRQ, true, 19)
      else Enter(StackShort(c), VEC_FIRQ, true, 10)
    case Irq => if c.cwai then Enter(c, VEC_IRQ, false, 7) else Enter(StackWhole(c), VEC_IRQ, false, 19)
    case NoInterrupt => c
  }

  function AfterSwi(c: Cpu): Cpu {
    var d := StackWhole(c);
    d.(r := d.r.(cc := d.r.cc.(i := true, f := true), pc := Read16(d.mem, VEC_SWI)), cycles := d.cycles + 19)
  }

  // SWI2 and SWI3 mask nothing.
  function AfterSwi23(c: Cpu, vec: u16): Cpu {
    var d := StackWhole(c);
    d.(r := d.r.(pc := Read16(d.mem, vec)), cycles := d.cycles + 20)
  }

  /** The trap for illegal instructions (MD.IL) and division by zero (MD.D0). */
  function AfterTrap(c: Cpu, bit: u8): Cpu
    requires bit == MD_IL || bit == MD_D0
  {
    var md := if bit == MD_D0 then (if c.r.md >= 0x80 then c.r.md else c.r.md + 0x80)
              else (if c.r.md / 0x40 % 2 == 1 then c.r.md else c.r.md + 0x40);
    var d := StackWhole(c.(r := c.r.(md := md), busy := false));
    d.(r := d.r.(cc := d.r.cc.(i := true, f := true), pc := Read16(d.mem, VEC_TRAP)), cycles := d.cycles + 17)
  }

  /** CWAI: the whole state is stacked before the wait. */
  function AfterCwai(c: Cpu, imm: u8): Cpu {
    var d := StackWhole(c.(r := c.r.(cc := Masked(c.r.cc, imm))));
    d.(wait := true, cwai := true, cycles := d.cycles + 20)
  }

  function At(c: Cpu, i: nat): u8 { c.mem[W16(c.r.s + i)] }

  /** RTI: the stacked CC says how much was stacked, the mode whether W is there. */
  function AfterRti(c: Cpu): Cpu {
    var cc := CcFlags(At(c, 0));
    if !cc.e then c.(r := c.r.(cc := cc, pc := Pair(At(c, 1), At(c, 2)), s := W16(c.r.s + 3)), cycles := c.cycles + 6)
    else
      var n := if Native(c.r) then 2 else 0;
      c.(r := c.r.(cc := cc, a := At(c, 1), b := At(c, 2), w := if n == 2 then Pair(At(c, 3), At(c, 4)) else c.r.w,
                   dp := At(c, 3 + n), x := Pair(At(c, 4 + n), At(c, 5 + n)), y := Pair(At(c, 6 + n), At(c, 7 + n)),
                   u := Pair(At(c, 8 + n), At(c, 9 + n)), pc := Pair(At(c, 10 + n), At(c, 11 + n)),
                   s := W16(c.r.s + 12 + n)),
         cycles := c.cycles + 15 + n)
  }

  // ------------------------------------------------------------------
  // Entry, then RTI
  // ------------------------------------------------------------------

  /** What the handler must leave alone: the stack pointer it was entered with, MD, and the frame. */
  ghost predicate Handled(entered: Cpu, h: Cpu, frame: nat) {
    && h.r.s == entered.r.s && h.r.md == entered.r.md
    && forall i: nat | i < frame :: At(h, i) == At(entered, i)
  }

  /** Every stacked register is back; of CC only E may differ. */
  predicate Restored(before: Regs, after: Regs, e: bool, cc: Flags) {
    && after.pc == before.pc && after.s == before.s && after.cc == cc.(e := e)
    && (e ==> after.a == before.a && after.b == before.b && after.dp == before.dp
              && after.x == before.x && after.y == before.y && after.u == before.u)
    && (e && Native(before) ==> after.w == before.w)
  }

  function FrameSize(r: Regs, e: bool): nat { if !e then 3 else if Native(r) then 14 else 12 }

  lemma Stacked(c: Cpu, bytes: seq<u8>, i: nat)
    requires i < |bytes| < 0x1_0000
    ensures At(Stack(c, bytes), i) == bytes[|bytes| - 1 - i]
  {
    hide PushBytes;
    var j := |bytes| - i;
    assert W16(W16(c.r.s - |bytes|) + i) == W16(c.r.s - j);
    PushedAt(c.mem, c.r.s, bytes, j);
  }

  // A whole frame on the stack, with CC.E set in it, is unstacked register by register.
  lemma WholeBack(c: Cpu, h: Cpu)
    requires c.r.cc.e && Handled(Stack(c, Whole(c.r)), h, FrameSize(c.r, true))
    ensures Restored(c.r, AfterRti(h).r, true, c.r.cc)
  {
    hide At, AfterRti, CcByte, Stack, PushBytes, Hi, Lo;
    StackedAt(c);
    if Native(c.r) { NativeWhole(c, h); } else { PlainWhole(c, h); }
  }

  lemma StackedAt(c: Cpu)
    ensures var f := Stack(c, Whole(c.r)); f.r.md == c.r.md && f.r.s == W16(c.r.s - FrameSize(c.r, true))
    ensures forall i: nat | i < FrameSize(c.r, true) ::
              At(Stack(c, Whole(c.r)), i) == Whole(c.r)[FrameSize(c.r, true) - 1 - i]
  {
    hide At, PushBytes, W16, Hi, Lo, CcByte;
    forall i: nat | i < FrameSize(c.r, true)
      ensures At(Stack(c, Whole(c.r)), i) == Whole(c.r)[FrameSize(c.r, true) - 1 - i]
    {
      Stacked(c, Whole(c.r), i);
    }
  }

  lemma NativeWhole(c: Cpu, h: Cpu)
    requires Native(c.r) && c.r.cc.e && Handled(Stack(c, Whole(c.r)), h, 14)
    requires Stack(c, Whole(c.r)).r.md == c.r.md && Stack(c, Whole(c.r)).r.s == W16(c.r.s - 14)
    requires forall i: nat | i < 14 :: At(Stack(c, Whole(c.r)), i) == Whole(c.r)[13 - i]
    ensures Restored(c.r, AfterRti(h).r, true, c.r.cc)
  {
    hide At, CcByte, Stack, PushBytes, CcFlags, Hi, Lo, Pair, W16;
    var f := Stack(c, Whole(c.r));
    assert At(h, 0) == CcByte(c.r.cc) && At(h, 1) == c.r.a && At(h, 2) == c.r.b;
    assert At(h, 3) == Hi(c.r.w) && At(h, 4) == Lo(c.r.w) && At(h, 5) == c.r.dp;
    assert At(h, 6) == Hi(c.r.x) && At(h, 7) == Lo(c.r.x) && At(h, 8) == Hi(c.r.y) && At(h, 9) == Lo(c.r.y);
    assert At(h, 10) == Hi(c.r.u) && At(h, 11) == Lo(c.r.u) && At(h, 12) == Hi(c.r.pc) && At(h, 13) == Lo(c.r.pc);
    CcRoundTrip(c.r.cc);
    PairOf(c.r.pc); PairOf(c.r.u); PairOf(c.r.y); PairOf(c.r.x); PairOf(c.r.w);
    UpAgain(c.r.s, 14);
  }

  lemma PlainWhole(c: Cpu, h: Cpu)
    requires !Native(c.r) && c.r.cc.e && Handled(Stack(c, Whole(c.r)), h, 12)
    requires Stack(c, Whole(c.r)).r.md == c.r.md && Stack(c, Whole(c.r)).r.s == W16(c.r.s - 12)
    requires forall i: nat | i < 12 :: At(Stack(c, Whole(c.r)), i) == Whole(c.r)[11 - i]
    ensures Restored(c.r, AfterRti(h).r, true, c.r.cc)
  {
    hide At, CcByte, Stack, PushBytes, CcFlags, Hi, Lo, Pair, W16;
    assert At(h, 0) == CcByte(c.r.cc) && At(h, 1) == c.r.a && At(h, 2) == c.r.b && At(h, 3) == c.r.dp;
    assert At(h, 4) == Hi(c.r.x) && At(h, 5) == Lo(c.r.x) && At(h, 6) == Hi(c.r.y) && At(h, 7) == Lo(c.r.y);
    assert At(h, 8) == Hi(c.r.u) && At(h, 9) == Lo(c.r.u) && At(h, 10) == Hi(c.r.pc) && At(h, 11) == Lo(c.r.pc);
    CcRoundTrip(c.r.cc);
    PairOf(c.r.pc); PairOf(c.r.u); PairOf(c.r.y); PairOf(c.r.x);
    UpAgain(c.r.s, 12);
  }

  lemma UpAgain(s: u16, n: nat)
    ensures W16(W16(s - n) + n) == s
  {
  }

  lemma ShortBack(c: Cpu, h: Cpu)
    requires !c.r.cc.e && Handled(Stack(c, Short(c.r)), h, 3)
    ensures Restored(c.r, AfterRti(h).r, false, c.r.cc)
  {
    hide At, CcByte, PushBytes, CcFlags, Hi, Lo, Pair, W16;
    var bytes := Short(c.r);
    Stacked(c, bytes, 0);
    Stacked(c, bytes, 1);
    Stacked(c, bytes, 2);
    CcRoundTrip(c.r.cc);
    PairOf(c.r.pc);
    UpAgain(c.r.s, 3);
  }

  // Only a short FIRQ leaves E clear in the frame.
  predicate StacksAll(c: Cpu, l: Lines) { !(Chosen(c, l) == Firq && !FirqFull(c.r)) }

  lemma WholeThenRti(c: Cpu, entered: Cpu, h: Cpu)
    requires entered.mem == StackWhole(c).mem && entered.r.s == StackWhole(c).r.s && entered.r.md == c.r.md
    requires Handled(entered, h, FrameSize(c.r, true))
    ensures Restored(c.r, AfterRti(h).r, true, c.r.cc)
  {
    hide PushBytes, AfterRti, CcByte;
    var d := c.(r := c.r.(cc := c.r.cc.(e := true)));
    forall i: nat | i < FrameSize(c.r, true)
      ensures At(h, i) == At(Stack(d, Whole(d.r)), i)
    {
      assert At(h, i) == At(entered, i);
    }
    WholeBack(d, h);
  }

  /** Hardware interrupts: whatever the handler does with the registers, RTI brings back every stacked
      one and the stack pointer; of CC only E is changed, to say what was stacked. In emulation and
      in native mode, for every stack pointer. */
  lemma InterruptThenRti(c: Cpu, l: Lines, h: Cpu)
    requires !c.cwai && Chosen(c, l) != NoInterrupt
    requires Handled(Dispatch(c, l), h, FrameSize(c.r, StacksAll(c, l)))
    ensures Restored(c.r, AfterRti(h).r, StacksAll(c, l), c.r.cc)
  {
    hide PushBytes, AfterRti, Whole, Short, At;
    if StacksAll(c, l) {
      WholeThenRti(c, Dispatch(c, l), h);
    } else {
      var d := c.(r := c.r.(cc := c.r.cc.(e := false)));
      var f := Dispatch(c, l);
      forall i: nat | i < 3
        ensures At(h, i) == At(Stack(d, Short(d.r)), i)
      {
        assert At(h, i) == At(f, i);
        SameAt(f, Stack(d, Short(d.r)), i);
      }
      ShortBack(d, h);
    }
  }

  lemma SameAt(a: Cpu, b: Cpu, i: nat)
    requires a.mem == b.mem && a.r.s == b.r.s
    ensures At(a, i) == At(b, i)
  {
  }

  /** The same for SWI. */
  lemma SwiThenRti(c: Cpu, h: Cpu)
    requires Handled(AfterSwi(c), h, FrameSize(c.r, true))
    ensures Restored(c.r, AfterRti(h).r, true, c.r.cc)
  {
    hide PushBytes, AfterRti, Whole, At;
    WholeThenRti(c, AfterSwi(c), h);
  }

  /** The same for SWI2 and SWI3. */
  lemma Swi23ThenRti(c: Cpu, h: Cpu, vec: u16)
    requires Handled(AfterSwi23(c, vec), h, FrameSize(c.r, true))
    ensures Restored(c.r, AfterRti(h).r, true, c.r.cc)
  {
    hide PushBytes, AfterRti, Whole, At;
    WholeThenRti(c, AfterSwi23(c, vec), h);
  }

  /** The same for the trap; MD keeps the cause. */
  lemma TrapThenRti(c: Cpu, bit: u8, h: Cpu)
    requires bit == MD_IL || bit == MD_D0
    requires Handled(AfterTrap(c, bit), h, FrameSize(c.r, true))
    ensures Restored(c.r, AfterRti(h).r, true, c.r.cc)
    ensures AfterTrap(c, bit).r.md / bit % 2 == 1 && AfterTrap(c, bit).r.md % 0x40 == c.r.md % 0x40
  {
    hide PushBytes, AfterRti, Whole, At;
    TrapMd(c, bit);
    var d := c.(r := c.r.(md := AfterTrap(c, bit).r.md), busy := false);
    WholeThenRti(d, AfterTrap(c, bit), h);
  }

  lemma TrapMd(c: Cpu, bit: u8)
    requires bit == MD_IL || bit == MD_D0
    ensures var md := AfterTrap(c, bit).r.md; md / bit % 2 == 1 && md % 0x40 == c.r.md % 0x40 && md % 2 == c.r.md % 2
  {
    hide PushBytes, Whole;
  }

  /** CWAI stacks first; the interrupt that ends the wait stacks nothing more, a FIRQ included, and
      RTI brings everything back as it was at the CWAI, CC having been masked by it. */
  lemma CwaiThenRti(c: Cpu, imm: u8, l: Lines, h: Cpu)
    requires Chosen(AfterCwai(c, imm), l) != NoInterrupt
    requires Handled(Dispatch(AfterCwai(c, imm), l), h, FrameSize(c.r, true))
    ensures Restored(c.r, AfterRti(h).r, true, Masked(c.r.cc, imm))
    ensures Dispatch(AfterCwai(c, imm), l).r.s == AfterCwai(c, imm).r.s && !Dispatch(AfterCwai(c, imm), l).wait
  {
    hide PushBytes, AfterRti, Whole, At, Masked;
    var d := c.(r := c.r.(cc := Masked(c.r.cc, imm)));
    WholeThenRti(d, Dispatch(AfterCwai(c, imm), l), h);
  }

  // Bytes an entry stacks: none after CWAI or when nothing is taken.
  function Stacks(c: Cpu, l: Lines): nat {
    if c.cwai || Chosen(c, l) == NoInterrupt then 0 else FrameSize(c.r, StacksAll(c, l))
  }

  /** Entry changes no memory outside the frame it stacks: 14 bytes, 12, 3 or none. */
  lemma EntryWritesFrameOnly(c: Cpu, l: Lines, a: u16)
    requires forall j: nat :: 1 <= j <= Stacks(c, l) ==> a != Below(c.r.s, j)
    ensures Dispatch(c, l).mem[a] == c.mem[a]
  {
    hide PushBytes;
    if Stacks(c, l) > 0 {
      if StacksAll(c, l) {
        var d := c.(r := c.r.(cc := c.r.cc.(e := true)));
        PushedElsewhere(c.mem, c.r.s, Whole(d.r), a);
      } else {
        var d := c.(r := c.r.(cc := c.r.cc.(e := false)));
        PushedElsewhere(c.mem, c.r.s, Short(d.r), a);
      }
    }
  }

  // ------------------------------------------------------------------
  // The code
  // ------------------------------------------------------------------

  class Core {
    var r: Regs
    const mem: array<u8>
    var cycles: int
    var wait: bool
    var cwai: bool
    var busy: bool
    var busyPc: u16
    var lines: Lines

    ghost predicate Valid() { mem.Length == 0x1_0000 }

    ghost function State(): Cpu
      requires Valid()
      reads this, mem
    {
      Cpu(r, mem[..], cycles, wait, cwai, busy, busyPc)
    }

    method Push8(v: u8, ghost m: Mem, ghost s: u16, ghost bytes: seq<u8>)
      requires Valid() && mem[..] == PushBytes(m, s, bytes) && r.s == W16(s - |bytes|)
      modifies mem, this`r
      ensures mem[..] == PushBytes(m, s, bytes + [v]) && r == old(r).(s := W16(s - |bytes + [v]|))
    {
      hide PushBytes;
      PushMore(m, s, bytes, v);
      OneDown(s, |bytes|);
      r := r.(s := W16(r.s - 1));
      mem[r.s] := v;
    }

    // The low byte first, so that the word lies high byte first.
    method Push16(v: u16, ghost m: Mem, ghost s: u16, ghost bytes: seq<u8>)
      requires Valid() && mem[..] == PushBytes(m, s, bytes) && r.s == W16(s - |bytes|)
      modifies mem, this`r
      ensures mem[..] == PushBytes(m, s, bytes + [Lo(v), Hi(v)]) && r == old(r).(s := W16(s - |bytes + [Lo(v), Hi(v)]|))
    {
      hide PushBytes, Lo, Hi, W16;
      Push8(Lo(v), m, s, bytes);
      Push8(Hi(v), m, s, bytes + [Lo(v)]);
      assert bytes + [Lo(v)] + [Hi(v)] == bytes + [Lo(v), Hi(v)];
    }

    // PC, U, Y and X.
    method PushWords(ghost m: Mem, ghost s: u16)
      requires Valid() && mem[..] == m && r.s == s
      modifies mem, this`r
      ensures mem[..] == PushBytes(m, s, WordBytes(r)) && r == old(r).(s := W16(s - 8))
    {
      hide PushBytes, Lo, Hi, W16;
      NoneDown(s);
      Nothing(m, s);
      Push16(r.pc, m, s, []);
      ghost var t := [] + [Lo(r.pc), Hi(r.pc)];
      Push16(r.u, m, s, t);
      t := t + [Lo(r.u), Hi(r.u)];
      Push16(r.y, m, s, t);
      t := t + [Lo(r.y), Hi(r.y)];
      Push16(r.x, m, s, t);
      t := t + [Lo(r.x), Hi(r.x)];
      assert t == WordBytes(r);
    }

    // DP and, in native mode, W.
    method PushMiddle(ghost m: Mem, ghost s: u16, ghost t0: seq<u8>)
      requires Valid() && mem[..] == PushBytes(m, s, t0) && r.s == W16(s - |t0|)
      modifies mem, this`r, this`cycles
      ensures mem[..] == PushBytes(m, s, t0 + MiddleBytes(r)) && r == old(r).(s := W16(s - |t0 + MiddleBytes(r)|))
      ensures cycles == old(cycles) + B(Native(r), 2)
    {
      hide PushBytes, Lo, Hi, W16, Native;
      var native := Native(r);
      Push8(r.dp, m, s, t0);
      ghost var t := t0 + [r.dp];
      if native {
        Push8(Lo(r.w), m, s, t);
        t := t + [Lo(r.w)];
        Push8(Hi(r.w), m, s, t);
        t := t + [Hi(r.w)];
        cycles := cycles + 2;
      }
      SameMode(old(r), r);
      assert t == t0 + ([r.dp] + (if Native(r) then [Lo(r.w), Hi(r.w)] else []));
    }

    // B, A and CC.
    method PushBytesAtTop(ghost m: Mem, ghost s: u16, ghost t0: seq<u8>)
      requires Valid() && mem[..] == PushBytes(m, s, t0) && r.s == W16(s - |t0|)
      modifies mem, this`r
      ensures mem[..] == PushBytes(m, s, t0 + [r.b, r.a, CcByte(r.cc)]) && r == old(r).(s := W16(s - |t0| - 3))
    {
      hide PushBytes, W16, CcByte;
      Push8(r.b, m, s, t0);
      Push8(r.a, m, s, t0 + [r.b]);
      Push8(CcByte(r.cc), m, s, t0 + [r.b] + [r.a]);
      assert t0 + [r.b] + [r.a] + [CcByte(r.cc)] == t0 + [r.b, r.a, CcByte(r.cc)];
    }

    /** The whole state, E set. */
    method PushWhole()
      requires Valid()
      modifies mem, this`r, this`cycles
      ensures State() == StackWhole(old(State()))
    {
      hide PushBytes, WordBytes, MiddleBytes, CcByte, W16, Native;
      ghost var m, s := mem[..], r.s;
      r := r.(cc := r.cc.(e := true));
      ghost var d := r;
      PushWords(m, s);
      WordsAre(d, r);
      PushMiddle(m, s, WordBytes(d));
      WordsAre(d, r);
      PushBytesAtTop(m, s, WordBytes(d) + MiddleBytes(d));
      WholeIs(d);
      SameMode(old(r), d);
    }

    method PushShort()
      requires Valid()
      modifies mem, this`r
      ensures State() == StackShort(old(State()))
    {
      hide PushBytes, CcByte, W16, Lo, Hi;
      ghost var m, s := mem[..], r.s;
      r := r.(cc := r.cc.(e := false));
      NoneDown(s);
      Nothing(m, s);
      Push16(r.pc, m, s, []);
      Push8(CcByte(r.cc), m, s, [] + [Lo(r.pc), Hi(r.pc)]);
      assert [] + [Lo(r.pc), Hi(r.pc)] + [CcByte(r.cc)] == Short(r);
    }

    method ReadVector(a: u16) returns (v: u16)
      requires Valid()
      ensures v == Read16(mem[..], a)
    {
      v := Pair(mem[a], mem[W16(a + 1)]);
    }

    /** `check_interrupts`: NMI, then FIRQ, then IRQ. */
    method CheckInterrupts()
      requires Valid()
      modifies mem, this
      ensures State() == Dispatch(old(State()), old(lines))
      ensures lines == if old(lines).nmi && old(lines).nmiArmed then old(lines).(nmi := false) else old(lines)
    {
      hide StackWhole, StackShort, Read16, FirqFull;
      if lines.nmi && lines.nmiArmed {
        lines := lines.(nmi := false);
        TakeInterrupt(VEC_NMI, true, false);
        return;
      }
      if lines.firq && !r.cc.f {
        TakeInterrupt(VEC_FIRQ, true, !FirqFull(r));
        return;
      }
      if lines.irq && !r.cc.i {
        TakeInterrupt(VEC_IRQ, false, false);
      }
    }

    // Stack unless CWAI has, then enter.
    method TakeInterrupt(vec: u16, maskF: bool, short: bool)
      requires Valid()
      modifies mem, this`r, this`cycles, this`wait, this`cwai, this`busy
      ensures State() == (
                var c := old(State());
                if c.cwai then Enter(c, vec, maskF, 7)
                else if short then Enter(StackShort(c), vec, maskF, 10) else Enter(StackWhole(c), vec, maskF, 19))
    {
      hide StackWhole, StackShort, Read16;
      if !cwai {
        if short {
          PushShort();
          cycles := cycles + 10;
        } else {
          PushWhole();
          cycles := cycles + 19;
        }
      } else {
        cycles := cycles + 7;
      }
      r := r.(cc := r.cc.(i := true, f := r.cc.f || maskF));
      var v := ReadVector(vec);
      r := r.(pc := v);
      wait := false;
      cwai := false;
      busy := false;
    }

    method Swi()
      requires Valid()
      modifies mem, this`r, this`cycles
      ensures State() == AfterSwi(old(State()))
    {
      hide StackWhole, Read16;
      PushWhole();
      r := r.(cc := r.cc.(i := true, f := true));
      var v := ReadVector(VEC_SWI);
      r := r.(pc := v);
      cycles := cycles + 19;
    }

    method Swi23(vec: u16)
      requires Valid()
      modifies mem, this`r, this`cycles
      ensures State() == AfterSwi23(old(State()), vec)
    {
      hide StackWhole, Read16;
      PushWhole();
      var v := ReadVector(vec);
      r := r.(pc := v);
      cycles := cycles + 20;
    }

    /** `hd6309_trap` */
    method Trap(bit: u8)
      requires Valid() && (bit == MD_IL || bit == MD_D0)
      modifies mem, this`r, this`cycles, this`busy
      ensures State() == AfterTrap(old(State()), bit)
    {
      hide StackWhole, Read16;
      if bit == MD_D0 {
        if r.md < 0x80 { r := r.(md := r.md + 0x80); }
      } else if r.md / 0x40 % 2 != 1 {
        r := r.(md := r.md + 0x40);
      }
      busy := false;
      PushWhole();
      r := r.(cc := r.cc.(i := true, f := true));
      var v := ReadVector(VEC_TRAP);
      r := r.(pc := v);
      cycles := cycles + 17;
    }

    /** CWAI, its immediate already fetched. */
    method Cwai(imm: u8)
      requires Valid()
      modifies mem, this`r, this`cycles, this`wait, this`cwai
      ensures State() == AfterCwai(old(State()), imm)
    {
      hide StackWhole, Masked;
      r := r.(cc := Masked(r.cc, imm));
      PushWhole();
      wait := true;
      cwai := true;
      cycles := cycles + 20;
    }

    method Pull8(ghost c: Cpu, ghost i: nat) returns (v: u8)
      requires Valid() && mem[..] == c.mem && r.s == W16(c.r.s + i)
      modifies this`r
      ensures v == At(c, i) && r == old(r).(s := W16(c.r.s + i + 1))
    {
      OneUp(c.r.s, i);
      v := mem[r.s];
      r := r.(s := W16(r.s + 1));
    }

    method Pull16(ghost c: Cpu, ghost i: nat) returns (v: u16)
      requires Valid() && mem[..] == c.mem && r.s == W16(c.r.s + i)
      modifies this`r
      ensures v == Pair(At(c, i), At(c, i + 1)) && r == old(r).(s := W16(c.r.s + i + 2))
    {
      hide At, W16;
      var hi := Pull8(c, i);
      var lo := Pull8(c, i + 1);
      v := Pair(hi, lo);
    }

    // The registers above CC in a whole frame, down to the pointers.
    method PullHead(ghost c: Cpu) returns (ghost n: nat)
      requires Valid() && mem[..] == c.mem && r == c.r.(cc := r.cc, s := W16(c.r.s + 1))
      modifies this`r, this`cycles
      ensures n == (if Native(c.r) then 2 else 0) && cycles == old(cycles) + n
      ensures r == c.r.(cc := old(r).cc, s := W16(c.r.s + 4 + n), a := At(c, 1), b := At(c, 2),
                        w := if n == 2 then Pair(At(c, 3), At(c, 4)) else c.r.w, dp := At(c, 3 + n))
    {
      hide At, W16, Native;
      var a := Pull8(c, 1);
      r := r.(a := a);
      var b := Pull8(c, 2);
      r := r.(b := b);
      n := 0;
      SameMode(c.r, r);
      if Native(r) {
        var w := Pull16(c, 3);
        r := r.(w := w);
        n := 2;
        cycles := cycles + 2;
      }
      var dp := Pull8(c, 3 + n);
      r := r.(dp := dp);
    }

    method PullPointers(ghost c: Cpu, ghost i: nat)
      requires Valid() && mem[..] == c.mem && r.s == W16(c.r.s + i)
      modifies this`r
      ensures r == old(r).(x := Pair(At(c, i), At(c, i + 1)), y := Pair(At(c, i + 2), At(c, i + 3)),
                           u := Pair(At(c, i + 4), At(c, i + 5)), pc := Pair(At(c, i + 6), At(c, i + 7)),
                           s := W16(c.r.s + i + 8))
    {
      hide At, W16, Pair;
      var x := Pull16(c, i);
      r := r.(x := x);
      var y := Pull16(c, i + 2);
      r := r.(y := y);
      var u := Pull16(c, i + 4);
      r := r.(u := u);
      var pc := Pull16(c, i + 6);
      r := r.(pc := pc);
    }

    method Rti()
      requires Valid()
      modifies this`r, this`cycles
      ensures State() == AfterRti(old(State()))
    {
      hide At, W16, CcFlags, Pair, Native;
      ghost var c := State();
      NoneUp(r.s);
      var cc := Pull8(c, 0);
      r := r.(cc := CcFlags(cc));
      if r.cc.e {
        ghost var n := PullHead(c);
        PullPointers(c, 4 + n);
        cycles := cycles + 15;
      } else {
        var pc := Pull16(c, 1);
        r := r.(pc := pc);
        cycles := cycles + 6;
      }
    }
  }

  function WordBytes(r: Regs): seq<u8> {
    [Lo(r.pc), Hi(r.pc), Lo(r.u), Hi(r.u), Lo(r.y), Hi(r.y), Lo(r.x), Hi(r.x)]
  }

  function MiddleBytes(r: Regs): seq<u8> { [r.dp] + (if Native(r) then [Lo(r.w), Hi(r.w)] else []) }

  lemma WordsAre(d: Regs, r: Regs)
    requires r == d.(s := r.s)
    ensures WordBytes(r) == WordBytes(d) && |WordBytes(d)| == 8 && MiddleBytes(r) == MiddleBytes(d)
    ensures Native(d) == Native(r)
  {
  }

  lemma WholeIs(r: Regs)
    ensures Whole(r) == WordBytes(r) + MiddleBytes(r) + [r.b, r.a, CcByte(r.cc)]
  {
  }

  lemma SameMode(a: Regs, b: Regs)
    requires a.md == b.md
    ensures Native(a) == Native(b)
  {
  }

  lemma OneUp(s: u16, n: nat)
    ensures W16(W16(s + n) + 1) == W16(s + n + 1)
  {
  }

  lemma NoneUp(s: u16)
    ensures W16(s + 0) == s
  {
  }

  lemma OneDown(s: u16, n: nat)
    ensures W16(W16(s - n) - 1) == W16(s - n - 1)
  {
  }

  lemma NoneDown(s: u16)
    ensures W16(s - 0) == s
  {
  }

  lemma Nothing(m: Mem, s: u16)
    ensures PushBytes(m, s, []) == m
  {
  }
}
