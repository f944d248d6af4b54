/** TFM, the restartable block transfer of the HD6309 (src/core/hd6309_ops.h).

    The instruction moves one byte per execution and rewinds PC to itself while W is not zero, so that
    interrupts and the end of a cycle budget fall between bytes. The theorem: however it is cut up,
    it is a sequential transfer of W bytes. Memory is flat RAM. */
module Tfm {
  import opened Words
  import opened Hd6309
  import opened Interrupts

  type Reg = i: nat | i < 5         // D, X, Y, U, S

  function Get(r: Regs, i: Reg): u16 {
    match i
    case 0 => r.D()
    case 1 => r.x
    case 2 => r.y
    case 3 => r.u
    case _ => r.s
  }

  function Put(r: Regs, i: Reg, v: u16): Regs {
    match i
    case 0 => r.SetD(v)
    case 1 => r.(x := v)
    case 2 => r.(y := v)
    case 3 => r.(u := v)
    case _ => r.(s := v)
  }

  lemma PutGet(r: Regs, i: Reg, v: u16, j: Reg)
    ensures Get(Put(r, i, v), j) == if i == j then v else Get(r, j)
    ensures Put(r, i, v).w == r.w && Put(r, i, v).pc == r.pc && Put(r, i, v).cc == r.cc && Put(r, i, v).md == r.md
  {
    PairOf(v);
  }

  // Source and destination step of the four modes: r0+,r1+  r0-,r1-  r0+,r1  r0,r1+.
  function SrcStep(op: u8): int { match op % 4 case 0 => 1 case 1 => -1 case 2 => 1 case _ => 0 }

  function DstStep(op: u8): int { match op % 4 case 0 => 1 case 1 => -1 case 2 => 0 case _ => 1 }

  predicate IsTfm(op: u8) { 0x38 <= op <= 0x3B }

  // ------------------------------------------------------------------
  // One execution
  // ------------------------------------------------------------------

  // Prefix bytes from offset `i` of the instruction on.
  function Prefixes(m: Mem, at: u16, i: nat): (k: nat)
    ensures k >= i
    decreases 0x1_0000 - i
  {
    if i < 0x1_0000 && (m[W16(at + i)] == 0x10 || m[W16(at + i)] == 0x11) then Prefixes(m, at, i + 1) else i
  }

  /** Advance the registers by one byte, as the four cases do: source first, then destination. */
  function Advance(r: Regs, op: u8, sc: Reg, dc: Reg): Regs {
    var a := Put(r, sc, W16(Get(r, sc) + SrcStep(op)));
    Put(a, dc, W16(Get(a, dc) + DstStep(op)))
  }

  // Setup on a fresh start; a resumed pass takes back the cycles of the repeated prefixes.
  function Begin(c: Cpu, extra: nat): Cpu {
    var at := c.r.pc;
    var d := c.(r := c.r.(pc := W16(at + extra + 3)), cycles := c.cycles + extra);
    if c.busy && c.busyPc == at then d.(cycles := d.cycles - extra)
    else d.(r := d.r.(cc := d.r.cc.(z := false)), cycles := d.cycles + 6, busy := true, busyPc := at)
  }

  function Finish(c: Cpu): Cpu { c.(r := c.r.(cc := c.r.cc.(z := true)), busy := false) }

  // One byte, then back to the instruction at `at` unless it was the last.
  function Move(d: Cpu, at: u16, op: u8, sc: Reg, dc: Reg): Cpu
    requires d.r.w > 0
  {
    var e := d.(mem := d.mem[Get(d.r, dc) := d.mem[Get(d.r, sc)]],
                r := Advance(d.r, op, sc, dc).(w := d.r.w - 1), cycles := d.cycles + 3);
    if e.r.w != 0 then e.(r := e.r.(pc := at)) else Finish(e)
  }

  /** `h_tfm` for the instruction at PC with `extra` repeated prefix bytes. */
  function Pass(c: Cpu, extra: nat, op: u8, post: u8): Cpu {
    var at := c.r.pc;
    var d := Begin(c, extra);
    var sc, dc := post / 16, post % 16;
    if sc > 4 || dc > 4 then AfterTrap(d, MD_IL)
    else if d.r.w == 0 then Finish(d)
    else Move(d, at, op, sc, dc)
  }

  /** Execute the instruction at PC when it is a TFM. */
  function Exec(c: Cpu): Option<Cpu> {
    var at, m := c.r.pc, c.mem;
    if m[at] != 0x11 then None
    else
      var k := Prefixes(m, at, 1);
      if k >= 0x1_0000 - 2 || !IsTfm(m[W16(at + k)]) then None
      else Some(Pass(c, k - 1, m[W16(at + k)], m[W16(at + k + 1)]))
  }

  /** The instruction at `at`: $11, `extra` more prefix bytes, the opcode, the postbyte. */
  ghost predicate Instruction(m: Mem, at: u16, extra: nat, op: u8, post: u8) {
    && extra + 3 < 0x1_0000 && IsTfm(op)
    && m[at] == 0x11 && (forall i: nat | 1 <= i <= extra :: Byte(m, at, i) == 0x10 || Byte(m, at, i) == 0x11)
    && Byte(m, at, extra + 1) == op && Byte(m, at, extra + 2) == post
  }

  function Byte(m: Mem, at: u16, i: nat): u8 { m[W16(at + i)] }

  lemma {:induction false} PrefixesAre(m: Mem, at: u16, extra: nat, op: u8, post: u8, i: nat)
    requires Instruction(m, at, extra, op, post) && 1 <= i <= extra + 1
    ensures Prefixes(m, at, i) == extra + 1
    decreases extra + 1 - i
  {
    if i <= extra {
      assert Byte(m, at, i) == 0x10 || Byte(m, at, i) == 0x11;
      PrefixesAre(m, at, extra, op, post, i + 1);
    } else {
      assert Byte(m, at, i) == op;
    }
  }

  lemma ExecIs(c: Cpu, extra: nat, op: u8, post: u8)
    requires Instruction(c.mem, c.r.pc, extra, op, post)
    ensures Exec(c) == Some(Pass(c, extra, op, post))
  {
    hide Pass, Prefixes;
    PrefixesAre(c.mem, c.r.pc, extra, op, post, 1);
    assert Byte(c.mem, c.r.pc, extra + 1) == op && Byte(c.mem, c.r.pc, extra + 2) == post;
  }

  // ------------------------------------------------------------------
  // The reference: W bytes, one after the other
  // ------------------------------------------------------------------

  /** Memory after copying `n` bytes in order, the addresses moving by fixed steps. */
  function Copy(m: Mem, s: int, ds: int, d: int, dd: int, n: nat): Mem {
    if n == 0 then m
    else
      var p := Copy(m, s, ds, d, dd, n - 1);
      p[W16(d + dd * (n - 1)) := p[W16(s + ds * (n - 1))]]
  }

  // With one register as both, it moves by both steps and the byte is copied onto itself.
  function Ds(op: u8, sc: Reg, dc: Reg): int { if sc == dc then SrcStep(op) + DstStep(op) else SrcStep(op) }

  function Dd(op: u8, sc: Reg, dc: Reg): int { if sc == dc then SrcStep(op) + DstStep(op) else DstStep(op) }

  /** Registers after `n` bytes of a transfer that began with `r`. */
  function RegsAfter(r: Regs, op: u8, sc: Reg, dc: Reg, n: nat): Regs {
    var a := Put(r, sc, W16(Get(r, sc) + Ds(op, sc, dc) * n));
    Put(a, dc, W16(Get(r, dc) + Dd(op, sc, dc) * n))
  }

  lemma StepOn(a: u16, d: int, n: nat)
    ensures W16(W16(a + d * n) + d) == W16(a + d * (n + 1))
  {
    assert d * (n + 1) == d * n + d;
  }

  lemma StepTwice(a: u16, p: int, q: int)
    ensures W16(W16(a + p) + q) == W16(a + (p + q))
  {
  }

  lemma PutLaws(r: Regs, i: Reg, j: Reg, u: u16, v: u16)
    ensures Put(Put(r, i, u), i, v) == Put(r, i, v)
    ensures i != j ==> Put(Put(r, i, u), j, v) == Put(Put(r, j, v), i, u)
  {
  }

  lemma AdvanceOne(r: Regs, op: u8, sc: Reg, dc: Reg, n: nat)
    ensures Advance(RegsAfter(r, op, sc, dc, n), op, sc, dc) == RegsAfter(r, op, sc, dc, n + 1)
  {
    hide Put, Get, W16, SrcStep, DstStep;
    var s, d := Get(r, sc), Get(r, dc);
    var a := RegsAfter(r, op, sc, dc, n);
    StepOn(s, Ds(op, sc, dc), n);
    StepOn(d, Dd(op, sc, dc), n);
    GetAfter(r, op, sc, dc, n);
    if sc == dc { AdvanceSame(r, op, sc, n); } else { AdvanceTwo(r, op, sc, dc, n); }
  }

  lemma GetAfter(r: Regs, op: u8, sc: Reg, dc: Reg, n: nat)
    ensures var a := RegsAfter(r, op, sc, dc, n);
      Get(a, sc) == W16(Get(r, sc) + Ds(op, sc, dc) * n) && Get(a, dc) == W16(Get(r, dc) + Dd(op, sc, dc) * n)
      && a.pc == r.pc && a.w == r.w && a.cc == r.cc && a.md == r.md
  {
    hide Put, Get, W16, SrcStep, DstStep;
    var u := W16(Get(r, sc) + Ds(op, sc, dc) * n);
    var a := Put(r, sc, u);
    PutGet(r, sc, u, sc);
    PutGet(a, dc, W16(Get(r, dc) + Dd(op, sc, dc) * n), sc);
    PutGet(a, dc, W16(Get(r, dc) + Dd(op, sc, dc) * n), dc);
  }

  lemma AdvanceTwo(r: Regs, op: u8, sc: Reg, dc: Reg, n: nat)
    requires sc != dc
    ensures Advance(RegsAfter(r, op, sc, dc, n), op, sc, dc) == RegsAfter(r, op, sc, dc, n + 1)
  {
    hide Put, Get, W16, SrcStep, DstStep;
    var s, d := Get(r, sc), Get(r, dc);
    var a := RegsAfter(r, op, sc, dc, n);
    var s0, s1 := W16(s + Ds(op, sc, dc) * n), W16(s + Ds(op, sc, dc) * (n + 1));
    var d0, d1 := W16(d + Dd(op, sc, dc) * n), W16(d + Dd(op, sc, dc) * (n + 1));
    StepOn(s, Ds(op, sc, dc), n);
    StepOn(d, Dd(op, sc, dc), n);
    GetAfter(r, op, sc, dc, n);
    PutGet(a, sc, s1, dc);
    PutLaws(Put(r, sc, s0), dc, sc, d0, s1);
    PutLaws(r, sc, sc, s0, s1);
    PutLaws(Put(r, sc, s1), dc, dc, d0, d1);
  }

  lemma AdvanceSame(r: Regs, op: u8, i: Reg, n: nat)
    ensures Advance(RegsAfter(r, op, i, i, n), op, i, i) == RegsAfter(r, op, i, i, n + 1)
  {
    hide Put, Get, W16, SrcStep, DstStep;
    var s, e := Get(r, i), Ds(op, i, i);
    var a := RegsAfter(r, op, i, i, n);
    var s0, s1 := W16(s + e * n), W16(s + e * (n + 1));
    StepOn(s, e, n);
    GetAfter(r, op, i, i, n);
    StepTwice(s0, SrcStep(op), DstStep(op));
    var h := W16(s0 + SrcStep(op));
    PutGet(a, i, h, i);
    PutLaws(r, i, i, s0, s0);
    PutLaws(r, i, i, s1, s1);
    PutLaws(a, i, i, h, s1);
    PutLaws(r, i, i, s0, s1);
  }

  // ------------------------------------------------------------------
  // A transfer cut up by interrupts and cycle budgets
  // ------------------------------------------------------------------

  /** What can happen between two bytes: nothing; an interrupt that takes `cost` cycles, after which
      every register is back except CC.E, now `e`, memory has been written to, and `pc` is where the
      handler's own last transfer was (`InterruptIsBack` derives this from entry and RTI); or the end
      of a run call, which resets the cycle counter. */
  datatype Event = Execute | Interrupted(cost: int, e: bool, writes: seq<(u16, u8)>, pc: u16) | NewBudget

  function Poke(m: Mem, writes: seq<(u16, u8)>): Mem
    decreases writes
  {
    if writes == [] then m else Poke(m[writes[0].0 := writes[0].1], writes[1..])
  }

  function Back(c: Cpu, cost: int, e: bool, writes: seq<(u16, u8)>, pc: u16): Cpu {
    c.(r := c.r.(cc := c.r.cc.(e := e)), mem := Poke(c.mem, writes), cycles := c.cycles + cost,
       busy := false, busyPc := pc)
  }

  datatype Trace = Trace(c: Cpu, total: int)

  function Elapsed(t: Trace): int { t.total + t.c.cycles }

  function One(t: Trace, e: Event): Option<Trace> {
    match e
    case Execute => (match Exec(t.c) case Some(d) => Some(Trace(d, t.total)) case None => None)
    case Interrupted(cost, e, writes, pc) => Some(Trace(Back(t.c, cost, e, writes, pc), t.total))
    case NewBudget => Some(Trace(t.c.(cycles := 0), t.total + t.c.cycles))
  }

  // The writes that turn `m` into `q`, from address `k` on.
  function Diff(m: Mem, q: Mem, k: nat): seq<(u16, u8)>
    requires k <= 0x1_0000
    decreases 0x1_0000 - k
  {
    if k == 0x1_0000 then []
    else if m[k] == q[k] then Diff(m, q, k + 1)
    else [(k, q[k])] + Diff(m[k := q[k]], q, k + 1)
  }

  lemma {:induction false} DiffPokes(m: Mem, q: Mem, k: nat)
    requires k <= 0x1_0000 && m[..k] == q[..k]
    ensures Poke(m, Diff(m, q, k)) == q
    ensures forall i | 0 <= i < |Diff(m, q, k)| ::
              var a := Diff(m, q, k)[i].0; a >= k && q[a] != m[a]
    decreases 0x1_0000 - k
  {
    if k < 0x1_0000 {
      var p := m[k := q[k]];
      assert p[..k + 1] == q[..k + 1];
      DiffPokes(p, q, k + 1);
      if m[k] == q[k] {
        assert p == m;
      } else {
        assert Diff(m, q, k)[1..] == Diff(p, q, k + 1);
      }
    }
  }

  /** The handler `h` of the interrupt taken at `c`, at its RTI: it has kept the frame and the stack
      pointer, brought back what entry did not stack, and left no transfer of its own part done. */
  ghost predicate BringsBack(c: Cpu, l: Lines, h: Cpu) {
    && Handled(Dispatch(c, l), h, FrameSize(c.r, StacksAll(c, l)))
    && (!StacksAll(c, l) ==> h.r.a == c.r.a && h.r.b == c.r.b && h.r.x == c.r.x && h.r.y == c.r.y
                             && h.r.u == c.r.u && h.r.dp == c.r.dp && h.r.w == c.r.w)
    && (!Native(c.r) ==> h.r.w == c.r.w)
    && !h.busy && h.wait == c.wait && h.cwai == c.cwai
  }

  /** Interrupt entry, such a handler and RTI are one `Interrupted` event: every register is back, CC.E
      tells what was stacked, and the only cells written are those the two have changed. */
  lemma InterruptIsBack(t: Trace, l: Lines, h: Cpu) returns (e: Event)
    requires !t.c.cwai && Chosen(t.c, l) != NoInterrupt && BringsBack(t.c, l, h)
    ensures e.Interrupted? && One(t, e) == Some(Trace(AfterRti(h), t.total))
    ensures forall i | 0 <= i < |e.writes| :: h.mem[e.writes[i].0] != t.c.mem[e.writes[i].0]
  {
    hide Dispatch, Interrupts.At, CcFlags, Diff, Pair, Poke;
    var c, d := t.c, AfterRti(h);
    InterruptThenRti(c, l, h);
    DispatchMode(c, l);
    DiffPokes(c.mem, h.mem, 0);
    e := Interrupted(d.cycles - c.cycles, StacksAll(c, l), Diff(c.mem, h.mem, 0), h.busyPc);
    RtiKeeps(h);
    assert d.r == c.r.(cc := c.r.cc.(e := StacksAll(c, l)));
  }

  // Entry keeps MD, so RTI unstacks what entry stacked.
  lemma DispatchMode(c: Cpu, l: Lines)
    ensures Dispatch(c, l).r.md == c.r.md
  {
    hide PushBytes, Whole, Short;
  }

  lemma RtiKeeps(h: Cpu)
    ensures var d := AfterRti(h);
      && d.mem == h.mem && d.wait == h.wait && d.cwai == h.cwai && d.busy == h.busy && d.busyPc == h.busyPc
      && d.r.md == h.r.md && (!Native(h.r) ==> d.r.w == h.r.w)
      && (!d.r.cc.e ==> d.r == h.r.(cc := d.r.cc, pc := d.r.pc, s := d.r.s))
  {
    hide Interrupts.At, CcFlags, Pair;
  }

  function Go(t: Trace, evs: seq<Event>): Option<Trace>
    decreases evs
  {
    if evs == [] then Some(t)
    else match One(t, evs[0]) case Some(u) => Go(u, evs[1..]) case None => None
  }

  function Count(evs: seq<Event>): nat
    decreases evs
  {
    if evs == [] then 0 else (if evs[0] == Execute then 1 else 0) + Count(evs[1..])
  }

  // How often an execution starts afresh.
  function Setups(evs: seq<Event>, anew: bool): nat
    decreases evs
  {
    if evs == [] then 0
    else match evs[0]
      case Execute => (if anew then 1 else 0) + Setups(evs[1..], false)
      case Interrupted(_, _, _, _) => Setups(evs[1..], true)
      case NewBudget => Setups(evs[1..], anew)
  }

  function Costs(evs: seq<Event>): int
    decreases evs
  {
    if evs == [] then 0 else (if evs[0].Interrupted? then evs[0].cost else 0) + Costs(evs[1..])
  }

  predicate Fresh(c: Cpu) { !(c.busy && c.busyPc == c.r.pc) }

  /** A transfer: `first` is the state it begins in, `scratch` the cells interrupt handlers write,
      their stack frames included. */
  datatype Job = Job(first: Cpu, extra: nat, op: u8, sc: Reg, dc: Reg, scratch: set<u16>)
  {
    function Memory(n: nat): Mem {
      Copy(first.mem, Get(first.r, sc), Ds(op, sc, dc), Get(first.r, dc), Dd(op, sc, dc), n)
    }

    function Target(i: nat): u16 { W16(Get(first.r, dc) + Dd(op, sc, dc) * i) }

    function Cell(i: nat): u16 { W16(first.r.pc + i) }

    function Source(i: nat): u16 { W16(Get(first.r, sc) + Ds(op, sc, dc) * i) }

    // Outside the handlers' cells memory is as after `n` bytes.
    ghost predicate Holds(m: Mem, n: nat) {
      forall a: u16 | a !in scratch :: m[a] == Memory(n)[a]
    }

    /** The instruction is where PC is, no byte but the last lands in it, and the handlers keep off the
        instruction and the bytes to be copied. */
    ghost predicate Ok() {
      && Instruction(first.mem, first.r.pc, extra, op, sc * 16 + dc) && first.r.w > 0 && Fresh(first)
      && (forall i: nat, j: nat | i < first.r.w - 1 && j <= extra + 2 :: Target(i) != Cell(j))
      && (forall i: nat | i <= extra + 2 :: Cell(i) !in scratch)
      && (forall i: nat | i < first.r.w :: Source(i) !in scratch)
    }

    ghost predicate Harmless(evs: seq<Event>) {
      forall i :: 0 <= i < |evs| ==> evs[i].Interrupted? ==> Inside(evs[i].writes)
    }

    ghost predicate Inside(writes: seq<(u16, u8)>) { forall k :: 0 <= k < |writes| ==> writes[k].0 in scratch }

    // `n` bytes moved, more to come; CC.E is `e`.
    ghost predicate Mid(c: Cpu, n: nat, e: bool) {
      && n < first.r.w && Holds(c.mem, n)
      && c.r == RegsAfter(first.r, op, sc, dc, n).(w := first.r.w - n,
                  cc := if n == 0 then first.r.cc.(e := e) else first.r.cc.(z := false, e := e))
      && (n > 0 && c.busy ==> c.busyPc == first.r.pc) && (n == 0 ==> Fresh(c))
      && c.wait == first.wait && c.cwai == first.cwai
    }

    // All of it moved.
    ghost predicate Done(c: Cpu, e: bool) {
      && Holds(c.mem, first.r.w)
      && c.r == RegsAfter(first.r, op, sc, dc, first.r.w).(w := 0, cc := first.r.cc.(z := true, e := e),
                  pc := W16(first.r.pc + extra + 3))
      && !c.busy && c.wait == first.wait && c.cwai == first.cwai
    }
  }

  lemma {:induction false} CopyElsewhere(j: Job, n: nat, a: u16)
    requires forall i: nat | i < n :: j.Target(i) != a
    ensures j.Memory(n)[a] == j.first.mem[a]
    decreases n
  {
    if n > 0 {
      assert j.Target(n - 1) != a;
      CopyElsewhere(j, n - 1, a);
    }
  }

  lemma ByteKept(j: Job, m: Mem, n: nat, i: nat)
    requires j.Ok() && n < j.first.r.w && i <= j.extra + 2 && j.Holds(m, n)
    ensures Byte(m, j.first.r.pc, i) == Byte(j.first.mem, j.first.r.pc, i)
  {
    hide Instruction, Copy, Get, Ds, Dd, W16;
    forall k: nat | k < n
      ensures j.Target(k) != j.Cell(i)
    {
    }
    CopyElsewhere(j, n, j.Cell(i));
  }

  lemma InstructionKept(j: Job, m: Mem, n: nat)
    requires j.Ok() && n < j.first.r.w && j.Holds(m, n)
    ensures Instruction(m, j.first.r.pc, j.extra, j.op, j.sc * 16 + j.dc)
  {
    hide Copy, Get, Ds, Dd;
    var at := j.first.r.pc;
    ByteKept(j, m, n, 0);
    ByteKept(j, m, n, j.extra + 1);
    ByteKept(j, m, n, j.extra + 2);
    forall i: nat | 1 <= i <= j.extra
      ensures Byte(m, at, i) == 0x10 || Byte(m, at, i) == 0x11
    {
      ByteKept(j, m, n, i);
    }
  }

  /** One execution in the middle of the transfer moves one byte. */
  lemma PassMoves(j: Job, c: Cpu, n: nat, e: bool)
    requires j.Ok() && j.Mid(c, n, e)
    ensures Exec(c).Some?
    ensures var d := Exec(c).value;
      && (if n + 1 < j.first.r.w then j.Mid(d, n + 1, e) && !Fresh(d) else j.Done(d, e))
      && d.cycles == c.cycles + 3 + (if Fresh(c) then 6 + j.extra else 0)
  {
    hide RegsAfter, Instruction, Get, Exec, W16, Copy, Ds, Dd, Pass;
    InstructionKept(j, c.mem, n);
    GetAfter(j.first.r, j.op, j.sc, j.dc, n);
    var m := c.mem;
    ExecIs(c, j.extra, j.op, j.sc * 16 + j.dc);
    PassIs(j, c, n, e);
  }

  lemma BeginIs(j: Job, c: Cpu, n: nat, e: bool)
    requires j.Mid(c, n, e)
    ensures var d := Begin(c, j.extra);
      && d.r == RegsAfter(j.first.r, j.op, j.sc, j.dc, n).(
                  w := j.first.r.w - n, cc := j.first.r.cc.(z := false, e := e),
                  pc := W16(j.first.r.pc + j.extra + 3))
      && d.mem == c.mem && d.busy && d.busyPc == j.first.r.pc && d.wait == c.wait && d.cwai == c.cwai
      && d.cycles == c.cycles + (if Fresh(c) then 6 + j.extra else 0)
  {
    hide RegsAfter, W16, Job.Holds, Get, Ds, Dd, Job.Mid;
    MidMeans(j, c, n, e);
  }

  lemma MidMeans(j: Job, c: Cpu, n: nat, e: bool)
    requires j.Mid(c, n, e)
    ensures c.r.pc == j.first.r.pc && c.wait == j.first.wait && c.cwai == j.first.cwai
    ensures c.r == RegsAfter(j.first.r, j.op, j.sc, j.dc, n).(w := j.first.r.w - n, cc := c.r.cc)
    ensures c.r.cc == (if n == 0 then j.first.r.cc.(e := e) else j.first.r.cc.(z := false, e := e))
    ensures Fresh(c) || n > 0
    ensures n > 0 && c.busy ==> c.busyPc == j.first.r.pc
  {
    hide RegsAfter, Job.Holds, Get, Ds, Dd;
    GetAfter(j.first.r, j.op, j.sc, j.dc, n);
  }

  lemma PassIs(j: Job, c: Cpu, n: nat, e: bool)
    requires j.Ok() && j.Mid(c, n, e)
    ensures var d := Pass(c, j.extra, j.op, j.sc * 16 + j.dc);
      && (if n + 1 < j.first.r.w then j.Mid(d, n + 1, e) && !Fresh(d) else j.Done(d, e))
      && d.cycles == c.cycles + 3 + (if Fresh(c) then 6 + j.extra else 0)
  {
    hide RegsAfter, Begin, Job.Mid, Job.Done, Job.Ok, Ds, Dd, Move, W16, Get;
    MidAt(j, c, n, e);
    BeginIs(j, c, n, e);
    MoveIs(j, c, n, Begin(c, j.extra), e);
  }

  // In the middle PC is at the instruction and bytes are left.
  lemma MidAt(j: Job, c: Cpu, n: nat, e: bool)
    requires j.Mid(c, n, e)
    ensures c.r.pc == j.first.r.pc && n < j.first.r.w
  {
    hide RegsAfter, Job.Holds;
    GetAfter(j.first.r, j.op, j.sc, j.dc, n);
  }

  lemma MoveIs(j: Job, c: Cpu, n: nat, d: Cpu, e: bool)
    requires j.Ok() && j.Mid(c, n, e) && d.mem == c.mem && d.busy && d.busyPc == j.first.r.pc && d.wait == c.wait &&
        d.cwai == c.cwai
    requires d.r == RegsAfter(j.first.r, j.op, j.sc, j.dc, n).(
                  w := j.first.r.w - n, cc := j.first.r.cc.(z := false, e := e),
                  pc := W16(j.first.r.pc + j.extra + 3))
    ensures var f := Move(d, j.first.r.pc, j.op, j.sc, j.dc);
      && (if n + 1 < j.first.r.w then j.Mid(f, n + 1, e) && !Fresh(f) else j.Done(f, e)) && f.cycles == d.cycles + 3
  {
    hide RegsAfter, Advance, Get, W16, Job.Holds, Job.Ok, Ds, Dd;
    var r := j.first.r;
    GetAfter(r, j.op, j.sc, j.dc, n);
    GetAfter(r, j.op, j.sc, j.dc, n + 1);
    AdvanceOne(r, j.op, j.sc, j.dc, n);
    HoldsNext(j, c.mem, n);
    SameRegs(RegsAfter(r, j.op, j.sc, j.dc, n), d.r, j.op, j.sc, j.dc);
  }

  lemma HoldsNext(j: Job, m: Mem, n: nat)
    requires j.Ok() && n < j.first.r.w && j.Holds(m, n)
    ensures j.Holds(m[j.Target(n) := m[j.Source(n)]], n + 1)
  {
    hide Copy, Get, Ds, Dd, W16, Instruction;
    MemoryOne(j, n);
    assert j.Source(n) !in j.scratch;
  }

  lemma MemoryOne(j: Job, n: nat)
    ensures j.Memory(n + 1) == j.Memory(n)[j.Target(n) := j.Memory(n)[j.Source(n)]]
  {
  }

  // PC, CC and W are not among the transfer's registers.
  lemma SameRegs(a: Regs, b: Regs, op: u8, sc: Reg, dc: Reg)
    requires b == a.(pc := b.pc, cc := b.cc, w := b.w)
    ensures Get(b, sc) == Get(a, sc) && Get(b, dc) == Get(a, dc)
    ensures Advance(b, op, sc, dc) == Advance(a, op, sc, dc).(pc := b.pc, cc := b.cc, w := b.w)
  {
    hide W16, SrcStep, DstStep;
  }

  ghost predicate At(j: Job, c: Cpu, n: nat, e: bool) {
    if n < j.first.r.w then j.Mid(c, n, e) else n == j.first.r.w && j.Done(c, e)
  }

  lemma {:induction false} PokeInside(j: Job, m: Mem, writes: seq<(u16, u8)>, a: u16)
    requires j.Inside(writes) && a !in j.scratch
    ensures Poke(m, writes)[a] == m[a]
    decreases writes
  {
    if writes != [] {
      assert writes[0].0 in j.scratch;
      PokeInside(j, m[writes[0].0 := writes[0].1], writes[1..], a);
    }
  }

  // An interruption or a new budget leaves the transfer where it is.
  lemma BackKeeps(j: Job, c: Cpu, n: nat, e: bool, cost: int, e': bool, writes: seq<(u16, u8)>, pc: u16)
    requires At(j, c, n, e) && j.Inside(writes)
    ensures At(j, Back(c, cost, e', writes, pc), n, e')
  {
    hide RegsAfter, Copy, Get, Poke, Job.Holds, Ds, Dd;
    PokeHolds(j, c.mem, writes, n);
    PokeHolds(j, c.mem, writes, j.first.r.w);
  }

  lemma PokeHolds(j: Job, m: Mem, writes: seq<(u16, u8)>, n: nat)
    requires j.Inside(writes)
    ensures j.Holds(m, n) ==> j.Holds(Poke(m, writes), n)
  {
    hide Copy, Poke, Get, Ds, Dd;
    forall a: u16 | a !in j.scratch
      ensures Poke(m, writes)[a] == m[a]
    {
      PokeInside(j, m, writes, a);
    }
  }

  lemma BudgetKeeps(j: Job, c: Cpu, n: nat, e: bool)
    requires At(j, c, n, e)
    ensures At(j, c.(cycles := 0), n, e)
  {
    hide RegsAfter, Copy, Get;
  }

  // Cycles of a stretch of events of a transfer.
  function Cycles(j: Job, evs: seq<Event>, anew: bool): int {
    3 * Count(evs) + (6 + j.extra) * Setups(evs, anew) + Costs(evs)
  }

  // Cycles of one event, and whether the next execution starts afresh.
  function OneCycles(j: Job, e: Event, anew: bool): int {
    match e
    case Execute => 3 + if anew then 6 + j.extra else 0
    case Interrupted(cost, _, _, _) => cost
    case NewBudget => 0
  }

  function OneAnew(e: Event, anew: bool): bool {
    match e
    case Execute => false
    case Interrupted(_, _, _, _) => true
    case NewBudget => anew
  }

  lemma CyclesCons(j: Job, evs: seq<Event>, anew: bool)
    requires evs != []
    ensures Cycles(j, evs, anew) == OneCycles(j, evs[0], anew) + Cycles(j, evs[1..], OneAnew(evs[0], anew))
  {
    Product(6 + j.extra, if anew then 1 else 0, Setups(evs[1..], false));
  }

  // CC.E after an event, and after a stretch of them.
  function OneE(ev: Event, e: bool): bool { if ev.Interrupted? then ev.e else e }

  function LastE(evs: seq<Event>, e: bool): bool
    decreases evs
  {
    if evs == [] then e else LastE(evs[1..], OneE(evs[0], e))
  }

  lemma OneMoves(j: Job, t: Trace, n: nat, cce: bool, e: Event)
    requires j.Ok() && At(j, t.c, n, cce) && (e == Execute ==> n < j.first.r.w) &&
        (e.Interrupted? ==> j.Inside(e.writes))
    ensures One(t, e).Some?
    ensures var u, m := One(t, e).value, n + (if e == Execute then 1 else 0);
      && At(j, u.c, m, OneE(e, cce)) && Elapsed(u) == Elapsed(t) + OneCycles(j, e, Fresh(t.c))
      && (Fresh(u.c) == OneAnew(e, Fresh(t.c)) || m == j.first.r.w)
  {
    hide Exec;
    match e
    case Execute => PassMoves(j, t.c, n, cce);
    case Interrupted(cost, e', writes, pc) => BackKeeps(j, t.c, n, cce, cost, e', writes, pc);
    case NewBudget => BudgetKeeps(j, t.c, n, cce);
  }

  lemma {:induction false} CutFrom(j: Job, t: Trace, n: nat, cce: bool, evs: seq<Event>)
    requires j.Ok() && At(j, t.c, n, cce) && j.Harmless(evs) && n + Count(evs) <= j.first.r.w
    ensures Go(t, evs).Some?
    ensures var u := Go(t, evs).value;
      At(j, u.c, n + Count(evs), LastE(evs, cce)) && Elapsed(u) == Elapsed(t) + Cycles(j, evs, Fresh(t.c))
    decreases evs
  {
    hide At, One, OneCycles, OneAnew, OneE, Fresh, Cycles, Elapsed;
    if evs != [] {
      var e, rest := evs[0], evs[1..];
      CyclesCons(j, evs, Fresh(t.c));
      OneMoves(j, t, n, cce, e);
      var u, m := One(t, e).value, n + (if e == Execute then 1 else 0);
      CutFrom(j, u, m, OneE(e, cce), rest);
      if m == j.first.r.w { AllMoved(j, rest, Fresh(u.c), OneAnew(e, Fresh(t.c))); }
    } else {
      NoCycles(j, Fresh(t.c));
    }
  }

  // After the last byte nothing more is set up.
  lemma AllMoved(j: Job, rest: seq<Event>, a: bool, b: bool)
    requires Count(rest) == 0
    ensures Cycles(j, rest, a) == Cycles(j, rest, b)
  {
    NoMore(rest, a);
    NoMore(rest, b);
  }

  lemma NoCycles(j: Job, anew: bool)
    ensures Cycles(j, [], anew) == 0
  {
  }

  lemma Product(a: int, x: int, y: int)
    ensures a * (x + y) == a * x + a * y
  {
  }

  // Without a further execution nothing more is set up.
  lemma {:induction false} NoMore(evs: seq<Event>, anew: bool)
    requires Count(evs) == 0
    ensures Setups(evs, anew) == 0
    decreases evs
  {
    if evs != [] { NoMore(evs[1..], anew || evs[0].Interrupted?); }
  }

  /** A transfer of W bytes, cut up in any way by register-preserving interrupts and budget ends, is a
      sequential copy of W bytes: outside the handlers' own cells memory and registers come out the
      same, W is 0 and Z set (CC.E as the last interrupt left it). Its cycles are 3 a byte and 6 (and
      one per extra prefix) for each time it starts afresh. */
  lemma TransferIsCopy(j: Job, evs: seq<Event>)
    requires j.Ok() && j.Harmless(evs) && Count(evs) == j.first.r.w
    ensures Go(Trace(j.first, 0), evs).Some?
    ensures var u := Go(Trace(j.first, 0), evs).value;
      && j.Done(u.c, LastE(evs, j.first.r.cc.e))
      && Elapsed(u) == j.first.cycles + 3 * j.first.r.w + (6 + j.extra) * Setups(evs, true) + Costs(evs)
  {
    hide Go, RegsAfter, Job.Holds, Instruction;
    FirstMid(j);
    CutFrom(j, Trace(j.first, 0), 0, j.first.r.cc.e, evs);
  }

  lemma FirstMid(j: Job)
    requires j.Ok()
    ensures j.Mid(j.first, 0, j.first.r.cc.e)
  {
    hide Instruction;
    PutBack(j.first.r, j.sc);
    PutBack(j.first.r, j.dc);
  }

  lemma PutBack(r: Regs, i: Reg)
    ensures Put(r, i, W16(Get(r, i))) == r
  {
    hide Pair, Hi, Lo;
    HalvesOf(r.a, r.b);
  }

  predicate Uninterrupted(evs: seq<Event>) { forall i :: 0 <= i < |evs| ==> !evs[i].Interrupted? }

  lemma {:induction false} OneSetup(evs: seq<Event>, anew: bool)
    requires Uninterrupted(evs)
    ensures Costs(evs) == 0 && Setups(evs, anew) == if anew && Count(evs) > 0 then 1 else 0
    decreases evs
  {
    if evs != [] { OneSetup(evs[1..], anew && evs[0] != Execute); }
  }

  lemma {:induction false} SameE(evs: seq<Event>, e: bool)
    requires Uninterrupted(evs)
    ensures LastE(evs, e) == e
    decreases evs
  {
    if evs != [] { SameE(evs[1..], e); }
  }

  /** Uninterrupted, however the run is split into budgets: 6 + 3W cycles, and one per extra prefix. */
  lemma PlainTransferCycles(j: Job, evs: seq<Event>)
    requires j.Ok() && Count(evs) == j.first.r.w && Uninterrupted(evs)
    ensures Go(Trace(j.first, 0), evs).Some?
    ensures var u := Go(Trace(j.first, 0), evs).value;
      Elapsed(u) == j.first.cycles + 6 + j.extra + 3 * j.first.r.w && j.Done(u.c, j.first.r.cc.e)
  {
    hide Go;
    assert j.Harmless(evs);
    SameE(evs, j.first.r.cc.e);
    TransferIsCopy(j, evs);
    OneSetup(evs, true);
  }

  /** With W zero nothing is moved: setup only, Z set. */
  lemma EmptyTransfer(c: Cpu, extra: nat, op: u8, sc: Reg, dc: Reg)
    requires Instruction(c.mem, c.r.pc, extra, op, sc * 16 + dc) && c.r.w == 0 && Fresh(c)
    ensures Exec(c) == Some(c.(r := c.r.(pc := W16(c.r.pc + extra + 3), cc := c.r.cc.(z := true)),
                               cycles := c.cycles + 6 + extra, busy := false, busyPc := c.r.pc))
  {
    hide Instruction, Exec, Move, W16;
    ExecIs(c, extra, op, sc * 16 + dc);
  }

  /** Where the byte copied at step `i` comes from when the ranges do not overlap: each target keeps
      the original source byte. */
  lemma {:induction false} DisjointCopy(j: Job, n: nat, i: nat)
    requires i < n
    requires forall k: nat, l: nat | k < n && l < n :: j.Target(k) != j.Source(l)
    requires forall k: nat, l: nat | k < l < n :: j.Target(k) != j.Target(l)
    ensures j.Memory(n)[j.Target(i)] == j.first.mem[j.Source(i)]
    decreases n
  {
    hide Get, Ds, Dd, W16;
    MemoryOne(j, n - 1);
    if i < n - 1 {
      assert j.Target(i) != j.Target(n - 1);
      DisjointCopy(j, n - 1, i);
    } else {
      forall k: nat | k < n - 1
        ensures j.Target(k) != j.Source(i)
      {
      }
      CopyElsewhere(j, n - 1, j.Source(i));
    }
  }

  // ------------------------------------------------------------------
  // The code
  // ------------------------------------------------------------------

  method Fetch8(core: Core) returns (v: u8)
    requires core.Valid()
    modifies core`r
    ensures v == core.mem[old(core.r.pc)] && core.r == old(core.r).(pc := W16(old(core.r.pc) + 1))
  {
    v := core.mem[core.r.pc];
    core.r := core.r.(pc := W16(core.r.pc + 1));
  }

  lemma NextPc(at: u16, i: nat)
    ensures W16(W16(at + i) + 1) == W16(at + (i + 1))
  {
  }

  // PC is past `extra` prefixes, opcode and postbyte; the postbyte is the last fetched.
  method HTfm(core: Core, op: u8, at: u16, ghost c: Cpu, ghost extra: nat)
    requires core.Valid() && IsTfm(op) && c.r.pc == at && extra + 3 < 0x1_0000
    requires core.State() == c.(r := c.r.(pc := W16(at + (extra + 2))), cycles := c.cycles + extra)
    modifies core, core.mem
    ensures core.Valid() && core.State() == Pass(c, extra, op, c.mem[W16(at + (extra + 2))])
  {
    hide Put, Get, Advance, AfterTrap;
    NextPc(at, extra + 2);
    var post := Fetch8(core);
    var sc, dc := post / 16, post % 16;
    if !(core.busy && core.busyPc == at) {
      core.r := core.r.(cc := core.r.cc.(z := false));
      core.cycles := core.cycles + 6;
      core.busy := true;
      core.busyPc := at;
    } else {
      BackDistance(at, extra);
      core.cycles := core.cycles - (W16(core.r.pc - at) - 3);
    }
    assert core.State() == Begin(c, extra);
    if sc > 4 || dc > 4 {
      core.Trap(MD_IL);
      return;
    }
    MoveByte(core, op, at, sc, dc);
  }

  lemma BackDistance(at: u16, extra: nat)
    requires extra + 3 < 0x1_0000
    ensures W16(W16(at + extra + 3) - at) == extra + 3
  {
  }

  // The transfer of one byte and the end of the instruction.
  method MoveByte(core: Core, op: u8, at: u16, sc: Reg, dc: Reg)
    requires core.Valid() && IsTfm(op)
    modifies core, core.mem
    ensures core.Valid()
    ensures core.State() == (var d := old(core.State()); if d.r.w == 0 then Finish(d) else Move(d, at, op, sc, dc))
  {
    hide Put, Get;
    if core.r.w != 0 {
      core.mem[Get(core.r, dc)] := core.mem[Get(core.r, sc)];
      ghost var r := core.r;
      assert core.mem[..] == old(core.mem[..])[Get(r, dc) := old(core.mem[..])[Get(r, sc)]];
      match op % 4 {
        case 0 =>
          core.r := Put(core.r, sc, W16(Get(core.r, sc) + 1));
          core.r := Put(core.r, dc, W16(Get(core.r, dc) + 1));
        case 1 =>
          core.r := Put(core.r, sc, W16(Get(core.r, sc) - 1));
          core.r := Put(core.r, dc, W16(Get(core.r, dc) - 1));
        case 2 => core.r := Put(core.r, sc, W16(Get(core.r, sc) + 1));
        case _ => core.r := Put(core.r, dc, W16(Get(core.r, dc) + 1));
      }
      StayPut(r, sc, dc);
      StayPut(core.r, dc, dc);
      assert core.r == Advance(r, op, sc, dc);
      KeepsW(r, op, sc, dc);
      core.r := core.r.(w := core.r.w - 1);
      core.cycles := core.cycles + 3;
      if core.r.w != 0 {
        core.r := core.r.(pc := at);
        return;
      }
    }
    core.r := core.r.(cc := core.r.cc.(z := true));
    core.busy := false;
  }

  lemma StayPut(r: Regs, i: Reg, j: Reg)
    ensures Put(r, i, W16(Get(r, i) + 0)) == r && Put(r, j, W16(Get(r, j) + 0)) == r
  {
    hide Pair, Hi, Lo;
    HalvesOf(r.a, r.b);
  }

  lemma KeepsW(r: Regs, op: u8, sc: Reg, dc: Reg)
    ensures Advance(r, op, sc, dc).w == r.w
  {
  }

  /** `execute_one` for a TFM: the $11 prefix, any more prefixes at a cycle each, then the instruction. */
  method ExecuteTfm(core: Core)
    requires core.Valid() && Exec(core.State()).Some?
    modifies core, core.mem
    ensures core.Valid() && Exec(old(core.State())) == Some(core.State())
  {
    hide Pass, Prefixes, W16;
    ghost var c := core.State();
    var at := core.r.pc;
    var first := Fetch8(core);
    assert first == 0x11;
    NextPc(at, 1);
    var opcode := Fetch8(core);
    ghost var i := 1;
    while opcode == 0x10 || opcode == 0x11
      invariant core.Valid() && 1 <= i <= Prefixes(c.mem, at, 1) < 0x1_0000 - 2
      invariant core.State() == c.(r := c.r.(pc := W16(at + (i + 1))), cycles := c.cycles + (i - 1))
      invariant opcode == c.mem[W16(at + i)] && Prefixes(c.mem, at, i) == Prefixes(c.mem, at, 1)
      decreases Prefixes(c.mem, at, 1) - i
    {
      PrefixesStep(c.mem, at, i);
      NextPc(at, i + 1);
      opcode := Fetch8(core);
      core.cycles := core.cycles + 1;
      i := i + 1;
    }
    PrefixesStep(c.mem, at, i);
    HTfm(core, opcode, at, c, i - 1);
  }

  lemma PrefixesStep(m: Mem, at: u16, i: nat)
    requires i < 0x1_0000
    ensures if m[W16(at + i)] == 0x10 || m[W16(at + i)] == 0x11
            then Prefixes(m, at, i) == Prefixes(m, at, i + 1) >= i + 1 else Prefixes(m, at, i) == i
  {
  }
}
