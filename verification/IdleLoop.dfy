/** The HD6309 run loop and its idle-loop skip (src/core/mc6809_core_impl.h).

    A short backward branch over a read-only polling body is advanced in whole passes
    instead of being interpreted. The instructions the skip's classifier accepts are given
    their full meaning here; every other instruction, and every access that leaves the plain
    memory pages, is an arbitrary function of the machine, so the results hold for whatever
    those do. */
module IdleLoop {
  import opened Arithmetic
  import opened Words
  import opened Hd6309

  // ------------------------------------------------------------------
  // Machine
  // ------------------------------------------------------------------

  datatype PageTable = PageTable(pages: seq<Option<seq<u8>>>, limit: u16)

  /** Eight optional 8 KB blocks; addresses below `limit` in a present block are plain memory. */
  type Memory = m: PageTable
    | |m.pages| == 8 && forall i :: 0 <= i < 8 && m.pages[i].Some? ==> |m.pages[i].value| == 0x2000
    witness PageTable([None, None, None, None, None, None, None, None], 0)

  // Interrupt inputs as the run loop sees them; `nmi` is latched and armed.
  datatype Lines = Lines(halted: bool, waiting: bool, nmi: bool, firq: bool, irq: bool)

  datatype Core = Core(r: Regs, mem: Memory, lines: Lines, cycles: nat)

  /** No condition looked at by the top of the run loop has any effect on this state. */
  predicate Calm(c: Core) {
    && !c.lines.halted && !c.lines.waiting && !c.lines.nmi
    && !(c.lines.firq && !c.r.cc.f) && !(c.lines.irq && !c.r.cc.i)
  }

  /** Byte at `a` if it is plain memory. */
  function Peek(m: Memory, a: u16): Option<u8> {
    if a >= m.limit then None
    else match m.pages[a / 0x2000]
      case None => None
      case Some(p) => Some(p[a % 0x2000])
  }

  function PeekWord(m: Memory, a: u16): Option<u16> {
    match (Peek(m, a), Peek(m, W16(a + 1)))
    case (Some(hi), Some(lo)) => Some(Pair(hi, lo))
    case _ => None
  }

  // ------------------------------------------------------------------
  // Instructions
  // ------------------------------------------------------------------

  // Side of an 8-bit operation: accumulator A or B.
  datatype Side = A | B

  datatype Act =
    | Nop
    | TstAcc(side: Side)
    | Tst
    | Cmp(side: Side)
    | Bit(side: Side)
    | Load(side: Side)
    | Sub(side: Side)
    | And(side: Side)
    | Eor(side: Side)
    | Or(side: Side)
    | Add(side: Side)
    | CmpX
    | LoadD
    | LoadX

  predicate Wide(act: Act) { act.CmpX? || act.LoadD? || act.LoadX? }

  // The registers a modelled instruction can write, flags apart.
  datatype Data = Data(a: u8, b: u8, x: u16)

  function Acc(d: Data, side: Side): u8 { if side.A? then d.a else d.b }

  function SetAcc(d: Data, side: Side, v: u8): Data { if side.A? then d.(a := v) else d.(b := v) }

  function And8(a: u8, b: u8): u8 { ((a as bv8) & (b as bv8)) as int }

  function Or8(a: u8, b: u8): u8 { ((a as bv8) | (b as bv8)) as int }

  function Xor8(a: u8, b: u8): u8 { ((a as bv8) ^ (b as bv8)) as int }

  // The register an instruction reads besides its memory operand.
  function Arg(act: Act, d: Data): u16 {
    match act
    case TstAcc(s) => Acc(d, s)
    case Cmp(s) => Acc(d, s)
    case Bit(s) => Acc(d, s)
    case Sub(s) => Acc(d, s)
    case And(s) => Acc(d, s)
    case Eor(s) => Acc(d, s)
    case Or(s) => Acc(d, s)
    case Add(s) => Acc(d, s)
    case CmpX => d.x
    case _ => 0
  }

  /** Flags written by `act` on register value `a` and memory operand `m`. */
  function Changes(act: Act, a: u16, m: u16): Change
    requires !Wide(act) ==> a < 0x100 && m < 0x100
  {
    match act
    case Nop => Change(None, None, None)
    case TstAcc(_) => Logic8(a)
    case Tst => Logic8(m)
    case Cmp(_) => Sub8(a, m)
    case Bit(_) => Logic8(And8(a, m))
    case Load(_) => Logic8(m)
    case Sub(_) => Sub8(a, m)
    case And(_) => Logic8(And8(a, m))
    case Eor(_) => Logic8(Xor8(a, m))
    case Or(_) => Logic8(Or8(a, m))
    case Add(_) => Add8(a, m)
    case CmpX => Sub16(a, m)
    case LoadD => Logic16(m)
    case LoadX => Logic16(m)
  }

  /** Data registers after `act` on memory operand `m`. */
  function Write(act: Act, d: Data, m: u16): Data
    requires !Wide(act) ==> m < 0x100
  {
    match act
    case Load(s) => SetAcc(d, s, m)
    case Sub(s) => SetAcc(d, s, W8(Acc(d, s) - m))
    case And(s) => SetAcc(d, s, And8(Acc(d, s), m))
    case Eor(s) => SetAcc(d, s, Xor8(Acc(d, s), m))
    case Or(s) => SetAcc(d, s, Or8(Acc(d, s), m))
    case Add(s) => SetAcc(d, s, W8(Acc(d, s) + m))
    case LoadD => Data(Hi(m), Lo(m), d.x)
    case LoadX => d.(x := m)
    case _ => d
  }

  function DataOf(r: Regs): Data { Data(r.a, r.b, r.x) }

  /** Registers after `act` on memory operand `m` (the program counter is left alone). */
  function Apply(act: Act, r: Regs, m: u16): Regs
    requires !Wide(act) ==> m < 0x100
  {
    var d := Write(act, DataOf(r), m);
    r.(a := d.a, b := d.b, x := d.x, cc := Put(r.cc, Changes(act, Arg(act, DataOf(r)), m)))
  }

  datatype Mode = Inherent | Direct | Indexed | Extended

  /** Meaning and addressing mode of the opcodes modelled in full. */
  function Opcode(op: u8): Option<(Act, Mode)> {
    if op == 0x12 then Some((Nop, Inherent))
    else if op == 0x4D then Some((TstAcc(A), Inherent))
    else if op == 0x5D then Some((TstAcc(B), Inherent))
    else if op == 0x0D then Some((Tst, Direct))
    else if op == 0x6D then Some((Tst, Indexed))
    else if op == 0x7D then Some((Tst, Extended))
    else
      var mode := match op / 16 {
        case 0x9 => Direct case 0xD => Direct
        case 0xA => Indexed case 0xE => Indexed
        case 0xB => Extended case 0xF => Extended
        case _ => Inherent
      };
      if mode.Inherent? then None
      else
        var s := if op >= 0xD0 then B else A;
        match op % 16
        case 0x0 => Some((Sub(s), mode))
        case 0x1 => Some((Cmp(s), mode))
        case 0x4 => Some((And(s), mode))
        case 0x5 => Some((Bit(s), mode))
        case 0x6 => Some((Load(s), mode))
        case 0x8 => Some((Eor(s), mode))
        case 0xA => Some((Or(s), mode))
        case 0xB => Some((Add(s), mode))
        case 0xC => Some((if s.B? then LoadD else CmpX, mode))
        case 0xE => if s.B? then None else Some((LoadX, mode))
        case _ => None
  }

  // Cycles in emulation mode, and what native mode takes off (hd6309_native_save_p1).
  function BaseCycles(act: Act, mode: Mode): nat {
    var direct := match act {
      case Nop => 2 case TstAcc(_) => 2 case Tst => 6 case CmpX => 6
      case LoadD => 5 case LoadX => 5 case _ => 4
    };
    if mode.Extended? then direct + 1 else direct
  }

  function NativeSave(act: Act, mode: Mode): nat {
    match mode
    case Inherent => 1
    case Indexed => if act.Tst? || act.CmpX? then 1 else 0
    case _ => if act.CmpX? || (act.Tst? && (mode.Direct? || mode.Extended?)) then 2 else 1
  }

  datatype Insn = Insn(act: Act, len: nat, ea: u16, cost: nat)

  // Index register chosen by postbyte bits 6-5.
  function IndexReg(r: Regs, pb: u8): u16 {
    match pb / 32 % 4
    case 0 => r.x
    case 1 => r.y
    case 2 => r.u
    case _ => r.s
  }

  function Offset5(pb: u8): int { if pb / 16 % 2 == 1 then pb % 32 - 32 else pb % 32 }

  /** The instruction at the program counter, when it is one of the modelled ones and its bytes
      are plain memory; of the indexed modes only `,R` and the 5-bit offset are modelled. */
  function Decode(m: Memory, r: Regs): Option<Insn> {
    match Peek(m, r.pc)
    case None => None
    case Some(op) =>
      match Opcode(op)
      case None => None
      case Some((act, mode)) =>
        var cost := BaseCycles(act, mode) - (if Native(r) then NativeSave(act, mode) else 0);
        if mode.Inherent? then Some(Insn(act, 1, 0, cost))
        else
          match Peek(m, W16(r.pc + 1))
          case None => None
          case Some(b1) =>
            match mode
            case Direct => Some(Insn(act, 2, Pair(r.dp, b1), cost))
            case Indexed =>
              if b1 < 0x80 then Some(Insn(act, 2, W16(IndexReg(r, b1) + Offset5(b1)), cost + 1))
              else if b1 % 32 == 4 then Some(Insn(act, 2, IndexReg(r, b1), cost))
              else None
            case _ =>
              match Peek(m, W16(r.pc + 2))
              case None => None
              case Some(b2) => Some(Insn(act, 3, Pair(b1, b2), cost))
  }

  /** Memory operand of an instruction, if it is plain memory. */
  function Operand(m: Memory, i: Insn): (o: Option<u16>)
    ensures o.Some? && !Wide(i.act) ==> o.value < 0x100
  {
    if i.act.Nop? || i.act.TstAcc? then Some(0)
    else if Wide(i.act) then PeekWord(m, i.ea)
    else match Peek(m, i.ea)
      case None => None
      case Some(b) => Some(b)
  }

  // Opcode and signed offset of a short branch at `a`.
  function Branch(m: Memory, a: u16): Option<(int, int)> {
    match (Peek(m, a), Peek(m, W16(a + 1)))
    case (Some(op), Some(off)) => if 0x20 <= op < 0x30 then Some((op - 0x20, Signed8(off))) else None
    case _ => None
  }

  /** One modelled instruction: registers after it and its cycle count. */
  function Step(m: Memory, r: Regs): Option<(Regs, nat)> {
    match Branch(m, r.pc)
    case Some((cond, off)) =>
      Some((r.(pc := W16(r.pc + 2 + if Taken(r.cc, cond) then off else 0)), 3))
    case None =>
      match Decode(m, r)
      case None => None
      case Some(i) =>
        match Operand(m, i)
        case None => None
        case Some(v) => Some((Apply(i.act, r, v).(pc := W16(r.pc + i.len)), i.cost))
  }

  function Interp(c: Core): Option<Core> {
    match Step(c.mem, c.r)
    case None => None
    case Some((r, n)) => Some(c.(r := r, cycles := c.cycles + n))
  }

  /** `n` modelled instructions in a row. */
  function Pass(c: Core, n: nat): Option<Core>
    decreases n
  {
    if n == 0 then Some(c)
    else match Interp(c)
      case None => None
      case Some(c1) => Pass(c1, n - 1)
  }

  // ------------------------------------------------------------------
  // The classifier
  // ------------------------------------------------------------------

  datatype Kind = No | Pure | LoadA | LoadB | AluA | AluB

  predicate IdlePlain(m: Memory, ea: u16, wide: bool) {
    Peek(m, ea).Some? && (wide ==> Peek(m, W16(ea + 1)).Some?)
  }

  /** `idle_insn`: what the body instruction at `a` does, and its length. */
  function IdleInsn(m: Memory, r: Regs, a: u16): (Kind, nat) {
    match Peek(m, a)
    case None => (No, 0)
    case Some(op) =>
      if op == 0x12 || op == 0x4D || op == 0x5D then (Pure, 1)
      else
        match Peek(m, W16(a + 1))
        case None => (No, 0)
        case Some(b1) =>
          var hi := op / 16;
          if op == 0x0D || hi == 0x9 || hi == 0xD then IdleOperation(m, op, Pair(r.dp, b1), 2)
          else if op == 0x6D || hi == 0xA || hi == 0xE then
            var reg := IndexReg(r, b1);
            if b1 < 0x80 then IdleOperation(m, op, W16(reg + Offset5(b1)), 2)
            else if b1 % 32 == 4 then IdleOperation(m, op, reg, 2)
            else (No, 2)
          else if op == 0x7D || hi == 0xB || hi == 0xF then
            match Peek(m, W16(a + 2)) {
              case None => (No, 0)
              case Some(b2) => IdleOperation(m, op, Pair(b1, b2), 3)
            }
          else (No, 0)
  }

  // The second half of `idle_insn`: operand address known, kind from the opcode's low nibble.
  function IdleOperation(m: Memory, op: u8, ea: u16, len: nat): (Kind, nat) {
    if op % 16 == 0xD && op < 0x80 then (if IdlePlain(m, ea, false) then Pure else No, len)
    else if op < 0x90 then (No, len)
    else
      var bSide := op >= 0xD0;
      var (kind, wide) := match op % 16 {
        case 0x1 => (Pure, false) case 0x5 => (Pure, false)
        case 0x6 => (if bSide then LoadB else LoadA, false)
        case 0x0 => (if bSide then AluB else AluA, false)
        case 0x4 => (if bSide then AluB else AluA, false)
        case 0x8 => (if bSide then AluB else AluA, false)
        case 0xA => (if bSide then AluB else AluA, false)
        case 0xB => (if bSide then AluB else AluA, false)
        case 0xC => (Pure, true)
        case 0xE => (if bSide then No else Pure, true)
        case _ => (No, false)
      };
      if kind.No? then (No, len)
      else (if IdlePlain(m, ea, wide) then kind else No, len)
  }

  /** `idle_loop_ok`: the branch at `br` returns to `top` over nothing, over one instruction that does not
      depend on what it writes, or over two that are so together. */
  predicate IdleLoopOk(m: Memory, r: Regs, top: u16, br: u16) {
    match Branch(m, br)
    case None => false
    case Some((_, off)) =>
      W16(br + 2 + off) == top &&
      (top == br ||
       var (k1, len1) := IdleInsn(m, r, top);
       !k1.No? && !k1.AluA? && !k1.AluB? &&
       (W16(top + len1) == br ||
        var (k2, len2) := IdleInsn(m, r, W16(top + len1));
        W16(top + len1 + len2) == br &&
        (k2.Pure? || k2.LoadA? || k2.LoadB? || (k2.AluA? && k1.LoadA?) || (k2.AluB? && k1.LoadB?))))
  }

  // ------------------------------------------------------------------
  // Accepted bodies settle
  // ------------------------------------------------------------------

  /** The instruction at `a` is LDX indexed by X: it loads the register it addresses with. */
  predicate SelfLdx(m: Memory, a: u16) {
    match (Peek(m, a), Peek(m, W16(a + 1)))
    case (Some(op), Some(b1)) => op == 0xAE && b1 / 32 % 4 == 0
    case _ => false
  }

  /** What the classifier promises about two body instructions, in terms of their meaning. */
  predicate Reloads(act: Act) {
    !(act.Sub? || act.And? || act.Eor? || act.Or? || act.Add?)
  }

  predicate PairOk(a1: Act, a2: Act) {
    Reloads(a1) && (Reloads(a2) || (a1.Load? && a2.side == a1.side))
  }

  /** The kind each instruction's meaning calls for. */
  function KindOf(act: Act): Kind {
    match act
    case Load(s) => if s.A? then LoadA else LoadB
    case Sub(s) => if s.A? then AluA else AluB
    case And(s) => if s.A? then AluA else AluB
    case Eor(s) => if s.A? then AluA else AluB
    case Or(s) => if s.A? then AluA else AluB
    case Add(s) => if s.A? then AluA else AluB
    case _ => Pure
  }

  lemma OperationSound(m: Memory, op: u8, ea: u16, len: nat, cost: nat)
    requires op == 0x0D || op == 0x6D || op == 0x7D || 0x90 <= op < 0xC0 || op >= 0xD0
    requires !IdleOperation(m, op, ea, len).0.No?
    ensures Opcode(op).Some?
    ensures var act := Opcode(op).value.0;
      Operand(m, Insn(act, len, ea, cost)).Some? && IdleOperation(m, op, ea, len) == (KindOf(act), len)
  {
  }

  /** The classifier against the decoder: an accepted instruction is a modelled one with a plain
      operand, and its kind and length are those of its meaning. */
  lemma ClassifierSound(m: Memory, r: Regs)
    requires !IdleInsn(m, r, r.pc).0.No?
    ensures Decode(m, r).Some? && Operand(m, Decode(m, r).value).Some?
    ensures var i := Decode(m, r).value; IdleInsn(m, r, r.pc) == (KindOf(i.act), i.len)
  {
    var op := Peek(m, r.pc).value;
    if op != 0x12 && op != 0x4D && op != 0x5D {
      var b1 := Peek(m, W16(r.pc + 1)).value;
      var (ea, len) := if op == 0x0D || op / 16 == 0x9 || op / 16 == 0xD then (Pair(r.dp, b1), 2)
        else if op == 0x6D || op / 16 == 0xA || op / 16 == 0xE
        then (if b1 < 0x80 then W16(IndexReg(r, b1) + Offset5(b1)) else IndexReg(r, b1), 2)
        else (Pair(b1, Peek(m, W16(r.pc + 2)).value), 3);
      OperationSound(m, op, ea, len, 0);
      assert Decode(m, r).Some? && Decode(m, r).value.ea == ea;
    }
  }

  lemma PutTwice(cc: Flags, e1: Change, e2: Change)
    ensures var f := Put(Put(cc, e1), e2); Put(Put(f, e1), e2) == f
  {
  }

  // Data registers after a pass no longer depend on the pass before it.
  lemma DataSettles(a1: Act, a2: Act, d0: Data, v0: u16, v1: u16, v2: u16)
    requires PairOk(a1, a2)
    requires !Wide(a1) ==> v0 < 0x100 && v1 < 0x100
    requires !Wide(a2) ==> v2 < 0x100
    requires v0 == v1 || a2.LoadX?
    ensures var d1 := Write(a2, Write(a1, d0, v0), v2);
            var e1 := Write(a1, d1, v1);
            var d2 := Write(a2, e1, v2);
            var e2 := Write(a1, d2, v1);
            Arg(a1, d1) == Arg(a1, d2) && Arg(a2, e1) == Arg(a2, e2) && Write(a2, e2, v2) == d2
  {
  }

  /** With both operands fixed, a pass that follows a pass changes nothing: the one lag is a
      first instruction that reads what the second loads. `v0` is the first instruction's
      operand one pass earlier; it may differ only when the second instruction loads X. */
  lemma PairSettles(a1: Act, a2: Act, r0: Regs, v0: u16, v1: u16, v2: u16)
    requires PairOk(a1, a2)
    requires !Wide(a1) ==> v0 < 0x100 && v1 < 0x100
    requires !Wide(a2) ==> v2 < 0x100
    requires v0 == v1 || a2.LoadX?
    ensures var r1 := Apply(a2, Apply(a1, r0, v0), v2);
            var r2 := Apply(a2, Apply(a1, r1, v1), v2);
            Apply(a2, Apply(a1, r2, v1), v2) == r2
  {
    var r1 := Apply(a2, Apply(a1, r0, v0), v2);
    var s1 := Apply(a1, r1, v1);
    DataSettles(a1, a2, DataOf(r0), v0, v1, v2);
    PutTwice(r1.cc, Changes(a1, Arg(a1, DataOf(r1)), v1), Changes(a2, Arg(a2, DataOf(s1)), v2));
  }

  /** The instruction at `a` addresses memory through X. */
  predicate ByX(m: Memory, a: u16) {
    match (Peek(m, a), Peek(m, W16(a + 1)))
    case (Some(op), Some(b1)) => (op == 0x6D || op / 16 == 0xA || op / 16 == 0xE) && b1 / 32 % 4 == 0
    case _ => false
  }

  // Equal except for the registers a body can write.
  predicate SameFrame(r: Regs, q: Regs) {
    r.pc == q.pc && r.y == q.y && r.u == q.u && r.s == q.s && r.dp == q.dp && r.w == q.w && r.md == q.md
  }

  lemma DecodeFrame(m: Memory, r: Regs, q: Regs)
    requires SameFrame(r, q) && (r.x == q.x || !ByX(m, r.pc))
    ensures Decode(m, r) == Decode(m, q)
  {
  }

  // The same instruction bytes always mean the same operation.
  lemma DecodeAct(m: Memory, r: Regs, q: Regs)
    requires r.pc == q.pc && Decode(m, r).Some? && Step(m, q).Some?
    ensures Branch(m, r.pc).None? && Decode(m, q).Some?
    ensures Decode(m, q).value.act == Decode(m, r).value.act && Decode(m, q).value.len == Decode(m, r).value.len
  {
    hide Opcode, BaseCycles, NativeSave, Operand, Apply;
    OpcodeNoBranch();
  }

  lemma OpcodeNoBranch()
    ensures forall op: u8 | 0x20 <= op < 0x30 :: Opcode(op).None?
  {
  }

  // Result of a modelled instruction that is not a branch.
  function Ran(m: Memory, r: Regs): (Insn, u16)
    requires Branch(m, r.pc).None? && Step(m, r).Some?
  {
    var i := Decode(m, r).value;
    (i, Operand(m, i).value)
  }

  lemma StepWrites(m: Memory, r: Regs)
    requires Branch(m, r.pc).None? && Step(m, r).Some?
    ensures var (i, v) := Ran(m, r); var q := Step(m, r).value.0;
      && q == Apply(i.act, r, v).(pc := W16(r.pc + i.len))
      && q.x == (if i.act.LoadX? then v else r.x)
      && Step(m, r).value.1 == i.cost
      && SameFrame(q, r.(pc := q.pc)) && (!Wide(i.act) ==> v < 0x100)
  {
    hide Decode, Branch, Operand, Apply;
    ApplyKeeps(Ran(m, r).0.act, r, Ran(m, r).1);
  }

  lemma ApplyKeeps(act: Act, r: Regs, v: u16)
    requires !Wide(act) ==> v < 0x100
    ensures Apply(act, r, v).x == (if act.LoadX? then v else r.x) && SameFrame(Apply(act, r, v), r)
  {
    hide Changes, Arg, Put;
  }

  // A step decoded as another at the same place, with the same operand.
  lemma StepAlike(m: Memory, r: Regs, q: Regs)
    requires Branch(m, r.pc).None? && Step(m, r).Some? && r.pc == q.pc && Decode(m, q) == Decode(m, r)
    ensures Step(m, q).Some? && Ran(m, q) == Ran(m, r)
  {
    hide Decode, Branch, Operand, Apply;
  }

  lemma NopKeeps(r: Regs)
    ensures Apply(Nop, r, 0) == r
  {
  }

  /** One body instruction: two passes from the top, the second of which leaves X alone, end in a state
      the next pass reproduces. */
  lemma SingleSettles(m: Memory, r0: Regs, r1: Regs, r2: Regs)
    requires r0.pc == r1.pc && r1.x == r2.x
    requires Decode(m, r1).Some? && Reloads(Decode(m, r1).value.act)
    requires Step(m, r0).Some? && r1 == Step(m, r0).value.0.(pc := r0.pc)
    requires Step(m, r1).Some? && r2 == Step(m, r1).value.0.(pc := r1.pc)
    ensures Step(m, r2) == Step(m, r1)
  {
    hide Decode, Branch, Operand, Apply, Step;
    DecodeAct(m, r1, r0);
    StepWrites(m, r0);
    StepWrites(m, r1);
    DecodeFrame(m, r1, r2);
    StepAlike(m, r1, r2);
    StepWrites(m, r2);
    var (i, v) := Ran(m, r1);
    if !i.act.LoadX? {
      DecodeFrame(m, r0, r1);
      StepAlike(m, r0, r1);
    }
    SingleAt(i.act, r0, v, W16(r1.pc + i.len), r1, r2);
  }

  lemma SingleAt(act: Act, r0: Regs, v: u16, end: u16, r1: Regs, r2: Regs)
    requires Reloads(act) && (!Wide(act) ==> v < 0x100)
    requires r1 == Apply(act, r0, v).(pc := end).(pc := r0.pc) && r2 == Apply(act, r1, v).(pc := end).(pc := r0.pc)
    ensures Apply(act, r2, v).(pc := end) == Apply(act, r1, v).(pc := end)
  {
    hide Apply;
    NopKeeps(Apply(act, r0, v).(pc := end));
    NopKeeps(Apply(act, r1, v).(pc := end));
    NopKeeps(Apply(act, r2, v).(pc := end));
    PairSettlesAt(act, Nop, r0, v, v, 0, end, end, r1, r2);
  }

  // Two body instructions from state `r` at the top: `s` between them, `q` after them.
  ghost predicate TwoSteps(m: Memory, r: Regs, s: Regs, q: Regs, cost: nat) {
    && Step(m, r).Some? && Step(m, r).value.0 == s
    && Step(m, s).Some? && Step(m, s).value.0.(pc := r.pc) == q
    && cost == Step(m, r).value.1 + Step(m, s).value.1
  }

  /** Along two passes the second of which leaves X alone, both instructions see the same operands; only
      that of the first in the very first pass may differ, and only when the second loads X. */
  lemma DoubleDecodes(m: Memory, r0: Regs, s0: Regs, r1: Regs, s1: Regs, r2: Regs, k0: nat, k1: nat)
    requires TwoSteps(m, r0, s0, r1, k0) && TwoSteps(m, r1, s1, r2, k1) && r1.x == r2.x
    requires Decode(m, r2).Some? && Decode(m, r2.(pc := s1.pc)).Some?
    ensures Branch(m, r2.pc).None? && Branch(m, s1.pc).None?
    ensures SameFrame(r1, r2) && r0.pc == r1.pc && s0.pc == s1.pc
    ensures Decode(m, r1) == Decode(m, r2) && SameActs(m, r0, r1) && SameActs(m, s0, s1)
    ensures Decode(m, s1).value.act == Decode(m, r2.(pc := s1.pc)).value.act
    ensures Ran(m, s0).1 == Ran(m, s1).1
    ensures Ran(m, r0).1 == Ran(m, r1).1 || Decode(m, s1).value.act.LoadX?
  {
    hide Decode, Apply, Operand, Branch, Step;
    ActsFromLast(m, r0, s0, r1, s1, r2, k0, k1);
    StepWrites(m, r0);
    StepWrites(m, r1);
    StepWrites(m, s0);
    StepWrites(m, s1);
    DecodeFrame(m, r1, r2);
    if !Decode(m, s1).value.act.LoadX? {
      DecodeFrame(m, s0, s1);
      if !Decode(m, r1).value.act.LoadX? { DecodeFrame(m, r0, r1); }
    }
  }

  // Both decode, and mean the same operation.
  predicate SameActs(m: Memory, r: Regs, q: Regs) {
    && Branch(m, r.pc).None? && Branch(m, q.pc).None? && Step(m, r).Some? && Step(m, q).Some?
    && Decode(m, r).Some? && Decode(m, q).Some?
    && Decode(m, r).value.act == Decode(m, q).value.act && Decode(m, r).value.len == Decode(m, q).value.len
  }

  lemma ActsFromLast(m: Memory, r0: Regs, s0: Regs, r1: Regs, s1: Regs, r2: Regs, k0: nat, k1: nat)
    requires TwoSteps(m, r0, s0, r1, k0) && TwoSteps(m, r1, s1, r2, k1)
    requires Decode(m, r2).Some? && Decode(m, r2.(pc := s1.pc)).Some?
    ensures Branch(m, r2.pc).None? && r0.pc == r1.pc == r2.pc && s0.pc == s1.pc
    ensures SameActs(m, r0, r1) && SameActs(m, s0, s1)
    ensures Decode(m, r1).value.act == Decode(m, r2).value.act
    ensures Decode(m, s1).value.act == Decode(m, r2.(pc := s1.pc)).value.act
  {
    hide Decode, Apply, Operand, Branch, Step;
    DecodeAct(m, r2, r0);
    DecodeAct(m, r2, r1);
    StepWrites(m, r0);
    StepWrites(m, r1);
    DecodeAct(m, r2.(pc := s1.pc), s0);
    DecodeAct(m, r2.(pc := s1.pc), s1);
  }

  lemma PairSettlesAt(a1: Act, a2: Act, r0: Regs, v0: u16, v1: u16, v2: u16, mid: u16, end: u16, r1: Regs, r2: Regs)
    requires PairOk(a1, a2)
    requires !Wide(a1) ==> v0 < 0x100 && v1 < 0x100
    requires !Wide(a2) ==> v2 < 0x100
    requires v0 == v1 || a2.LoadX?
    requires r1 == Apply(a2, Apply(a1, r0, v0).(pc := mid), v2).(pc := end).(pc := r0.pc)
    requires r2 == Apply(a2, Apply(a1, r1, v1).(pc := mid), v2).(pc := end).(pc := r0.pc)
    ensures Apply(a2, Apply(a1, r2, v1).(pc := mid), v2).(pc := end).(pc := r0.pc) == r2
  {
    PairSettles(a1, a2, r0, v0, v1, v2);
  }

  // X between the two instructions of a settled pass.
  lemma MiddleSame(m: Memory, r1: Regs, s1: Regs, r2: Regs) returns (s2: Regs)
    requires Step(m, r1).Some? && Step(m, r1).value.0 == s1
    requires SameFrame(r1, r2) && r1.x == r2.x
    requires Branch(m, r1.pc).None? && Decode(m, r1) == Decode(m, r2)
    ensures Step(m, r2).Some? && s2 == Step(m, r2).value.0 && Step(m, r2).value.1 == Step(m, r1).value.1
    ensures Ran(m, r2) == Ran(m, r1)
    ensures SameFrame(s1, s2) && Decode(m, s1) == Decode(m, s2)
  {
    hide Decode, Operand, Apply, Branch, Step;
    StepAlike(m, r1, r2);
    s2 := Step(m, r2).value.0;
    StepWrites(m, r1);
    StepWrites(m, r2);
    DecodeFrame(m, s1, s2);
  }

  lemma DoubleFinish(m: Memory, r0: Regs, s0: Regs, r1: Regs, s1: Regs, r2: Regs, s2: Regs)
    requires r0.pc == r1.pc == r2.pc && s0.pc == s1.pc == s2.pc
    requires SameActs(m, r0, r1) && SameActs(m, s0, s1)
    requires Step(m, r0).value.0 == s0 && Step(m, s0).value.0.(pc := r0.pc) == r1
    requires Step(m, r1).value.0 == s1 && Step(m, s1).value.0.(pc := r0.pc) == r2
    requires Step(m, r2).Some? && Step(m, r2).value.0 == s2
    requires Decode(m, r1) == Decode(m, r2) && Decode(m, s1) == Decode(m, s2)
    requires PairOk(Decode(m, r1).value.act, Decode(m, s1).value.act)
    requires Ran(m, s0).1 == Ran(m, s1).1
    requires Ran(m, r0).1 == Ran(m, r1).1 || Decode(m, s1).value.act.LoadX?
    ensures Step(m, s2).Some? && Step(m, s2).value.0.(pc := r0.pc) == r2 && Step(m, s2).value.1 == Step(m, s1).value.1
    ensures Step(m, s2).value.0.pc == Step(m, s1).value.0.pc
  {
    hide Decode, Apply;
    StepWrites(m, r0);
    StepWrites(m, r1);
    StepWrites(m, r2);
    StepWrites(m, s0);
    StepWrites(m, s1);
    StepWrites(m, s2);
    var (i1, v1) := Ran(m, r1);
    var (i2, v2) := Ran(m, s1);
    PairSettlesAt(i1.act, i2.act, r0, Ran(m, r0).1, v1, v2, s1.pc, W16(s1.pc + i2.len), r1, r2);
  }

  /** Two body instructions: the same. */
  lemma DoubleSettles(m: Memory, r0: Regs, s0: Regs, r1: Regs, s1: Regs, r2: Regs, k0: nat, k1: nat)
    returns (s2: Regs)
    requires TwoSteps(m, r0, s0, r1, k0) && TwoSteps(m, r1, s1, r2, k1) && r1.x == r2.x
    requires Decode(m, r2).Some? && Decode(m, r2.(pc := s1.pc)).Some?
    requires PairOk(Decode(m, r2).value.act, Decode(m, r2.(pc := s1.pc)).value.act)
    ensures TwoSteps(m, r2, s2, r2, k1)
    ensures Step(m, s2).value.0.pc == Step(m, s1).value.0.pc && SameFrame(s1, s2)
  {
    hide Step, Decode, Apply, Branch;
    DoubleDecodes(m, r0, s0, r1, s1, r2, k0, k1);
    s2 := MiddleSame(m, r1, s1, r2);
    DoubleFinish(m, r0, s0, r1, s1, r2, s2);
  }

  // Address of the second instruction of the body at `top`, as the classifier measures it.
  function Second(m: Memory, r: Regs, top: u16): u16 { W16(top + IdleInsn(m, r, top).1) }

  /** Instructions in one pass of an accepted loop, its branch included. */
  function PassLength(m: Memory, r: Regs, top: u16, br: u16): nat {
    if top == br then 1 else if Second(m, r, top) == br then 2 else 3
  }

  lemma PassOne(c: Core)
    ensures Pass(c, 1) == Interp(c)
  {
  }

  lemma PassTwo(c: Core, s: Core)
    requires Interp(c) == Some(s)
    ensures Pass(c, 2) == Interp(s)
  {
    PassOne(s);
  }

  lemma PassThree(c: Core, s: Core)
    requires Interp(c) == Some(s)
    ensures Pass(c, 3) == Pass(s, 2)
  {
  }

  // The branch that closes a pass looks at the flags only.
  lemma BranchSame(m: Memory, q: Regs, p: Regs)
    requires Branch(m, q.pc).Some? && q.pc == p.pc && q.cc == p.cc
    ensures Step(m, q).Some? && Step(m, p).Some? && Step(m, q).value.1 == Step(m, p).value.1 == 3
    ensures Step(m, q).value.0 == q.(pc := Step(m, q).value.0.pc)
    ensures Step(m, p).value.0 == p.(pc := Step(m, q).value.0.pc)
  {
  }

  // The classifier's verdict on the two instructions, in terms of their meaning.
  lemma AcceptedOne(m: Memory, r: Regs, br: u16)
    requires IdleLoopOk(m, r, r.pc, br) && r.pc != br
    ensures Decode(m, r).Some? && Reloads(Decode(m, r).value.act)
    ensures Second(m, r, r.pc) == W16(r.pc + Decode(m, r).value.len)
  {
    ClassifierSound(m, r);
  }

  lemma InsnIgnoresPc(m: Memory, r: Regs, p: u16, a: u16)
    ensures IdleInsn(m, r.(pc := p), a) == IdleInsn(m, r, a)
  {
  }

  lemma AcceptedTwo(m: Memory, r: Regs, br: u16)
    requires IdleLoopOk(m, r, r.pc, br) && r.pc != br && Second(m, r, r.pc) != br
    ensures var q := r.(pc := Second(m, r, r.pc));
      && Decode(m, r).Some? && q.pc == W16(r.pc + Decode(m, r).value.len) && Decode(m, q).Some?
      && PairOk(Decode(m, r).value.act, Decode(m, q).value.act)
      && W16(q.pc + Decode(m, q).value.len) == br
  {
    hide IdleInsn, Decode, Operand, PairOk, Peek, Branch;
    TwoKinds(m, r, br);
    ClassifierSound(m, r);
    var q := r.(pc := Second(m, r, r.pc));
    InsnIgnoresPc(m, r, q.pc, q.pc);
    ClassifierSound(m, q);
    KindsPair(Decode(m, r).value.act, Decode(m, q).value.act);
  }

  // The classifier's rules for the kinds of two instructions.
  predicate KindsOk(k1: Kind, k2: Kind) {
    && !k1.No? && !k1.AluA? && !k1.AluB? && !k2.No?
    && (k2.AluA? ==> k1.LoadA?) && (k2.AluB? ==> k1.LoadB?)
  }

  lemma TwoKinds(m: Memory, r: Regs, br: u16)
    requires IdleLoopOk(m, r, r.pc, br) && r.pc != br && Second(m, r, r.pc) != br
    ensures var q := Second(m, r, r.pc);
      KindsOk(IdleInsn(m, r, r.pc).0, IdleInsn(m, r, q).0) && W16(q + IdleInsn(m, r, q).1) == br
  {
    hide IdleInsn, Branch;
  }

  lemma KindsPair(a1: Act, a2: Act)
    requires KindsOk(KindOf(a1), KindOf(a2))
    ensures PairOk(a1, a2)
  {
  }

  lemma OneSettles(m: Memory, r0: Regs, s0: Regs, r1: Regs, s1: Regs, r2: Regs, br: u16, k: nat)
    requires IdleLoopOk(m, r2, r2.pc, br) && r2.pc != br && Second(m, r2, r2.pc) == br
    requires r0.pc == r1.pc == r2.pc && r1.x == r2.x
    requires Step(m, r0).Some? && Step(m, r0).value.0 == s0 && Step(m, s0) == Some((r1, 3))
    requires Step(m, r1) == Some((s1, k)) && Step(m, s1) == Some((r2, 3))
    ensures Step(m, r2) == Some((s1, k))
  {
    AcceptedOne(m, r2, br);
    OneSettlesAt(m, r0, s0, r1, s1, r2, br, k);
  }

  lemma OneSettlesAt(m: Memory, r0: Regs, s0: Regs, r1: Regs, s1: Regs, r2: Regs, br: u16, k: nat)
    requires Branch(m, br).Some? && r1.x == r2.x
    requires Decode(m, r2).Some? && Reloads(Decode(m, r2).value.act) && br == W16(r2.pc + Decode(m, r2).value.len)
    requires r0.pc == r1.pc == r2.pc
    requires Step(m, r0).Some? && Step(m, r0).value.0 == s0 && Step(m, s0) == Some((r1, 3))
    requires Step(m, r1) == Some((s1, k)) && Step(m, s1) == Some((r2, 3))
    ensures Step(m, r2) == Some((s1, k))
  {
    hide Decode, Apply, Operand, Step, SelfLdx, Branch;
    DecodeAct(m, r2, r0);
    DecodeAct(m, r2, r1);
    StepWrites(m, r0);
    StepWrites(m, r1);
    BranchSame(m, s0, s0);
    BranchSame(m, s1, s1);
    SingleSettles(m, r0, r1, r2);
  }

  lemma TwoSettle(m: Memory, r0: Regs, s0: Regs, t0: Regs, r1: Regs, s1: Regs, t1: Regs, r2: Regs, br: u16, k: nat)
    returns (s2: Regs)
    requires IdleLoopOk(m, r2, r2.pc, br) && r2.pc != br && Second(m, r2, r2.pc) != br
    requires r0.pc == r1.pc == r2.pc && r1.x == r2.x
    requires Step(m, r0).Some? && Step(m, r0).value.0 == s0 && Step(m, s0).Some? && Step(m, s0).value.0 == t0
    requires Step(m, t0) == Some((r1, 3))
    requires Step(m, r1).Some? && Step(m, r1).value.0 == s1 && Step(m, s1).Some? && Step(m, s1).value.0 == t1
    requires Step(m, t1) == Some((r2, 3)) && k == Step(m, r1).value.1 + Step(m, s1).value.1
    ensures Step(m, r2).Some? && Step(m, r2).value.0 == s2
    ensures Step(m, s2).Some? && Step(m, s2).value.0 == t1 && Step(m, r2).value.1 + Step(m, s2).value.1 == k
  {
    hide Decode, Apply, Operand, Step, SelfLdx, Branch, IdleInsn;
    AcceptedTwo(m, r2, br);
    DecodeAct(m, r2, r0);
    DecodeAct(m, r2, r1);
    StepWrites(m, r0);
    StepWrites(m, r1);
    var q := r2.(pc := Second(m, r2, r2.pc));
    DecodeAct(m, q, s0);
    DecodeAct(m, q, s1);
    StepWrites(m, s0);
    StepWrites(m, s1);
    BranchSame(m, t0, t0);
    BranchSame(m, t1, t1);
    s2 := DoubleSettles(m, r0, s0, r1, s1, r2,
                        Step(m, r0).value.1 + Step(m, s0).value.1, k);
  }

  /** The state after two full passes of an accepted loop from its top, the last one taking
      `period` cycles. */
  ghost predicate TwoPasses(c0: Core, c1: Core, c2: Core, br: u16, period: nat) {
    && c0.r.pc == c1.r.pc == c2.r.pc
    && IdleLoopOk(c2.mem, c2.r, c2.r.pc, br)
    && Pass(c0, PassLength(c2.mem, c2.r, c2.r.pc, br)) == Some(c1)
    && Pass(c1, PassLength(c2.mem, c2.r, c2.r.pc, br)) == Some(c2)
    && c1.cycles + period == c2.cycles
  }

  lemma EmptyBodySettles(c0: Core, c1: Core, c2: Core, br: u16, period: nat)
    requires TwoPasses(c0, c1, c2, br, period) && c2.r.pc == br
    ensures Pass(c2, 1) == Some(c2.(cycles := c2.cycles + period)) && period > 0
  {
    hide Decode, Apply, Operand, SelfLdx, Branch, IdleInsn;
    PassOne(c0); PassOne(c1); PassOne(c2);
    BranchSame(c2.mem, c1.r, c1.r);
  }

  lemma OneBodySettles(c0: Core, c1: Core, c2: Core, br: u16, period: nat)
    requires TwoPasses(c0, c1, c2, br, period) && c1.r.x == c2.r.x
    requires c2.r.pc != br && Second(c2.mem, c2.r, c2.r.pc) == br
    ensures Pass(c2, 2) == Some(c2.(cycles := c2.cycles + period)) && period > 0
  {
    hide Decode, Apply, Operand, Step, SelfLdx, Branch, IdleInsn;
    var m := c2.mem;
    var s0, s1 := Interp(c0).value, Interp(c1).value;
    PassTwo(c0, s0); PassTwo(c1, s1);
    assert c0.mem == m;
    AcceptedOne(m, c2.r, br);
    DecodeAct(m, c2.r, c0.r);
    DecodeAct(m, c2.r, c1.r);
    StepWrites(m, c0.r);
    StepWrites(m, c1.r);
    BranchSame(m, s0.r, s0.r);
    BranchSame(m, s1.r, s1.r);
    OneSettles(m, c0.r, s0.r, c1.r, s1.r, c2.r, br, s1.cycles - c1.cycles);
    PassTwo(c2, Interp(c2).value);
  }

  lemma TwoBodySettles(c0: Core, c1: Core, c2: Core, br: u16, period: nat)
    requires TwoPasses(c0, c1, c2, br, period) && c1.r.x == c2.r.x
    requires c2.r.pc != br && Second(c2.mem, c2.r, c2.r.pc) != br
    ensures Pass(c2, 3) == Some(c2.(cycles := c2.cycles + period)) && period > 0
  {
    hide Decode, Apply, Operand, Step, SelfLdx, Branch, IdleInsn;
    var m := c2.mem;
    var s0, s1 := Interp(c0).value, Interp(c1).value;
    PassThree(c0, s0); PassThree(c1, s1);
    var t0, t1 := Interp(s0).value, Interp(s1).value;
    PassTwo(s0, t0); PassTwo(s1, t1);
    assert c0.mem == m;
    AcceptedTwo(m, c2.r, br);
    TwoEnds(m, c0.r, s0.r, t0.r, c2.r, br);
    TwoEnds(m, c1.r, s1.r, t1.r, c2.r, br);
    BranchSame(m, t0.r, t0.r);
    BranchSame(m, t1.r, t1.r);
    var p2 := TwoSettle(m, c0.r, s0.r, t0.r, c1.r, s1.r, t1.r, c2.r, br, t1.cycles - c1.cycles);
    PassThree(c2, Interp(c2).value);
    PassTwo(Interp(c2).value, Interp(Interp(c2).value).value);
  }

  // Every run of the two body instructions ends at the branch.
  lemma TwoEnds(m: Memory, r: Regs, s: Regs, t: Regs, q: Regs, br: u16)
    requires IdleLoopOk(m, q, q.pc, br) && q.pc != br && Second(m, q, q.pc) != br
    requires r.pc == q.pc
    requires Step(m, r).Some? && Step(m, r).value.0 == s && Step(m, s).Some? && Step(m, s).value.0 == t
    ensures t.pc == br && Branch(m, br).Some?
  {
    hide Decode, Apply, Operand, Step, SelfLdx, Branch, IdleInsn;
    AcceptedTwo(m, q, br);
    DecodeAct(m, q, r);
    StepWrites(m, r);
    DecodeAct(m, q.(pc := Second(m, q, q.pc)), s);
    StepWrites(m, s);
  }

  /** The fixpoint behind the skip. Once two passes from the top of an accepted body have run, the second
      of which left X alone, the next pass takes as long as that one and reproduces every register;
      memory and interrupt lines are never touched. */
  lemma AcceptedLoopSettles(c0: Core, c1: Core, c2: Core, br: u16, period: nat)
    requires TwoPasses(c0, c1, c2, br, period) && c1.r.x == c2.r.x
    ensures Pass(c2, PassLength(c2.mem, c2.r, c2.r.pc, br)) == Some(c2.(cycles := c2.cycles + period))
    ensures period > 0
  {
    hide TwoPasses, Pass, Second, Step;
    if c2.r.pc == br {
      EmptyBodySettles(c0, c1, c2, br, period);
    } else if Second(c2.mem, c2.r, c2.r.pc) == br {
      OneBodySettles(c0, c1, c2, br, period);
    } else {
      TwoBodySettles(c0, c1, c2, br, period);
    }
  }

  // The instruction at `a` loads X.
  predicate LoadsX(m: Memory, a: u16) {
    match Peek(m, a)
    case Some(op) => op == 0x9E || op == 0xAE || op == 0xBE
    case None => false
  }

  /** Which accepted bodies settle X whatever is in memory: those in which no LDX is indexed by X, and
      those which hold another LDX, one that is not. */
  predicate SettlesX(m: Memory, r: Regs, top: u16, br: u16) {
    top == br ||
    var next := Second(m, r, top);
    if next == br then !SelfLdx(m, top)
    else (!SelfLdx(m, top) && (LoadsX(m, top) || !SelfLdx(m, next))) || (LoadsX(m, next) && !SelfLdx(m, next))
  }

  lemma LoadsXAct(m: Memory, r: Regs)
    requires Decode(m, r).Some?
    ensures LoadsX(m, r.pc) <==> Decode(m, r).value.act.LoadX?
    ensures Decode(m, r).value.act.LoadX? && ByX(m, r.pc) ==> SelfLdx(m, r.pc)
  {
  }

  lemma OneSettlesX(m: Memory, r0: Regs, r1: Regs, r2: Regs)
    requires r0.pc == r1.pc && !SelfLdx(m, r1.pc) && Decode(m, r1).Some?
    requires Step(m, r0).Some? && r1 == Step(m, r0).value.0.(pc := r0.pc)
    requires Step(m, r1).Some? && r2 == Step(m, r1).value.0.(pc := r1.pc)
    ensures r1.x == r2.x
  {
    hide Decode, Apply, Operand, Step, SelfLdx, Branch, LoadsX;
    DecodeAct(m, r1, r0);
    StepWrites(m, r0);
    StepWrites(m, r1);
    LoadsXAct(m, r1);
    if Decode(m, r1).value.act.LoadX? { DecodeFrame(m, r0, r1); }
  }

  lemma TwoSettleX(m: Memory, r0: Regs, s0: Regs, r1: Regs, s1: Regs, r2: Regs, k0: nat, k1: nat)
    requires TwoSteps(m, r0, s0, r1, k0) && TwoSteps(m, r1, s1, r2, k1)
    requires Decode(m, r2).Some? && Decode(m, r2.(pc := s1.pc)).Some?
    requires (!SelfLdx(m, r2.pc) && (LoadsX(m, r2.pc) || !SelfLdx(m, s1.pc))) ||
             (LoadsX(m, s1.pc) && !SelfLdx(m, s1.pc))
    ensures r1.x == r2.x
  {
    hide Decode, Apply, Operand, Step, SelfLdx, Branch, LoadsX;
    ActsFromLast(m, r0, s0, r1, s1, r2, k0, k1);
    StepWrites(m, r0);
    StepWrites(m, r1);
    StepWrites(m, s0);
    StepWrites(m, s1);
    LoadsXAct(m, r1);
    LoadsXAct(m, s1);
    if !SelfLdx(m, r2.pc) && LoadsX(m, r2.pc) { DecodeFrame(m, r0, r1); }
    if LoadsX(m, s1.pc) && (s0.x == s1.x || !SelfLdx(m, s1.pc)) { DecodeFrame(m, s0, s1); }
  }

  /** Such a body leaves X alone from the second pass on. */
  lemma XSettles(c0: Core, c1: Core, c2: Core, br: u16, period: nat)
    requires TwoPasses(c0, c1, c2, br, period) && SettlesX(c2.mem, c2.r, c2.r.pc, br)
    ensures c1.r.x == c2.r.x
  {
    hide Decode, Apply, Operand, Step, SelfLdx, Branch, IdleInsn, LoadsX;
    var m := c2.mem;
    if c2.r.pc == br {
      PassOne(c0); PassOne(c1);
      BranchSame(m, c0.r, c0.r);
      BranchSame(m, c1.r, c1.r);
    } else if Second(m, c2.r, c2.r.pc) == br {
      XSettlesOne(c0, c1, c2, br, period);
    } else {
      XSettlesTwo(c0, c1, c2, br, period);
    }
  }

  lemma XSettlesOne(c0: Core, c1: Core, c2: Core, br: u16, period: nat)
    requires TwoPasses(c0, c1, c2, br, period) && !SelfLdx(c2.mem, c2.r.pc)
    requires c2.r.pc != br && Second(c2.mem, c2.r, c2.r.pc) == br
    ensures c1.r.x == c2.r.x
  {
    hide Decode, Apply, Operand, Step, SelfLdx, Branch, IdleInsn;
    var m := c2.mem;
    var s0, s1 := Interp(c0).value, Interp(c1).value;
    PassTwo(c0, s0); PassTwo(c1, s1);
    assert c0.mem == m;
    AcceptedOne(m, c2.r, br);
    DecodeAct(m, c2.r, c0.r);
    DecodeAct(m, c2.r, c1.r);
    StepWrites(m, c0.r);
    StepWrites(m, c1.r);
    BranchSame(m, s0.r, s0.r);
    BranchSame(m, s1.r, s1.r);
    OneSettlesX(m, c0.r, c1.r, c2.r);
  }

  lemma XSettlesTwo(c0: Core, c1: Core, c2: Core, br: u16, period: nat)
    requires TwoPasses(c0, c1, c2, br, period) && SettlesX(c2.mem, c2.r, c2.r.pc, br)
    requires c2.r.pc != br && Second(c2.mem, c2.r, c2.r.pc) != br
    ensures c1.r.x == c2.r.x
  {
    hide Decode, Apply, Operand, Step, SelfLdx, Branch, IdleInsn, LoadsX;
    var m := c2.mem;
    var s0, s1 := Interp(c0).value, Interp(c1).value;
    PassThree(c0, s0); PassThree(c1, s1);
    var t0, t1 := Interp(s0).value, Interp(s1).value;
    PassTwo(s0, t0); PassTwo(s1, t1);
    assert c0.mem == m;
    AcceptedTwo(m, c2.r, br);
    TwoEnds(m, c0.r, s0.r, t0.r, c2.r, br);
    TwoEnds(m, c1.r, s1.r, t1.r, c2.r, br);
    BranchSame(m, t0.r, t0.r);
    BranchSame(m, t1.r, t1.r);
    DecodeAct(m, c2.r, c1.r);
    StepWrites(m, c1.r);
    TwoSettleX(m, c0.r, s0.r, c1.r, s1.r, c2.r, t0.cycles - c0.cycles, t1.cycles - c1.cycles);
  }

  // ------------------------------------------------------------------
  // What is accepted, exactly
  // ------------------------------------------------------------------

  lemma OperationComplete(m: Memory, op: u8, ea: u16, len: nat, cost: nat)
    requires op == 0x0D || op == 0x6D || op == 0x7D || 0x90 <= op < 0xC0 || op >= 0xD0
    requires Opcode(op).Some? && Operand(m, Insn(Opcode(op).value.0, len, ea, cost)).Some?
    ensures !IdleOperation(m, op, ea, len).0.No?
  {
    hide Peek;
  }

  /** The classifier takes every modelled instruction with a plain operand and no other. */
  lemma ClassifierExact(m: Memory, r: Regs)
    ensures !IdleInsn(m, r, r.pc).0.No? <==> Decode(m, r).Some? && Operand(m, Decode(m, r).value).Some?
  {
    if !IdleInsn(m, r, r.pc).0.No? {
      ClassifierSound(m, r);
    } else if Decode(m, r).Some? && Operand(m, Decode(m, r).value).Some? {
      AcceptsPlain(m, r);
    }
  }

  lemma AcceptsPlain(m: Memory, r: Regs)
    requires Decode(m, r).Some? && Operand(m, Decode(m, r).value).Some?
    ensures !IdleInsn(m, r, r.pc).0.No?
  {
    hide Opcode, Peek, Operand, BaseCycles, NativeSave, IdleOperation, Pair, IndexReg, Offset5;
    var i := Decode(m, r).value;
    var op := Peek(m, r.pc).value;
    ModeOf(op);
    if op != 0x12 && op != 0x4D && op != 0x5D {
      SameOperandOf(m, i, Insn(i.act, i.len, i.ea, 0));
      OperationComplete(m, op, i.ea, i.len, 0);
    }
  }

  lemma SameOperandOf(m: Memory, i: Insn, j: Insn)
    requires i.act == j.act && i.ea == j.ea
    ensures Operand(m, i) == Operand(m, j)
  {
  }

  lemma ModeOf(op: u8)
    requires Opcode(op).Some?
    ensures match Opcode(op).value.1
            case Inherent => op == 0x12 || op == 0x4D || op == 0x5D
            case Direct => op == 0x0D || op / 16 == 0x9 || op / 16 == 0xD
            case Indexed => op == 0x6D || op / 16 == 0xA || op / 16 == 0xE
            case Extended => op == 0x7D || op / 16 == 0xB || op / 16 == 0xF
  {
  }

  // A modelled instruction whose operand is plain memory.
  predicate Modelled(m: Memory, r: Regs) { Decode(m, r).Some? && Operand(m, Decode(m, r).value).Some? }

  // The instruction after the one at PC.
  function Following(m: Memory, r: Regs): Regs
    requires Decode(m, r).Some?
  {
    r.(pc := W16(r.pc + Decode(m, r).value.len))
  }

  /** A loop is accepted exactly when the short branch at `br` leads to its top and the body is nothing; one plain
      instruction that does not compute on an accumulator; or such a one and a second, which may compute only on
      the accumulator the first has loaded. */
  lemma LoopOkIff(m: Memory, r: Regs, br: u16)
    ensures IdleLoopOk(m, r, r.pc, br) <==>
      && Branch(m, br).Some? && W16(br + 2 + Branch(m, br).value.1) == r.pc
      && (r.pc == br ||
          (Modelled(m, r) && Reloads(Decode(m, r).value.act) &&
           (Following(m, r).pc == br ||
            (Modelled(m, Following(m, r)) && PairOk(Decode(m, r).value.act, Decode(m, Following(m, r)).value.act) &&
             Following(m, Following(m, r)).pc == br))))
  {
    hide Peek, Branch, Decode, Operand, IdleInsn;
    ClassifierExact(m, r);
    if Modelled(m, r) {
      ClassifierSound(m, r);
      KindReloads(Decode(m, r).value.act);
      var q := Following(m, r);
      InsnIgnoresPc(m, r, q.pc, q.pc);
      ClassifierExact(m, q);
      if Modelled(m, q) {
        ClassifierSound(m, q);
        KindsPairIff(Decode(m, r).value.act, Decode(m, q).value.act);
        Summed(r.pc, Decode(m, r).value.len, Decode(m, q).value.len);
      }
    }
  }

  lemma Summed(a: u16, n: nat, k: nat)
    ensures W16(W16(a + n) + k) == W16(a + n + k)
  {
  }

  lemma KindReloads(act: Act)
    ensures Reloads(act) <==> !KindOf(act).AluA? && !KindOf(act).AluB?
    ensures !KindOf(act).No?
  {
  }

  lemma KindsPairIff(a1: Act, a2: Act)
    ensures KindsOk(KindOf(a1), KindOf(a2)) <==> PairOk(a1, a2)
  {
  }

  // ------------------------------------------------------------------
  // Run loop
  // ------------------------------------------------------------------

  // Bookkeeping of the skip: `rej` is a rejected branch plus one, `br`/`cyc` the last branch
  // looked at and the cycle count then.
  datatype Idle = Idle(on: bool, rej: u32, br: int, cyc: u32)

  /** Everything outside the modelled instructions: `other` executes one other instruction,
      `service` one turn of the loop with a halt, wait or acceptable interrupt present, and
      `note` is what such a turn leaves in the bookkeeping. */
  datatype World = World(other: Core -> Core, service: (Core, int) -> Core, note: (Core, Idle, int) -> Idle)

  ghost predicate Advances(w: World) {
    && (forall c :: w.other(c).cycles > c.cycles)
    && (forall c, b :: w.service(c, b).cycles > c.cycles)
  }

  const IDLE_PERIOD_MAX := 16
  const IDLE_BODY_MAX := 6

  // Low 32 bits read as a signed number.
  function Int32(x: u32): int { if x < 0x8000_0000 then x else x - 0x1_0000_0000 }

  // Whole passes that fit into `left`, and their cycles.
  function Passes(left: nat, period: nat): (k: nat)
    requires period > 0
    ensures k * period <= left < k * period + period
  {
    assert left / period * period == left - left % period;
    left / period
  }

  function WholePasses(left: nat, period: nat): (skip: nat)
    requires period > 0
    ensures skip <= left
  {
    Passes(left, period) * period
  }

  /** `idle_loop_check`, after the branch at `br` was taken back to the program counter. */
  function IdleCheck(c: Core, i: Idle, br: u16, budget: int): (Core, Idle) {
    if i.rej == br + 1 then (c, i)
    else
      var now := W32(c.cycles);
      var period := W32(now - i.cyc);
      var i1 := i.(br := br, cyc := now);
      if i.br != br || period == 0 || period > IDLE_PERIOD_MAX then (c, i1)
      else
        var left := budget - Int32(now);
        if left <= period then (c, i1)
        else if !IdleLoopOk(c.mem, c.r, c.r.pc, br) then (c, i1.(rej := br + 1))
        else
          var skip := WholePasses(left, period);
          (c.(cycles := c.cycles + skip), i1.(cyc := W32(now + skip)))
  }

  // A taken short branch back over at most IDLE_BODY_MAX bytes: its address.
  function BackBranch(c: Core): Option<u16> {
    match Branch(c.mem, c.r.pc)
    case None => None
    case Some((cond, off)) =>
      if Taken(c.r.cc, cond) && off < 0 && off >= -(IDLE_BODY_MAX + 2) then Some(c.r.pc) else None
  }

  function Turn(w: World, c: Core, budget: int): Core {
    if !Calm(c) then w.service(c, budget)
    else match Interp(c)
      case None => w.other(c)
      case Some(c1) => c1
  }

  // An interpreted turn with the check that follows a short branch back.
  function Hooked(c: Core, i: Idle, budget: int): (Core, Idle)
    requires Interp(c).Some?
  {
    match BackBranch(c)
    case Some(br) => if i.on then IdleCheck(Interp(c).value, i, br, budget) else (Interp(c).value, i)
    case None => (Interp(c).value, i)
  }

  function SkipTurn(w: World, c: Core, i: Idle, budget: int): (Core, Idle) {
    if !Calm(c) then (w.service(c, budget), w.note(c, i, budget))
    else if Interp(c).None? then (w.other(c), w.note(c, i, budget))
    else Hooked(c, i, budget)
  }

  lemma InterpKeeps(c: Core)
    requires Interp(c).Some?
    ensures var q := Interp(c).value;
      q.cycles > c.cycles && q.mem == c.mem && q.lines == c.lines && (Calm(c) ==> Calm(q))
  {
  }

  /** The run loop without the skip: interpret until the budget is used up. */
  ghost function RunPlain(w: World, c: Core, budget: int): Core
    requires Advances(w)
    decreases budget - c.cycles
  {
    if c.cycles >= budget then c
    else
      assert Turn(w, c, budget).cycles > c.cycles by { if Interp(c).Some? { InterpKeeps(c); } }
      RunPlain(w, Turn(w, c, budget), budget)
  }

  lemma SkipTurnAdvances(w: World, c: Core, i: Idle, budget: int)
    requires Advances(w)
    ensures SkipTurn(w, c, i, budget).0.cycles > c.cycles
  {
    hide Step, IdleLoopOk, Branch;
    if Interp(c).Some? { InterpKeeps(c); }
  }

  /** The run loop as the HD6309 build runs it. */
  ghost function RunSkip(w: World, c: Core, i: Idle, budget: int): (Core, Idle)
    requires Advances(w)
    decreases budget - c.cycles
  {
    if c.cycles >= budget then (c, i)
    else
      SkipTurnAdvances(w, c, i, budget);
      var (c1, i1) := SkipTurn(w, c, i, budget);
      RunSkip(w, c1, i1, budget)
  }

  function Later(c: Core, n: nat): Core { c.(cycles := c.cycles + n) }

  /** A pass of modelled instructions that ends within the budget is exactly what the run loop
      does next. */
  lemma {:induction false} PassRuns(w: World, c: Core, q: Core, n: nat, budget: int)
    requires Advances(w) && Calm(c) && Pass(c, n) == Some(q) && q.cycles <= budget
    ensures q.cycles >= c.cycles && Calm(q) && q.mem == c.mem && q.lines == c.lines
    ensures RunPlain(w, c, budget) == RunPlain(w, q, budget)
    decreases n
  {
    hide Step, Calm;
    if n > 0 {
      InterpKeeps(c);
      PassRuns(w, Interp(c).value, q, n - 1, budget);
    }
  }

  /** A pass depends on registers and memory only, neither on the cycle count nor on the lines. */
  lemma {:induction false} PassAlike(c: Core, q: Core, n: nat, d: Core)
    requires Pass(c, n) == Some(q) && d.r == c.r && d.mem == c.mem
    ensures q.cycles >= c.cycles && q.mem == c.mem && q.lines == c.lines
    ensures Pass(d, n) == Some(d.(r := q.r, cycles := d.cycles + q.cycles - c.cycles))
    decreases n
  {
    hide Step;
    if n > 0 {
      PassAlike(Interp(c).value, q, n - 1, Interp(d).value);
    }
  }

  /** Skipping `k` passes of a loop whose pass is a fixpoint leaves the outcome of the call
      unchanged, registers, memory and cycle count alike. */
  lemma {:induction false} SkipExact(w: World, c: Core, n: nat, period: nat, k: nat, budget: int)
    requires Advances(w) && Calm(c)
    requires Pass(c, n) == Some(Later(c, period)) && c.cycles + k * period <= budget
    ensures RunPlain(w, Later(c, k * period), budget) == RunPlain(w, c, budget)
    decreases k
  {
    hide Pass, Calm, Step, SkipTurn;
    if k > 0 {
      assert k * period == period + (k - 1) * period;
      PassRuns(w, c, Later(c, period), n, budget);
      PassAlike(c, Later(c, period), n, Later(c, period));
      SkipExact(w, Later(c, period), n, period, k - 1, budget);
      assert Later(Later(c, period), (k - 1) * period) == Later(c, k * period);
    } else {
      assert Later(c, k * period) == c;
    }
  }

  // What the skip does to a call of `budget` cycles that it catches at `c`.
  ghost predicate SkipMatches(w: World, c: Core, period: nat, budget: int)
    requires Advances(w) && period > 0
  {
    budget > c.cycles + period ==>
      RunPlain(w, Later(c, WholePasses(budget - c.cycles, period)), budget) == RunPlain(w, c, budget)
  }

  /** Exactly when skipping is right. For a loop whose next passes can be interpreted and take
      `period` cycles each, the skip matches interpretation for every budget if and only if the
      very next pass reproduces the registers. */
  lemma SkipExactIff(w: World, c: Core, n: nat, period: nat, q1: Core, q2: Core, q3: Core)
    requires Advances(w) && Calm(c) && period > 0
    requires Pass(c, n) == Some(q1) && Pass(q1, n) == Some(q2) && Pass(q2, n) == Some(q3)
    requires q1.cycles == c.cycles + period && q2.cycles == q1.cycles + period && q3.cycles == q2.cycles + period
    ensures q1.r == c.r <==> forall budget :: SkipMatches(w, c, period, budget)
  {
    hide Pass, Calm, Step, Passes, RunPlain, SkipMatches;
    if q1.r == c.r {
      PassRuns(w, c, q1, n, q1.cycles);
      FixpointMatches(w, c, n, period);
    }
    if forall budget :: SkipMatches(w, c, period, budget) {
      TwoAndThree(w, c, n, period, q1, q2, q3);
    }
  }

  lemma FixpointMatches(w: World, c: Core, n: nat, period: nat)
    requires Advances(w) && Calm(c) && period > 0 && Pass(c, n) == Some(Later(c, period))
    ensures forall budget :: SkipMatches(w, c, period, budget)
  {
    hide Pass, Calm, Passes, RunPlain;
    forall budget: int
      ensures SkipMatches(w, c, period, budget)
    {
      if budget > c.cycles + period {
        SkipExact(w, c, n, period, Passes(budget - c.cycles, period), budget);
      }
    }
  }

  lemma PassesSmall(period: nat)
    requires period > 0
    ensures WholePasses(2 * period, period) == 2 * period && WholePasses(3 * period, period) == 3 * period
  {
    hide Passes;
    var q, t := Passes(2 * period, period), Passes(3 * period, period);
    assert q == 2 && t == 3;
  }

  // Budgets of two and of three periods already force the fixpoint.
  lemma TwoAndThree(w: World, c: Core, n: nat, period: nat, q1: Core, q2: Core, q3: Core)
    requires Advances(w) && Calm(c) && period > 0
    requires Pass(c, n) == Some(q1) && Pass(q1, n) == Some(q2) && Pass(q2, n) == Some(q3)
    requires q1.cycles == c.cycles + period && q2.cycles == q1.cycles + period && q3.cycles == q2.cycles + period
    requires SkipMatches(w, c, period, c.cycles + 2 * period) && SkipMatches(w, c, period, c.cycles + 3 * period)
    ensures q1.r == c.r
  {
    hide Pass, Calm, Step, Passes, WholePasses, RunPlain, SkipMatches;
    MatchesSmall(w, c, period);
    RunToTwo(w, c, n, period, q1, q2);
    RunToThree(w, c, n, period, q1, q2, q3);
    ThirdPass(c, n, period, q1);
  }

  lemma MatchesSmall(w: World, c: Core, period: nat)
    requires Advances(w) && period > 0
    requires SkipMatches(w, c, period, c.cycles + 2 * period) && SkipMatches(w, c, period, c.cycles + 3 * period)
    ensures RunPlain(w, Later(c, 2 * period), c.cycles + 2 * period) == RunPlain(w, c, c.cycles + 2 * period)
    ensures RunPlain(w, Later(c, 3 * period), c.cycles + 3 * period) == RunPlain(w, c, c.cycles + 3 * period)
  {
    hide Passes, WholePasses, RunPlain;
    PassesSmall(period);
    assert c.cycles + 2 * period - c.cycles == 2 * period && c.cycles + 3 * period - c.cycles == 3 * period;
  }

  lemma ThirdPass(c: Core, n: nat, period: nat, q1: Core)
    requires Pass(c, n) == Some(q1)
    requires Pass(Later(c, 2 * period), n) == Some(Later(c, 3 * period))
    ensures q1.r == c.r
  {
    hide Pass;
    PassAlike(c, q1, n, Later(c, 2 * period));
  }

  lemma RunToTwo(w: World, c: Core, n: nat, period: nat, q1: Core, q2: Core)
    requires Advances(w) && Calm(c) && period > 0
    requires Pass(c, n) == Some(q1) && Pass(q1, n) == Some(q2)
    requires q1.cycles == c.cycles + period && q2.cycles == q1.cycles + period
    requires RunPlain(w, Later(c, 2 * period), c.cycles + 2 * period) == RunPlain(w, c, c.cycles + 2 * period)
    ensures q2 == Later(c, 2 * period)
  {
    hide Pass, Calm, Step;
    PassRuns(w, c, q1, n, q2.cycles);
    PassRuns(w, q1, q2, n, q2.cycles);
  }

  lemma RunToThree(w: World, c: Core, n: nat, period: nat, q1: Core, q2: Core, q3: Core)
    requires Advances(w) && Calm(c) && period > 0
    requires Pass(c, n) == Some(q1) && Pass(q1, n) == Some(q2) && Pass(q2, n) == Some(q3)
    requires q1.cycles == c.cycles + period && q2.cycles == q1.cycles + period && q3.cycles == q2.cycles + period
    requires RunPlain(w, Later(c, 3 * period), c.cycles + 3 * period) == RunPlain(w, c, c.cycles + 3 * period)
    ensures q3 == Later(c, 3 * period)
  {
    hide Pass, Calm, Step;
    PassRuns(w, c, q1, n, q3.cycles);
    PassRuns(w, q1, q2, n, q3.cycles);
    PassRuns(w, q2, q3, n, q3.cycles);
  }

  // The skip advances the cycle count after this taken branch.
  predicate Fires(c: Core, i: Idle, br: u16, budget: int) { IdleCheck(c, i, br, budget).0 != c }

  /** Up to the cycle count, `c` is what two whole passes lead to, the second of which left X alone, and
      `idle_cyc` measured exactly one pass. The passes need not lie in this call. */
  ghost predicate Settled(c: Core, i: Idle, br: u16) {
    exists c0, c1, t: nat :: SettledBy(c0, c1, t, c, i, br)
  }

  ghost predicate SettledBy(c0: Core, c1: Core, t: nat, c: Core, i: Idle, br: u16) {
    TwoPasses(c0, c1, c.(cycles := t), br, W32(W32(c.cycles) - i.cyc)) && c1.r.x == c.r.x
  }

  /** Wherever the skip fires in this call, the loop had settled. The code itself does not establish
      this: `idle_br` survives a fall-through, and one pass is enough for it to fire. `SkipsSeen`
      below is a condition on the history that does. */
  ghost predicate SkipsSettled(w: World, c: Core, i: Idle, budget: int)
    requires Advances(w)
    decreases budget - c.cycles
  {
    c.cycles >= budget ||
    (&& (Calm(c) && Interp(c).Some? && BackBranch(c).Some? && i.on &&
         Fires(Interp(c).value, i, BackBranch(c).value, budget) ==>
           Settled(Interp(c).value, i, BackBranch(c).value))
     && (SkipTurnAdvances(w, c, i, budget);
         var (c1, i1) := SkipTurn(w, c, i, budget);
         SkipsSettled(w, c1, i1, budget)))
  }

  lemma FiresMeans(c: Core, i: Idle, br: u16, budget: int)
    requires Fires(c, i, br, budget) && c.cycles < 0x8000_0000
    ensures var period := W32(W32(c.cycles) - i.cyc);
      && period > 0 && budget > c.cycles + period
      && IdleCheck(c, i, br, budget).0 == Later(c, WholePasses(budget - c.cycles, period))
      && IdleLoopOk(c.mem, c.r, c.r.pc, br)
  {
    hide IdleLoopOk, WholePasses;
  }

  lemma InterpCost(c: Core)
    requires Interp(c).Some?
    ensures Interp(c).value.cycles <= c.cycles + 8
  {
  }

  lemma RunTurn(w: World, c: Core, budget: int)
    requires Advances(w) && c.cycles < budget
    ensures RunPlain(w, c, budget) == RunPlain(w, Turn(w, c, budget), budget)
  {
    hide Turn;
  }

  /** One turn of the skipping loop is matched by interpretation. */
  lemma SkipTurnExact(w: World, c: Core, i: Idle, budget: int)
    requires Advances(w) && c.cycles < budget < 0x7FFF_FF00
    requires Calm(c) && Interp(c).Some? && BackBranch(c).Some? && i.on
    requires Fires(Interp(c).value, i, BackBranch(c).value, budget)
    requires Settled(Interp(c).value, i, BackBranch(c).value)
    ensures RunPlain(w, SkipTurn(w, c, i, budget).0, budget) == RunPlain(w, c, budget)
  {
    hide IdleLoopOk, TwoPasses, Pass, PassLength, Step, Calm, Passes, Fires, IdleCheck, Branch, BackBranch, RunPlain;
    RunTurn(w, c, budget);
    var q, br := Interp(c).value, BackBranch(c).value;
    InterpKeeps(c);
    InterpCost(c);
    FiresMeans(q, i, br, budget);
    var period := W32(W32(q.cycles) - i.cyc);
    var c0: Core, c1: Core, t: nat :| SettledBy(c0, c1, t, q, i, br);
    var q' := q.(cycles := t);
    AcceptedLoopSettles(c0, c1, q', br, period);
    PassAlike(q', Later(q', period), PassLength(q.mem, q.r, q.r.pc, br), q);
    SkipExact(w, q, PassLength(q.mem, q.r, q.r.pc, br), period, Passes(budget - q.cycles, period), budget);
  }

  /** The idle-loop skip is exact: if every skip in the call caught a settled loop, the call
      ends with the registers, memory and cycle count that interpreting every pass gives. */
  lemma {:induction false} RunSkipExact(w: World, c: Core, i: Idle, budget: int)
    requires Advances(w) && budget < 0x7FFF_FF00
    requires SkipsSettled(w, c, i, budget)
    ensures RunSkip(w, c, i, budget).0 == RunPlain(w, c, budget)
    decreases budget - c.cycles
  {
    hide IdleLoopOk, Settled, Step, Calm, Branch, BackBranch, IdleCheck;
    if c.cycles < budget {
      SkipTurnAdvances(w, c, i, budget);
      var (c1, i1) := SkipTurn(w, c, i, budget);
      RunSkipExact(w, c1, i1, budget);
      if Calm(c) && Interp(c).Some? && BackBranch(c).Some? && i.on {
        if Fires(Interp(c).value, i, BackBranch(c).value, budget) {
          SkipTurnExact(w, c, i, budget);
        }
      }
    }
  }

  // ------------------------------------------------------------------
  // A condition on the history
  // ------------------------------------------------------------------

  /** The start of one turn of the run loop, and the budget of its call. */
  datatype Moment = Moment(c: Core, i: Idle, budget: int)

  /** The turns so far, those of earlier calls included. */
  type History = seq<Moment>

  // `q` begins a call (which forgets the last branch) or the turn after `p` in the same call.
  predicate Link(p: Moment, q: Moment) {
    q.i.br == -1 || (Calm(p.c) && Interp(p.c).Some? ==> (q.c, q.i) == Hooked(p.c, p.i, p.budget))
  }

  predicate Linked(past: History) {
    forall k | 0 < k < |past| :: Link(past[k - 1], past[k])
  }

  /** The turn `k` was interpreted and led to the registers the next one began with, those of `q` after
      the last; of the last `n` turns only the last took a short branch back, the one at `br`. */
  predicate PassTurn(past: History, k: nat, q: Core, br: u16)
    requires k < |past|
  {
    var c := past[k].c;
    && Calm(c) && Interp(c).Some?
    && Interp(c).value.r == (if k + 1 < |past| then past[k + 1].c.r else q.r)
    && BackBranch(c) == if k + 1 == |past| then Some(br) else None
  }

  /** The last `n` turns are a whole pass from the top over which X stayed the same, and the turn before
      them took the branch at `br` as well. */
  predicate LastPass(past: History, q: Core, n: nat, br: u16) {
    && 0 < n < |past| && past[|past| - n].c.r.pc == q.r.pc && past[|past| - n].c.r.x == q.r.x
    && (forall k | |past| - n <= k < |past| :: PassTurn(past, k, q, br))
    && var c := past[|past| - n - 1].c; Calm(c) && Interp(c).Some? && BackBranch(c) == Some(br)
  }

  /** From turn `a` on, at any time in this call or an earlier one, a whole pass led from the top to the
      registers the last pass began with, and what its turns read has not changed since. */
  predicate EarlierPass(past: History, a: nat, q: Core, n: nat) {
    && 0 < n <= |past| && a + n < |past|
    && past[a].c.r.pc == q.r.pc && past[a + n].c.r == past[|past| - n].c.r
    && forall k | a <= k < a + n :: Retraced(q.mem, past[k].c.r, past[k + 1].c.r)
  }

  predicate Retraced(m: Memory, r: Regs, next: Regs) { Step(m, r).Some? && Step(m, r).value.0 == next }

  ghost predicate TwicePassed(past: History, q: Core, br: u16) {
    var n := PassLength(q.mem, q.r, q.r.pc, br);
    LastPass(past, q, n, br) && exists a: nat :: EarlierPass(past, a, q, n)
  }

  /** Wherever the skip fires in this call, `TwicePassed` holds of the turns made so far. */
  ghost predicate SkipsSeen(w: World, c: Core, i: Idle, budget: int, past: History)
    requires Advances(w)
    decreases budget - c.cycles
  {
    c.cycles >= budget ||
    (&& (Calm(c) && Interp(c).Some? && BackBranch(c).Some? && i.on &&
         Fires(Interp(c).value, i, BackBranch(c).value, budget) ==>
           TwicePassed(past + [Moment(c, i, budget)], Interp(c).value, BackBranch(c).value))
     && (SkipTurnAdvances(w, c, i, budget);
         var (c1, i1) := SkipTurn(w, c, i, budget);
         SkipsSeen(w, c1, i1, budget, past + [Moment(c, i, budget)])))
  }

  lemma LinkedMore(past: History, t: Moment)
    requires Linked(past) && (past != [] ==> Link(past[|past| - 1], t))
    ensures Linked(past + [t])
  {
    hide Link;
    var p := past + [t];
    forall k | 0 < k < |p|
      ensures Link(p[k - 1], p[k])
    {
      if k < |past| { assert Link(past[k - 1], past[k]); }
    }
  }

  // A branch that is looked at notes the time, unless it is rejected.
  lemma BranchNotes(c: Core, i: Idle, br: u16, budget: int)
    requires Interp(c).Some? && BackBranch(c) == Some(br)
    ensures var (q, i') := Hooked(c, i, budget);
      && q == Interp(c).value.(cycles := q.cycles) && i'.on == i.on
      && (i.on ==> i'.rej == br + 1 || (i'.br == br && i'.cyc == W32(q.cycles)))
  {
    hide Step, Calm, BackBranch, IdleLoopOk, WholePasses, Int32;
    var cycles := Interp(c).value.cycles;
    var left, period := budget - Int32(W32(cycles)), W32(W32(cycles) - i.cyc);
    if period > 0 && left >= 0 { SameWrap(W32(cycles) + WholePasses(left, period), cycles / 0x1_0000_0000); }
  }

  // Over the last pass the bookkeeping did not change, so no call began.
  lemma {:induction false} LastPassRuns(past: History, q: Core, n: nat, br: u16, k: nat)
    requires Linked(past) && LastPass(past, q, n, br) && past[|past| - 1].i.br == br
    requires Interp(past[|past| - 1].c) == Some(q) && |past| - n <= k < |past|
    ensures past[k].i == past[|past| - 1].i && Pass(past[k].c, |past| - k) == Some(q)
    decreases |past| - k
  {
    hide Interp, Calm, BackBranch;
    assert PassTurn(past, k, q, br);
    if k + 1 == |past| {
      PassOne(past[k].c);
    } else {
      LastPassRuns(past, q, n, br, k + 1);
      assert Link(past[k + 1 - 1], past[k + 1]);
    }
  }

  // The earlier pass, in the memory of now.
  lemma {:induction false} EarlierRuns(past: History, a: nat, q: Core, n: nat, j: nat, c: Core)
    requires EarlierPass(past, a, q, n) && j <= n && c.mem == q.mem && c.r == past[a + n - j].c.r
    ensures Pass(c, j).Some? && Pass(c, j).value.r == past[a + n].c.r
    decreases j
  {
    hide Step, PassLength;
    if j > 0 {
      assert Retraced(q.mem, past[a + n - j].c.r, past[a + n - j + 1].c.r);
      EarlierRuns(past, a, q, n, j - 1, Interp(c).value);
    }
  }

  // The time noted is that of the start of the last pass.
  lemma SeenTime(past: History, q: Core, n: nat, br: u16, budget: int)
    requires Linked(past) && LastPass(past, q, n, br) && Interp(past[|past| - 1].c) == Some(q)
    requires var i := past[|past| - 1].i; i.on && i.br == br && i.rej != br + 1
    ensures past[|past| - 1].i.cyc == W32(past[|past| - n].c.cycles)
  {
    hide Hooked, Calm, Interp, BackBranch, PassTurn;
    var u := |past| - n - 1;
    LastPassRuns(past, q, n, br, u + 1);
    assert Link(past[u + 1 - 1], past[u + 1]);
    BranchNotes(past[u].c, past[u].i, br, past[u].budget);
  }

  lemma FiresNeeds(q: Core, i: Idle, br: u16, budget: int)
    requires Fires(q, i, br, budget)
    ensures i.br == br && i.rej != br + 1 && IdleLoopOk(q.mem, q.r, q.r.pc, br)
  {
    hide IdleLoopOk, WholePasses, Int32;
  }

  lemma SeenIsSettled(past: History, q: Core, br: u16, budget: int)
    requires past != [] && Linked(past) && TwicePassed(past, q, br) && Interp(past[|past| - 1].c) == Some(q)
    requires var i := past[|past| - 1].i; i.on && Fires(q, i, br, budget)
    requires q.cycles < 0x8000_0000
    ensures Settled(q, past[|past| - 1].i, br)
  {
    hide Calm, Interp, BackBranch, IdleLoopOk, Pass, PassLength, PassTurn, Linked, Fires, Retraced, Settled, TwoPasses;
    var n, i := PassLength(q.mem, q.r, q.r.pc, br), past[|past| - 1].i;
    FiresNeeds(q, i, br, budget);
    var a: nat :| EarlierPass(past, a, q, n);
    SeenTime(past, q, n, br, budget);
    var c1 := past[|past| - n].c;
    LastPassRuns(past, q, n, br, |past| - n);
    PassAlike(c1, q, n, c1);
    Wraps(c1.cycles, q.cycles - c1.cycles);
    var c0 := q.(r := past[a].c.r);
    EarlierRuns(past, a, q, n, n, c0);
    SettledAlike(c0, c1, q, n, i, br);
  }

  // Two passes in a row, up to the cycle counts between them.
  lemma SettledAlike(c0: Core, c1: Core, q: Core, n: nat, i: Idle, br: u16)
    requires c0.mem == q.mem && c0.lines == q.lines && c0.r.pc == q.r.pc
    requires c1.r.pc == q.r.pc && c1.r.x == q.r.x
    requires IdleLoopOk(q.mem, q.r, q.r.pc, br) && n == PassLength(q.mem, q.r, q.r.pc, br)
    requires Pass(c0, n).Some? && Pass(c0, n).value.r == c1.r && Pass(c1, n) == Some(q)
    requires q.cycles >= c1.cycles && q.cycles - c1.cycles == W32(W32(q.cycles) - i.cyc)
    ensures Settled(q, i, br)
  {
    hide IdleLoopOk, Pass, PassLength;
    var p1 := Pass(c0, n).value;
    PassAlike(c0, p1, n, c0);
    PassAlike(c1, q, n, c1);
    PassAlike(c1, q, n, p1);
    var t := p1.cycles + q.cycles - c1.cycles;
    assert SettledBy(c0, p1, t, q, i, br);
  }

  lemma {:induction false} SeenSettles(w: World, c: Core, i: Idle, budget: int, past: History)
    requires Advances(w) && budget < 0x7FFF_FF00
    requires SkipsSeen(w, c, i, budget, past) && Linked(past + [Moment(c, i, budget)])
    ensures SkipsSettled(w, c, i, budget)
    decreases budget - c.cycles
  {
    hide IdleLoopOk, Settled, Interp, Calm, Branch, BackBranch, Hooked, TwicePassed, Fires, Linked;
    if c.cycles < budget {
      SkipTurnAdvances(w, c, i, budget);
      var (c1, i1) := SkipTurn(w, c, i, budget);
      var p := past + [Moment(c, i, budget)];
      LinkedMore(p, Moment(c1, i1, budget));
      SeenSettles(w, c1, i1, budget, p);
      if Calm(c) && Interp(c).Some? && BackBranch(c).Some? && i.on {
        if Fires(Interp(c).value, i, BackBranch(c).value, budget) {
          InterpCost(c);
          SeenIsSettled(p, Interp(c).value, BackBranch(c).value, budget);
        }
      }
    }
  }

  /** The skip is exact in every call in which, wherever it fires, the last turns are a whole pass from the
      top of the loop to its branch, taken before and after, with X the same, and the registers that pass
      began with are what a whole pass led to before, in this call or an earlier one, over memory that has
      not changed. That `idle_cyc` measured the last pass is proved. By `XSettles` X does stay the same in
      every accepted body that does not depend on an LDX indexed by X. */
  lemma RunSkipExactSeen(w: World, c: Core, i: Idle, budget: int, past: History)
    requires Advances(w) && budget < 0x7FFF_FF00 && Linked(past) && i.br == -1
    requires SkipsSeen(w, c, i, budget, past)
    ensures RunSkip(w, c, i, budget).0 == RunPlain(w, c, budget)
  {
    hide SkipsSeen, SkipsSettled, RunSkip, RunPlain, SkipTurn, Linked;
    LinkedMore(past, Moment(c, i, budget));
    SeenSettles(w, c, i, budget, past);
    RunSkipExact(w, c, i, budget);
  }

  // ------------------------------------------------------------------
  // Sequences of run calls
  // ------------------------------------------------------------------

  /** One run call: the devices as it finds them, what the machine does before it, its budget. */
  datatype Call = Call(world: World, before: Core -> Core, budget: int)

  // Every call begins with a cycle count of 0, whatever was done to the CPU in between.
  function Enter(call: Call, c: Core): Core { call.before(c).(cycles := 0) }

  ghost predicate Proper(calls: seq<Call>) {
    forall k | 0 <= k < |calls| :: Advances(calls[k].world) && calls[k].budget < 0x7FFF_FF00
  }

  lemma ProperRest(calls: seq<Call>)
    requires Proper(calls) && calls != []
    ensures Proper(calls[1..]) && Advances(calls[0].world) && calls[0].budget < 0x7FFF_FF00
  {
    hide Advances;
  }

  /** Where the calls end, one state for each, without the skip. */
  ghost function SessionPlain(calls: seq<Call>, c: Core): (ends: seq<Core>)
    requires Proper(calls)
    ensures |ends| == |calls|
    decreases |calls|
  {
    if calls == [] then []
    else
      ProperRest(calls);
      var q := RunPlain(calls[0].world, Enter(calls[0], c), calls[0].budget);
      [q] + SessionPlain(calls[1..], q)
  }

  /** And with it: the rejected branch is remembered from call to call, the last branch is not. */
  ghost function SessionSkip(calls: seq<Call>, c: Core, i: Idle): (ends: seq<Core>)
    requires Proper(calls)
    ensures |ends| == |calls|
    decreases |calls|
  {
    if calls == [] then []
    else
      ProperRest(calls);
      var (q, j) := RunSkip(calls[0].world, Enter(calls[0], c), i.(br := -1), calls[0].budget);
      [q] + SessionSkip(calls[1..], q, j)
  }

  // The turns of one call.
  ghost function Moments(w: World, c: Core, i: Idle, budget: int): History
    requires Advances(w)
    decreases budget - c.cycles
  {
    if c.cycles >= budget then []
    else
      SkipTurnAdvances(w, c, i, budget);
      var (c1, i1) := SkipTurn(w, c, i, budget);
      [Moment(c, i, budget)] + Moments(w, c1, i1, budget)
  }

  /** Wherever the skip fires in these calls, `TwicePassed` holds of the turns of all calls so far. */
  ghost predicate SessionSeen(calls: seq<Call>, c: Core, i: Idle, past: History)
    requires Proper(calls)
    decreases |calls|
  {
    calls == [] ||
    (ProperRest(calls);
     var (w, c0, i0, budget) := (calls[0].world, Enter(calls[0], c), i.(br := -1), calls[0].budget);
     var (q, j) := RunSkip(w, c0, i0, budget);
     SkipsSeen(w, c0, i0, budget, past) && SessionSeen(calls[1..], q, j, past + Moments(w, c0, i0, budget)))
  }

  lemma {:induction false} CallLinked(w: World, c: Core, i: Idle, budget: int, past: History)
    requires Advances(w) && Linked(past + [Moment(c, i, budget)])
    ensures Linked(past + Moments(w, c, i, budget))
    decreases budget - c.cycles
  {
    hide Interp, Calm, Hooked;
    if c.cycles < budget {
      SkipTurnAdvances(w, c, i, budget);
      var (c1, i1) := SkipTurn(w, c, i, budget);
      var p := past + [Moment(c, i, budget)];
      LinkedMore(p, Moment(c1, i1, budget));
      CallLinked(w, c1, i1, budget, p);
      assert past + Moments(w, c, i, budget) == p + Moments(w, c1, i1, budget);
    } else {
      assert past + Moments(w, c, i, budget) == past;
      LinkedPrefix(past, Moment(c, i, budget));
    }
  }

  lemma LinkedPrefix(past: History, t: Moment)
    requires Linked(past + [t])
    ensures Linked(past)
  {
    hide Link;
    forall k | 0 < k < |past|
      ensures Link(past[k - 1], past[k])
    {
      var p := past + [t];
      assert Link(p[k - 1], p[k]);
    }
  }

  /** The same for any number of calls: whatever the machine does between them, every call ends with the
      registers, memory and cycle count that interpreting every pass gives. */
  lemma {:induction false} SessionExact(calls: seq<Call>, c: Core, i: Idle, past: History)
    requires Proper(calls) && Linked(past) && SessionSeen(calls, c, i, past)
    ensures SessionSkip(calls, c, i) == SessionPlain(calls, c)
    decreases |calls|
  {
    hide SkipsSeen, Linked, RunSkip, RunPlain, Moments, Enter;
    if calls != [] {
      ProperRest(calls);
      var (w, c0, i0, budget) := (calls[0].world, Enter(calls[0], c), i.(br := -1), calls[0].budget);
      RunSkipExactSeen(w, c0, i0, budget, past);
      LinkedMore(past, Moment(c0, i0, budget));
      CallLinked(w, c0, i0, budget, past);
      var (q, j) := RunSkip(w, c0, i0, budget);
      SessionExact(calls[1..], q, j, past + Moments(w, c0, i0, budget));
    }
  }

  // ------------------------------------------------------------------
  // Once a loop has settled
  // ------------------------------------------------------------------

  /** `t` is at the top of an accepted loop and a pass reproduces its registers in `period` cycles; by
      `AcceptedLoopSettles`, what any two whole passes lead to, the second of which left X alone. */
  predicate AtRest(t: Core, br: u16, period: nat) {
    && IdleLoopOk(t.mem, t.r, t.r.pc, br)
    && Pass(t, Length(t, br)) == Some(Later(t, period))
  }

  function Length(t: Core, br: u16): nat { PassLength(t.mem, t.r, t.r.pc, br) }

  // `c` is `j` instructions into a pass from `t`.
  predicate OnLoop(c: Core, t: Core, j: nat) {
    Calm(c) && c.mem == t.mem && Pass(t, j).Some? && c.r == Pass(t, j).value.r
  }

  /** `c` is anywhere in a pass from `t`. */
  predicate InLoop(c: Core, t: Core, br: u16) {
    exists j: nat | j < Length(t, br) :: OnLoop(c, t, j)
  }

  lemma {:induction false} PassNext(t: Core, j: nat, n: nat)
    requires Pass(t, n).Some? && j < n
    ensures Pass(t, j).Some? && Interp(Pass(t, j).value).Some? && Pass(t, j + 1) == Interp(Pass(t, j).value)
    decreases n
  {
    hide Interp;
    if j > 0 {
      PassNext(Interp(t).value, j - 1, n - 1);
    } else {
      PassOne(t);
    }
  }

  lemma {:induction false} PassCost(t: Core, n: nat)
    requires Pass(t, n).Some?
    ensures Pass(t, n).value.cycles <= t.cycles + 8 * n
    decreases n
  {
    hide Interp;
    if n > 0 {
      InterpCost(t);
      PassCost(Interp(t).value, n - 1);
    }
  }

  // The branch that closes a pass was taken, and goes back over the body.
  lemma Closes(m: Memory, r: Regs, top: u16, len: nat)
    requires len <= IDLE_BODY_MAX && r.pc == W16(top + len) && Branch(m, r.pc).Some?
    requires W16(r.pc + 2 + Branch(m, r.pc).value.1) == top
    requires Step(m, r).value.0.pc == top
    ensures var (cond, off) := Branch(m, r.pc).value; Taken(r.cc, cond) && off + len == -2
  {
    hide Taken;
  }

  lemma DecodeLength(m: Memory, r: Regs)
    requires Decode(m, r).Some?
    ensures 1 <= Decode(m, r).value.len <= 3
  {
  }

  lemma ClosesLoop(c: Core, t: Core, br: u16, len: nat)
    requires IdleLoopOk(t.mem, t.r, t.r.pc, br) && c.mem == t.mem && len <= IDLE_BODY_MAX
    requires c.r.pc == br == W16(t.r.pc + len) && Interp(c).Some? && Interp(c).value.r.pc == t.r.pc
    ensures BackBranch(c) == Some(br)
  {
    hide IdleInsn, Step, Peek;
    Closes(t.mem, c.r, t.r.pc, len);
  }

  // No instruction of the body is a branch, and the one that closes the pass is taken.
  lemma LoopBranches(t: Core, br: u16, period: nat, j: nat)
    requires AtRest(t, br, period) && j < Length(t, br)
    ensures Pass(t, j).Some?
    ensures BackBranch(Pass(t, j).value) == if j + 1 == Length(t, br) then Some(br) else None
  {
    hide IdleLoopOk, Pass, Interp, Branch, Decode, Second;
    PassNext(t, j, Length(t, br));
    if t.r.pc == br {
      PassOne(t);
      ZeroPass(t);
      ClosesLoop(t, t, br, 0);
    } else if Second(t.mem, t.r, t.r.pc) == br {
      BranchesOne(t, br, period, j);
    } else {
      BranchesTwo(t, br, period, j);
    }
  }

  lemma ZeroPass(t: Core)
    ensures Pass(t, 0) == Some(t)
  {
  }

  lemma BodyTurn(c: Core)
    requires Decode(c.mem, c.r).Some? && Interp(c).Some?
    ensures BackBranch(c).None? && Interp(c).value.r.pc == W16(c.r.pc + Decode(c.mem, c.r).value.len)
  {
    hide Decode, Apply, Operand, Step, Branch;
    DecodeAct(c.mem, c.r, c.r);
    StepWrites(c.mem, c.r);
  }

  lemma BranchesOne(t: Core, br: u16, period: nat, j: nat)
    requires AtRest(t, br, period) && j < 2 && t.r.pc != br && Second(t.mem, t.r, t.r.pc) == br
    ensures Pass(t, j).Some? && BackBranch(Pass(t, j).value) == if j == 1 then Some(br) else None
  {
    hide IdleLoopOk, Pass, Interp, BackBranch, Decode, Second;
    ZeroPass(t);
    PassNext(t, 0, 2);
    PassNext(t, 1, 2);
    AcceptedOne(t.mem, t.r, br);
    BodyTurn(t);
    DecodeLength(t.mem, t.r);
    InterpKeeps(t);
    ClosesLoop(Pass(t, 1).value, t, br, Decode(t.mem, t.r).value.len);
  }

  lemma BranchesTwo(t: Core, br: u16, period: nat, j: nat)
    requires AtRest(t, br, period) && j < 3 && t.r.pc != br && Second(t.mem, t.r, t.r.pc) != br
    ensures Pass(t, j).Some? && BackBranch(Pass(t, j).value) == if j == 2 then Some(br) else None
  {
    hide IdleLoopOk, Pass, Interp, BackBranch, Decode, Second;
    ZeroPass(t);
    PassNext(t, 0, 3);
    PassNext(t, 1, 3);
    PassNext(t, 2, 3);
    AcceptedTwo(t.mem, t.r, br);
    var q := t.r.(pc := Second(t.mem, t.r, t.r.pc));
    BodyTurn(t);
    InterpKeeps(t);
    var s := Pass(t, 1).value;
    SameDecode(s, q);
    BodyTurn(s);
    InterpKeeps(s);
    DecodeLength(t.mem, t.r);
    DecodeLength(t.mem, q);
    ClosesLoop(Pass(t, 2).value, t, br, Decode(t.mem, t.r).value.len + Decode(t.mem, q).value.len);
  }

  lemma SameDecode(s: Core, q: Regs)
    requires Decode(s.mem, q).Some? && s.r.pc == q.pc && Interp(s).Some?
    ensures Decode(s.mem, s.r).Some? && Decode(s.mem, s.r).value.len == Decode(s.mem, q).value.len
  {
    hide Decode, Step;
    DecodeAct(s.mem, q, s.r);
  }

  // Cycles from the top to the `j`-th instruction.
  function Spent(t: Core, j: nat): nat
    requires Pass(t, j).Some?
  {
    PassAlike(t, Pass(t, j).value, j, t);
    Pass(t, j).value.cycles - t.cycles
  }

  /** What the bookkeeping knows of the loop: nothing, that its branch is rejected, or when the top was
      last passed. */
  predicate OnTime(c: Core, i: Idle, t: Core, j: nat, br: u16)
    requires Pass(t, j).Some?
  {
    !i.on || i.br == -1 || i.rej == br + 1 ||
    (i.br == br && Spent(t, j) <= c.cycles && i.cyc == W32(c.cycles - Spent(t, j)))
  }

  lemma LoopInterp(c: Core, t: Core, br: u16, period: nat, j: nat) returns (q: Core)
    requires AtRest(t, br, period) && j < Length(t, br) && OnLoop(c, t, j)
    ensures Interp(c) == Some(q) && Calm(q) && q.mem == t.mem && Pass(t, j + 1).Some?
    ensures q.r == Pass(t, j + 1).value.r && q.cycles - c.cycles == Spent(t, j + 1) - Spent(t, j)
    ensures BackBranch(c) == if j + 1 == Length(t, br) then Some(br) else None
  {
    hide IdleLoopOk, Pass, Length, Step, Branch;
    PassNext(t, j, Length(t, br));
    LoopBranches(t, br, period, j);
    PassAlike(t, Pass(t, j).value, j, t);
    InterpKeeps(c);
    q := Interp(c).value;
  }

  // One turn of the skipping run stays on the loop.
  lemma LoopTurn(w: World, c: Core, i: Idle, t: Core, br: u16, period: nat, j: nat, budget: int) returns (j': nat)
    requires AtRest(t, br, period) && j < Length(t, br) && OnLoop(c, t, j) && OnTime(c, i, t, j, br)
    ensures var (c1, i1) := SkipTurn(w, c, i, budget);
      j' < Length(t, br) && OnLoop(c1, t, j') && OnTime(c1, i1, t, j', br)
  {
    hide IdleLoopOk, Pass, Interp, BackBranch, PassLength, IdleCheck;
    var q := LoopInterp(c, t, br, period, j);
    ZeroPass(t);
    if j + 1 == Length(t, br) {
      BranchNotes(c, i, br, budget);
      var c1 := SkipTurn(w, c, i, budget).0;
      assert c1.cycles - Spent(t, 0) == c1.cycles;
      return 0;
    }
    return j + 1;
  }

  // Wherever the skip fires on it, it is right to.
  lemma LoopSettled(c: Core, i: Idle, t: Core, br: u16, period: nat, j: nat, budget: int)
    requires AtRest(t, br, period) && j < Length(t, br) && OnLoop(c, t, j) && OnTime(c, i, t, j, br)
    requires Interp(c).Some? && BackBranch(c).Some? && i.on
    requires Fires(Interp(c).value, i, BackBranch(c).value, budget)
    ensures Settled(Interp(c).value, i, BackBranch(c).value)
  {
    hide IdleLoopOk, Pass, Interp, BackBranch, Calm, Second, Fires, Settled;
    var q := LoopInterp(c, t, br, period, j);
    var n := Length(t, br);
    FiresNeeds(q, i, br, budget);
    PassCost(t, n);
    var start := c.cycles - Spent(t, j);
    Wraps(start, period);
    var c1 := q.(cycles := start);
    PassAlike(t, Later(t, period), n, c1);
    SettledAlike(c1, c1, q, n, i, br);
  }

  // A call begun anywhere on the loop.
  lemma {:induction false} LoopCall(w: World, c: Core, i: Idle, t: Core, br: u16, period: nat, j: nat, budget: int)
    requires Advances(w)
    requires AtRest(t, br, period) && j < Length(t, br) && OnLoop(c, t, j) && OnTime(c, i, t, j, br)
    ensures SkipsSettled(w, c, i, budget) && InLoop(RunSkip(w, c, i, budget).0, t, br)
    decreases budget - c.cycles
  {
    hide AtRest, Length, OnLoop, OnTime, Interp, BackBranch, Calm, Fires, Settled, SkipTurn;
    if c.cycles < budget {
      SkipTurnAdvances(w, c, i, budget);
      var (c1, i1) := SkipTurn(w, c, i, budget);
      var j1 := LoopTurn(w, c, i, t, br, period, j, budget);
      LoopCall(w, c1, i1, t, br, period, j1, budget);
      if Calm(c) && Interp(c).Some? && BackBranch(c).Some? && i.on {
        if Fires(Interp(c).value, i, BackBranch(c).value, budget) {
          LoopSettled(c, i, t, br, period, j, budget);
        }
      }
    }
  }

  /** Between the calls the CPU is left alone while it is in the loop: registers and memory stay, and no
      interrupt becomes acceptable. */
  ghost predicate LeftAlone(calls: seq<Call>, t: Core, br: u16) {
    forall k, c | 0 <= k < |calls| && InLoop(c, t, br) ::
      var d := calls[k].before(c); d.r == c.r && d.mem == c.mem && Calm(d)
  }

  lemma LeftAloneRest(calls: seq<Call>, t: Core, br: u16)
    requires LeftAlone(calls, t, br) && calls != []
    ensures LeftAlone(calls[1..], t, br)
  {
    hide InLoop, Calm;
  }

  /** A settled loop never runs wrong: from anywhere in a pass on, the middle of the body included, any
      number of calls with any budgets end where interpreting every pass ends, and still on the loop. */
  lemma {:induction false} SettledLoopExact(calls: seq<Call>, c: Core, i: Idle, t: Core, br: u16, period: nat)
    requires Proper(calls) && LeftAlone(calls, t, br)
    requires AtRest(t, br, period) && InLoop(c, t, br)
    ensures SessionSkip(calls, c, i) == SessionPlain(calls, c)
    ensures forall k | 0 <= k < |calls| :: InLoop(SessionPlain(calls, c)[k], t, br)
    decreases |calls|
  {
    hide AtRest, RunSkip, RunPlain, SkipsSettled, Calm, Length, Pass;
    if calls != [] {
      ProperRest(calls);
      LeftAloneRest(calls, t, br);
      var (w, c0, i0, budget) := (calls[0].world, Enter(calls[0], c), i.(br := -1), calls[0].budget);
      var j: nat :| j < Length(t, br) && OnLoop(c, t, j);
      var d := calls[0].before(c);
      EntersLoop(d, c, c0, t, j);
      LoopCall(w, c0, i0, t, br, period, j, budget);
      RunSkipExact(w, c0, i0, budget);
      var (q, i1) := RunSkip(w, c0, i0, budget);
      SettledLoopExact(calls[1..], q, i1, t, br, period);
    }
  }

  lemma EntersLoop(d: Core, c: Core, c0: Core, t: Core, j: nat)
    requires OnLoop(c, t, j) && d.r == c.r && d.mem == c.mem && Calm(d) && c0 == d.(cycles := 0)
    ensures OnLoop(c0, t, j)
  {
    hide Pass;
  }

  // ------------------------------------------------------------------
  // Why each condition is needed
  // ------------------------------------------------------------------

  function Start(x: u16, a: u8, carry: bool, m: Memory, cycles: nat): Core {
    var cc := Flags(false, false, false, false, false, false, false, carry);
    Core(Regs(0, a, 0, x, 0, 0, 0, 0, cc, 0, 0), m, Lines(false, false, false, false, false), cycles)
  }

  // LDX ,X / BRA *-2 at address 0.
  predicate ChainCode(m: Memory) {
    Peek(m, 0) == Some(0xAE) && Peek(m, 1) == Some(0x84) && Peek(m, 2) == Some(0x20) && Peek(m, 3) == Some(0xFC)
  }

  lemma ChainTurns(m: Memory, x: u16, y: u16, cycles: nat)
    requires ChainCode(m) && PeekWord(m, x) == Some(y) && 0 < y < 0x8000
    ensures var c, t := Start(x, 0, false, m, cycles), Start(y, 0, false, m, cycles + 5);
      var s := t.(r := t.r.(pc := 2));
      && Interp(c) == Some(s) && Interp(s) == Some(Start(y, 0, false, m, cycles + 8))
      && BackBranch(c) == None && BackBranch(s) == Some(2)
  {
    hide Peek, PeekWord;
    assert Decode(m, Start(x, 0, false, m, cycles).r) == Some(Insn(LoadX, 2, x, 5));
  }

  lemma ChainPass(m: Memory, x: u16, y: u16, cycles: nat)
    requires ChainCode(m) && PeekWord(m, x) == Some(y) && 0 < y < 0x8000
    ensures Pass(Start(x, 0, false, m, cycles), 2) == Some(Start(y, 0, false, m, cycles + 8))
  {
    hide Peek, PeekWord, Interp;
    ChainTurns(m, x, y, cycles);
    PassTwo(Start(x, 0, false, m, cycles), Interp(Start(x, 0, false, m, cycles)).value);
  }

  lemma ChainAccepted(m: Memory, x: u16, y: u16, cycles: nat)
    requires ChainCode(m) && PeekWord(m, x) == Some(y)
    ensures var r := Start(x, 0, false, m, cycles).r; IdleLoopOk(m, r, 0, 2) && PassLength(m, r, 0, 2) == 2
  {
    hide Peek;
    assert IdleInsn(m, Start(x, 0, false, m, cycles).r, 0) == (Pure, 2);
  }

  // A pass of the chain loop in the skipping run, up to the check at its branch.
  lemma ChainSkipPass(w: World, m: Memory, x: u16, y: u16, cycles: nat, i: Idle, budget: int)
    requires Advances(w) && i.on && cycles + 8 <= budget
    requires ChainCode(m) && PeekWord(m, x) == Some(y) && 0 < y < 0x8000
    ensures var (c, i1) := IdleCheck(Start(y, 0, false, m, cycles + 8), i, 2, budget);
      RunSkip(w, Start(x, 0, false, m, cycles), i, budget) == RunSkip(w, c, i1, budget)
  {
    hide Peek, PeekWord, Interp, IdleCheck, BackBranch;
    ChainTurns(m, x, y, cycles);
    var c := Start(x, 0, false, m, cycles);
    var s := Interp(c).value;
    assert SkipTurn(w, c, i, budget) == (s, i);
    assert RunSkip(w, c, i, budget) == RunSkip(w, s, i, budget);
    assert SkipTurn(w, s, i, budget) == IdleCheck(Start(y, 0, false, m, cycles + 8), i, 2, budget);
  }

  /** A self-load is accepted and need not settle: LDX ,X walks a pointer chain. Entered at its top with
      32 cycles to go, the loop is skipped after two whole passes, and X ends two steps short. */
  lemma SelfLoadDrifts(w: World, m: Memory, x0: u16, x1: u16, x2: u16, x3: u16, x4: u16)
    requires Advances(w) && ChainCode(m)
    requires 0 < x1 < 0x8000 && 0 < x2 < 0x8000 && 0 < x3 < 0x8000 && 0 < x4 < 0x8000 && x4 != x2
    requires PeekWord(m, x0) == Some(x1) && PeekWord(m, x1) == Some(x2)
    requires PeekWord(m, x2) == Some(x3) && PeekWord(m, x3) == Some(x4)
    ensures var c := Start(x0, 0, false, m, 0);
      && RunSkip(w, c, Idle(true, 0, -1, 0), 32).0 == Start(x2, 0, false, m, 32)
      && RunPlain(w, c, 32) == Start(x4, 0, false, m, 32)
  {
    hide PeekWord, IdleCheck, RunSkip, RunPlain, Peek;
    ChainSkipPass(w, m, x0, x1, 0, Idle(true, 0, -1, 0), 32);
    ChainSkipPass(w, m, x1, x2, 8, Idle(true, 0, 2, 8), 32);
    ChainChecks(w, m, x1, x2, x3);
    ChainRuns(w, m, x0, x1, 0);
    ChainRuns(w, m, x1, x2, 8);
    ChainRuns(w, m, x2, x3, 16);
    ChainRuns(w, m, x3, x4, 24);
    RunEnds(w, Start(x4, 0, false, m, 32), Idle(true, 0, 2, 32), 32);
  }

  // The checks at the end of the first pass and of the second.
  lemma ChainChecks(w: World, m: Memory, x1: u16, x2: u16, x3: u16)
    requires Advances(w) && ChainCode(m) && PeekWord(m, x2) == Some(x3)
    ensures IdleCheck(Start(x1, 0, false, m, 8), Idle(true, 0, -1, 0), 2, 32) ==
        (Start(x1, 0, false, m, 8), Idle(true, 0, 2, 8))
    ensures var (c, i) := IdleCheck(Start(x2, 0, false, m, 16), Idle(true, 0, 2, 8), 2, 32);
      RunSkip(w, c, i, 32).0 == Start(x2, 0, false, m, 32)
  {
    hide PeekWord, Peek, IdleLoopOk, SkipTurn;
    ChainAccepted(m, x2, x3, 16);
    PassesSmall(8);
  }

  lemma ChainRuns(w: World, m: Memory, x: u16, y: u16, cycles: nat)
    requires Advances(w) && ChainCode(m) && PeekWord(m, x) == Some(y) && 0 < y < 0x8000 && cycles <= 24
    ensures RunPlain(w, Start(x, 0, false, m, cycles), 32) == RunPlain(w, Start(y, 0, false, m, cycles + 8), 32)
  {
    hide PeekWord, Peek, Pass, RunPlain;
    ChainPass(m, x, y, cycles);
    PassRuns(w, Start(x, 0, false, m, cycles), Start(y, 0, false, m, cycles + 8), 2, 32);
  }

  lemma RunEnds(w: World, c: Core, i: Idle, budget: int)
    requires Advances(w) && c.cycles >= budget
    ensures RunPlain(w, c, budget) == c && RunSkip(w, c, i, budget) == (c, i)
  {
  }

  // CMPA <$10 / LDA <$11 / BRA *-4 at address 0.
  predicate LagCode(m: Memory) {
    && Peek(m, 0) == Some(0x91) && Peek(m, 1) == Some(0x10) && Peek(m, 2) == Some(0x96) && Peek(m, 3) == Some(0x11)
    && Peek(m, 4) == Some(0x20) && Peek(m, 5) == Some(0xFA)
  }

  // Its two instructions, from the top to the branch.
  lemma LagTurns(m: Memory, a: u8, limit: u8, v: u8, carry: bool, cycles: nat) returns (s: Core, t: Core)
    requires LagCode(m) && Peek(m, 0x10) == Some(limit) && Peek(m, 0x11) == Some(v) && 0 < v < 0x80
    ensures var c := Start(0, a, carry, m, cycles); Interp(c) == Some(s) && Calm(s) && BackBranch(c) == None
    ensures Interp(s) == Some(t) && BackBranch(s) == None
    ensures s.cycles == cycles + 4 && t == AtBranch(v, a < limit, m, cycles + 8)
  {
    hide Peek, PeekWord;
    var c := Start(0, a, carry, m, cycles);
    assert Decode(m, c.r) == Some(Insn(Cmp(A), 2, 0x10, 4));
    s := Interp(c).value;
    assert Decode(m, s.r) == Some(Insn(Load(A), 2, 0x11, 4));
    t := Interp(s).value;
  }

  // The loop at its branch.
  function AtBranch(a: u8, carry: bool, m: Memory, cycles: nat): Core {
    var c := Start(0, a, carry, m, cycles);
    c.(r := c.r.(pc := 4))
  }

  lemma LagBranch(m: Memory, a: u8, carry: bool, cycles: nat)
    requires LagCode(m)
    ensures var t := AtBranch(a, carry, m, cycles);
      Calm(t) && Interp(t) == Some(Start(0, a, carry, m, cycles + 3)) && BackBranch(t) == Some(4)
  {
    hide Peek;
  }

  lemma LagPass(m: Memory, a: u8, limit: u8, v: u8, carry: bool, cycles: nat)
    requires LagCode(m) && Peek(m, 0x10) == Some(limit) && Peek(m, 0x11) == Some(v) && 0 < v < 0x80
    ensures Pass(Start(0, a, carry, m, cycles), 3) == Some(Start(0, v, a < limit, m, cycles + 11))
  {
    hide Peek, Interp, BackBranch;
    var s, t := LagTurns(m, a, limit, v, carry, cycles);
    LagBranch(m, v, a < limit, cycles + 8);
    PassThree(Start(0, a, carry, m, cycles), s);
    PassTwo(s, t);
  }

  lemma LagAccepted(m: Memory, a: u8, limit: u8, v: u8, carry: bool, cycles: nat)
    requires LagCode(m) && Peek(m, 0x10) == Some(limit) && Peek(m, 0x11) == Some(v)
    ensures var r := Start(0, a, carry, m, cycles).r;
      IdleLoopOk(m, r, 0, 4) && SettlesX(m, r, 0, 4) && PassLength(m, r, 0, 4) == 3
  {
    hide Peek;
    var r := Start(0, a, carry, m, cycles).r;
    assert IdleInsn(m, r, 0) == (Pure, 2) && IdleInsn(m, r, 2) == (LoadA, 2);
  }

  // An interpreted turn, without a branch back and with one.
  lemma TurnOn(w: World, c: Core, q: Core, i: Idle, budget: int)
    requires Advances(w) && Calm(c) && Interp(c) == Some(q) && c.cycles < budget
    ensures BackBranch(c) == None ==> RunSkip(w, c, i, budget) == RunSkip(w, q, i, budget)
    ensures BackBranch(c).Some? && i.on ==>
              var (d, i1) := IdleCheck(q, i, BackBranch(c).value, budget);
              RunSkip(w, c, i, budget) == RunSkip(w, d, i1, budget)
    ensures RunPlain(w, c, budget) == RunPlain(w, q, budget)
  {
    hide Interp, IdleCheck, BackBranch, Calm;
  }

  /** One pass is not enough: a call of 36 cycles that begins at the branch of CMPA / LDA skips after one
      pass and ends with the carry of that pass, where interpreting gives that of the value loaded. */
  lemma OnePassLags(w: World, m: Memory, a: u8, limit: u8, v: u8)
    requires Advances(w) && LagCode(m)
    requires Peek(m, 0x10) == Some(limit) && Peek(m, 0x11) == Some(v) && 0 < v < 0x80 && (a < limit) != (v < limit)
    ensures var c := AtBranch(a, false, m, 0);
      && RunSkip(w, c, Idle(true, 0, -1, 0), 36).0 == Start(0, v, a < limit, m, 36)
      && RunPlain(w, c, 36) == Start(0, v, v < limit, m, 36)
      && SettlesX(m, Start(0, v, a < limit, m, 14).r, 0, 4)
  {
    hide Peek, Interp, BackBranch, Calm, IdleLoopOk, Pass, SettlesX;
    var i0, i1 := Idle(true, 0, -1, 0), Idle(true, 0, 4, 3);
    var c, d := AtBranch(a, false, m, 0), Start(0, a, false, m, 3);
    LagBranch(m, a, false, 0);
    TurnOn(w, c, d, i0, 36);
    var s, t := LagTurns(m, a, limit, v, false, 3);
    LagSkips(w, m, a, v, limit, d, s, t, i1);
    PassOne(c);
    PassRuns(w, c, d, 1, 36);
    LagPass(m, a, limit, v, false, 3);
    LagPass(m, v, limit, v, a < limit, 14);
    LagPass(m, v, limit, v, v < limit, 25);
    PassRuns(w, d, Start(0, v, a < limit, m, 14), 3, 36);
    PassRuns(w, Start(0, v, a < limit, m, 14), Start(0, v, v < limit, m, 25), 3, 36);
    PassRuns(w, Start(0, v, v < limit, m, 25), Start(0, v, v < limit, m, 36), 3, 36);
    LagAccepted(m, v, limit, v, a < limit, 14);
  }

  lemma LagSkips(w: World, m: Memory, a: u8, v: u8, limit: u8, d: Core, s: Core, t: Core, i: Idle)
    requires Advances(w) && LagCode(m) && i == Idle(true, 0, 4, 3)
    requires Peek(m, 0x10) == Some(limit) && Peek(m, 0x11) == Some(v)
    requires d == Start(0, a, false, m, 3) && Interp(d) == Some(s) && BackBranch(d) == None
    requires Calm(s) && Interp(s) == Some(t) && BackBranch(s) == None && s.cycles == 7
    requires t == AtBranch(v, a < limit, m, 11)
    ensures RunSkip(w, d, i, 36).0 == Start(0, v, a < limit, m, 36)
  {
    hide Peek, Interp, BackBranch, IdleLoopOk, SettlesX;
    var q := Start(0, v, a < limit, m, 14);
    TurnOn(w, d, s, i, 36);
    TurnOn(w, s, t, i, 36);
    LagBranch(m, v, a < limit, 11);
    TurnOn(w, t, q, i, 36);
    LagAccepted(m, v, limit, v, a < limit, 14);
    PassesSmall(11);
    assert IdleCheck(q, i, 4, 36).0 == Start(0, v, a < limit, m, 36);
  }

  /** The same loop entered at the same branch, but with the carry a pass leaves: any calls from there on
      are exact, although the first of them sees one pass only before it may skip. */
  lemma SettledLag(calls: seq<Call>, m: Memory, limit: u8, v: u8, i: Idle)
    requires LagCode(m) && Peek(m, 0x10) == Some(limit) && Peek(m, 0x11) == Some(v) && 0 < v < 0x80
    requires Proper(calls) && LeftAlone(calls, Start(0, v, v < limit, m, 0), 4)
    ensures var c := AtBranch(v, v < limit, m, 0);
      SessionSkip(calls, c, i) == SessionPlain(calls, c) && InLoop(c, Start(0, v, v < limit, m, 0), 4)
  {
    hide Peek, Interp, BackBranch, IdleLoopOk, SettlesX, Pass, SessionSkip, SessionPlain, LagCode;
    var t := Start(0, v, v < limit, m, 0);
    LagPass(m, v, limit, v, v < limit, 0);
    LagAccepted(m, v, limit, v, v < limit, 0);
    var s, b := LagTurns(m, v, limit, v, v < limit, 0);
    PassTwo(t, s);
    var c := AtBranch(v, v < limit, m, 0);
    assert OnLoop(c, t, 2);
    SettledLoopExact(calls, c, i, t, 4, 11);
  }

  // ADDA <$10 / BRA *+3 / TSTB / BNE *-1 / BRA *-7 at address 0, with 1 in $10.
  predicate StaleCode(m: Memory) {
    && Peek(m, 0) == Some(0x9B) && Peek(m, 1) == Some(0x10) && Peek(m, 2) == Some(0x20) && Peek(m, 3) == Some(0x01)
    && Peek(m, 4) == Some(0x5D) && Peek(m, 5) == Some(0x26) && Peek(m, 6) == Some(0xFD)
    && Peek(m, 7) == Some(0x20) && Peek(m, 8) == Some(0xF7) && Peek(m, 0x10) == Some(1)
  }

  // In native mode, B zero.
  function Stale(pc: u16, a: u8, z: bool, m: Memory, cycles: nat): Core {
    var cc := Flags(false, false, false, false, false, z, false, false);
    Core(Regs(pc, a, 0, 0, 0, 0, 0, 0, cc, 0, 1), m, Lines(false, false, false, false, false), cycles)
  }

  // One way round: five turns without a short branch back, then the one at 5.
  lemma StaleTest(m: Memory, a: u8, cycles: nat)
    requires StaleCode(m)
    ensures var c := Stale(4, a, false, m, cycles);
      Interp(c) == Some(Stale(5, a, true, m, cycles + 1)) && BackBranch(c) == None
    ensures var c := Stale(5, a, true, m, cycles);
      Interp(c) == Some(Stale(7, a, true, m, cycles + 3)) && BackBranch(c) == None
  {
    hide Peek;
    assert Decode(m, Stale(4, a, false, m, cycles).r) == Some(Insn(TstAcc(B), 1, 0, 1));
  }

  lemma StaleAdd(m: Memory, a: u8, cycles: nat)
    requires StaleCode(m) && a < 3
    ensures var c := Stale(7, a, true, m, cycles);
      Interp(c) == Some(Stale(0, a, true, m, cycles + 3)) && BackBranch(c) == None
    ensures var c := Stale(0, a, true, m, cycles);
      Interp(c) == Some(Stale(2, a + 1, false, m, cycles + 3)) && BackBranch(c) == None
  {
    hide Peek;
    assert Decode(m, Stale(0, a, true, m, cycles).r) == Some(Insn(Add(A), 2, 0x10, 3));
  }

  lemma StaleBack(m: Memory, a: u8, cycles: nat)
    requires StaleCode(m)
    ensures var c := Stale(2, a, false, m, cycles);
      Interp(c) == Some(Stale(5, a, false, m, cycles + 3)) && BackBranch(c) == None
    ensures var c := Stale(5, a, false, m, cycles);
      Interp(c) == Some(Stale(4, a, false, m, cycles + 3)) && BackBranch(c) == Some(5)
  {
    hide Peek;
  }

  lemma StaleRound(w: World, m: Memory, a: u8, cycles: nat, i: Idle, budget: int)
    requires Advances(w) && StaleCode(m) && a < 3 && i.on && cycles + 13 < budget
    ensures RunSkip(w, Stale(4, a, false, m, cycles), i, budget) ==
            RunSkip(w, Stale(5, a + 1, false, m, cycles + 13), i, budget)
    ensures RunPlain(w, Stale(4, a, false, m, cycles), budget) ==
            RunPlain(w, Stale(5, a + 1, false, m, cycles + 13), budget)
  {
    hide Peek, Interp, BackBranch, IdleCheck, StaleCode, RunSkip, RunPlain;
    StaleTest(m, a, cycles);
    TurnOn(w, Stale(4, a, false, m, cycles), Stale(5, a, true, m, cycles + 1), i, budget);
    StaleTest(m, a, cycles + 1);
    TurnOn(w, Stale(5, a, true, m, cycles + 1), Stale(7, a, true, m, cycles + 4), i, budget);
    StaleAdd(m, a, cycles + 4);
    TurnOn(w, Stale(7, a, true, m, cycles + 4), Stale(0, a, true, m, cycles + 7), i, budget);
    StaleAdd(m, a, cycles + 7);
    TurnOn(w, Stale(0, a, true, m, cycles + 7), Stale(2, a + 1, false, m, cycles + 10), i, budget);
    StaleBack(m, a + 1, cycles + 10);
    TurnOn(w, Stale(2, a + 1, false, m, cycles + 10), Stale(5, a + 1, false, m, cycles + 13), i, budget);
  }

  // Once more round, and back at 4.
  lemma StaleRuns(w: World, m: Memory, a: u8, cycles: nat)
    requires Advances(w) && StaleCode(m) && a < 3 && cycles <= 35
    ensures RunPlain(w, Stale(4, a, false, m, cycles), 51) == RunPlain(w, Stale(4, a + 1, false, m, cycles + 16), 51)
  {
    hide Peek, Interp, BackBranch, IdleCheck, StaleCode, RunSkip, RunPlain;
    StaleRound(w, m, a, cycles, Idle(true, 0, -1, 0), 51);
    StaleBack(m, a + 1, cycles + 13);
    TurnOn(w, Stale(5, a + 1, false, m, cycles + 13), Stale(4, a + 1, false, m, cycles + 16),
           Idle(true, 0, -1, 0), 51);
  }

  // The check at the second visit: the loop of TSTB and BNE is accepted, and its branch was last seen one
  // way round ago.
  lemma StaleChecks(m: Memory)
    requires StaleCode(m)
    ensures IdleCheck(Stale(4, 0, false, m, 3), Idle(true, 0, -1, 0), 5, 51) ==
            (Stale(4, 0, false, m, 3), Idle(true, 0, 5, 3))
    ensures IdleCheck(Stale(4, 1, false, m, 19), Idle(true, 0, 5, 3), 5, 51).0 == Stale(4, 1, false, m, 51)
  {
    hide Peek;
    var r := Stale(4, 1, false, m, 19).r;
    assert IdleInsn(m, r, 4) == (Pure, 1);
    assert IdleLoopOk(m, r, 4, 5);
    PassesSmall(16);
  }

  /** `idle_br` outlives the loop it was noted in: here TSTB / BNE is left by falling through and entered
      again 16 cycles later, which the skip takes for the length of a pass. A call of 51 cycles ends with
      1 in A, where interpreting goes round two times more and ends with 3. */
  lemma StaleBranch(w: World, m: Memory)
    requires Advances(w) && StaleCode(m)
    ensures var c := Stale(5, 0, false, m, 0);
      && RunSkip(w, c, Idle(true, 0, -1, 0), 51).0 == Stale(4, 1, false, m, 51)
      && RunPlain(w, c, 51) == Stale(4, 3, false, m, 51)
  {
    hide Peek, Interp, BackBranch, IdleCheck, StaleCode, RunSkip, RunPlain;
    StaleBack(m, 0, 0);
    StaleBack(m, 1, 16);
    StaleChecks(m);
    var i0, i1 := Idle(true, 0, -1, 0), Idle(true, 0, 5, 3);
    TurnOn(w, Stale(5, 0, false, m, 0), Stale(4, 0, false, m, 3), i0, 51);
    StaleRound(w, m, 0, 3, i1, 51);
    TurnOn(w, Stale(5, 1, false, m, 16), Stale(4, 1, false, m, 19), i1, 51);
    RunEnds(w, Stale(4, 1, false, m, 51), IdleCheck(Stale(4, 1, false, m, 19), i1, 5, 51).1, 51);
    StaleRuns(w, m, 1, 19);
    StaleRuns(w, m, 2, 35);
    RunEnds(w, Stale(4, 3, false, m, 51), i1, 51);
  }

  /** The CPU object: `hd6309_run` and the skip update it in place. */
  class Cpu {
    var r: Regs
    var mem: Memory
    var lines: Lines
    var cycles: nat
    var idleSkip: bool
    var idleRej: u32
    var idleBr: int
    var idleCyc: u32
    var idleBudget: int
    const world: World

    constructor (world: World, mem: Memory, r: Regs)
      ensures View() == Core(r, mem, Lines(false, false, false, false, false), 0)
      ensures this.world == world && !idleSkip
    {
      this.world, this.mem, this.r := world, mem, r;
      lines := Lines(false, false, false, false, false);
      cycles, idleSkip, idleRej, idleBr, idleCyc, idleBudget := 0, false, 0, -1, 0, 0;
    }

    function View(): Core
      reads this
    {
      Core(r, mem, lines, cycles)
    }

    function Bookkeeping(): Idle
      reads this
    {
      Idle(idleSkip, idleRej, idleBr, idleCyc)
    }

    method SetView(c: Core)
      modifies this`r, this`mem, this`lines, this`cycles
      ensures View() == c
    {
      r, mem, lines, cycles := c.r, c.mem, c.lines, c.cycles;
    }

    method IdleLoopCheck(br: u16)
      modifies this`idleBr, this`idleCyc, this`idleRej, this`cycles
      ensures (View(), Bookkeeping()) == IdleCheck(old(View()), old(Bookkeeping()), br, idleBudget)
    {
      hide IdleLoopOk, WholePasses, Int32, W32;
      if idleRej == br + 1 { return; }
      var now := W32(cycles);
      var period := W32(now - idleCyc);
      var again := idleBr == br;
      idleBr := br;
      idleCyc := now;
      if !again || period == 0 || period > IDLE_PERIOD_MAX { return; }
      var left := idleBudget - Int32(now);
      if left <= period { return; }
      if !IdleLoopOk(mem, r, r.pc, br) {
        idleRej := br + 1;
        return;
      }
      var skip := WholePasses(left, period);
      cycles := cycles + skip;
      idleCyc := W32(idleCyc + skip);
    }

    // The byte at PC, none when it is not plain memory; PC moves on.
    method Fetch() returns (b: Option<u8>)
      modifies this`r
      ensures b == Peek(mem, old(r).pc) && r == old(r).(pc := W16(old(r).pc + 1))
    {
      b := Peek(mem, r.pc);
      r := r.(pc := W16(r.pc + 1));
    }

    // The rest of an instruction that began at `r0.pc`: operand address, and cycles the postbyte adds.
    method Address(act: Act, mode: Mode, ghost r0: Regs, ghost op: u8) returns (ea: Option<u16>, extra: nat)
      requires Peek(mem, r0.pc) == Some(op) && Opcode(op) == Some((act, mode)) && r == r0.(pc := W16(r0.pc + 1))
      modifies this`r
      ensures ea.Some? <==> Decode(mem, r0).Some?
      ensures ea.Some? ==> var i := Decode(mem, r0).value;
        && i.act == act && i.ea == ea.value && r == r0.(pc := W16(r0.pc + i.len))
        && i.cost == BaseCycles(act, mode) - (if Native(r0) then NativeSave(act, mode) else 0) + extra
    {
      hide Peek, Opcode, Native;
      ea, extra := Some(0), 0;
      if mode.Inherent? { return; }
      var b1 := Fetch();
      NextTwo(r0.pc);
      if b1.None? { return None, 0; }
      if mode.Direct? {
        ea := Some(Pair(r.dp, b1.value));
      } else if mode.Indexed? {
        var reg := IndexReg(r, b1.value);
        if b1.value < 0x80 {
          ea, extra := Some(W16(reg + Offset5(b1.value))), 1;
        } else {
          ea := if b1.value % 32 == 4 then Some(reg) else None;
        }
      } else {
        var b2 := Fetch();
        ea := if b2.Some? then Some(Pair(b1.value, b2.value)) else None;
      }
    }

    lemma NextTwo(pc: u16)
      ensures W16(W16(pc + 1) + 1) == W16(pc + 2) && W16(W16(pc + 2) + 1) == W16(pc + 3)
    {
    }

    // A short branch whose opcode has been fetched; `back` when it was taken back over a few bytes.
    method ShortBranch(op: u8, ghost c: Core) returns (ok: bool, back: Option<u16>)
      requires 0x20 <= op < 0x30 && Peek(c.mem, c.r.pc) == Some(op)
      requires View() == c.(r := c.r.(pc := W16(c.r.pc + 1)))
      modifies this`r, this`cycles
      ensures ok == Interp(c).Some? && (ok ==> View() == Interp(c).value && back == BackBranch(c))
      ensures mem == c.mem && lines == c.lines
    {
      hide Peek, Calm;
      back := None;
      NextTwo(c.r.pc);
      var off := Fetch();
      if off.None? {
        OpcodeNoBranch();
        return false, None;
      }
      var offset := Signed8(off.value);
      cycles := cycles + 3;
      if Taken(r.cc, op - 0x20) {
        r := r.(pc := W16(r.pc + offset));
        BackAgain(c.r.pc, offset);
        if offset < 0 && offset >= -(IDLE_BODY_MAX + 2) { back := Some(W16(r.pc - offset - 2)); }
      }
      ok := true;
    }

    lemma BackAgain(pc: u16, offset: int)
      ensures W16(W16(pc + 2) + offset) == W16(pc + 2 + offset) && W16(W16(pc + 2 + offset) - offset - 2) == pc
    {
    }

    /** `execute_one` for the modelled instructions: fetch, operand address, operation. Leaves the
        registers alone when it meets anything else. */
    method InterpretOne() returns (ok: bool, back: Option<u16>)
      modifies this`r, this`cycles
      ensures ok == Interp(old(View())).Some?
      ensures ok ==> View() == Interp(old(View())).value && back == BackBranch(old(View()))
      ensures !ok ==> View() == old(View())
    {
      hide Peek, Decode, Operand, Apply, Opcode, BackBranch, Native;
      var c := View();
      ok, back := false, None;
      var op := Fetch();
      if op.Some? && 0x20 <= op.value < 0x30 {
        ok, back := ShortBranch(op.value, c);
      } else if op.Some? && Opcode(op.value).Some? {
        ok := Plain(op.value, c);
      } else {
        NotModelled(c);
      }
      if !ok { r, cycles := c.r, c.cycles; }
    }

    lemma NotModelled(c: Core)
      requires match Peek(c.mem, c.r.pc) case None => true case Some(op) => !(0x20 <= op < 0x30) && Opcode(op).None?
      ensures Interp(c).None?
    {
    }

    // An instruction other than a branch.
    method Plain(op: u8, c: Core) returns (ok: bool)
      requires Peek(c.mem, c.r.pc) == Some(op) && !(0x20 <= op < 0x30) && Opcode(op).Some?
      requires View() == c.(r := c.r.(pc := W16(c.r.pc + 1)))
      modifies this`r, this`cycles
      ensures ok == Interp(c).Some? && (ok ==> View() == Interp(c).value && BackBranch(c).None?)
      ensures mem == c.mem && lines == c.lines
    {
      hide Peek, Decode, Operand, Apply, Opcode, BaseCycles, NativeSave;
      var (act, mode) := Opcode(op).value;
      var ea, extra := Address(act, mode, c.r, op);
      if ea.None? { return false; }
      ghost var i := Decode(mem, c.r).value;
      var v := Operand(mem, Insn(act, 0, ea.value, 0));
      SameOperand(mem, i, Insn(act, 0, ea.value, 0));
      if v.None? { return false; }
      ghost var q := r;
      r := Apply(act, r, v.value);
      ApplyElsewhere(act, c.r, q.pc, v.value);
      Saves(act, mode);
      cycles := cycles + BaseCycles(act, mode) - (if Native(r) then NativeSave(act, mode) else 0) + extra;
      ok := true;
    }

    lemma Saves(act: Act, mode: Mode)
      ensures BaseCycles(act, mode) >= NativeSave(act, mode)
    {
    }

    lemma SameOperand(m: Memory, i: Insn, j: Insn)
      requires i.act == j.act && i.ea == j.ea
      ensures Operand(m, i) == Operand(m, j)
    {
    }

    // The operation looks at no program counter and leaves MD alone.
    lemma ApplyElsewhere(act: Act, r: Regs, pc: u16, v: u16)
      requires !Wide(act) ==> v < 0x100
      ensures Apply(act, r.(pc := pc), v) == Apply(act, r, v).(pc := pc) && Apply(act, r, v).md == r.md
    {
      hide Changes;
    }

    method ExecuteOne()
      requires Calm(View())
      modifies this
      ensures (View(), Bookkeeping()) == SkipTurn(world, old(View()), old(Bookkeeping()), idleBudget)
      ensures idleBudget == old(idleBudget)
    {
      hide Interp, IdleCheck, Branch, BackBranch;
      var c, i := View(), Bookkeeping();
      var ok, back := InterpretOne();
      if ok {
        if back.Some? && idleSkip { IdleLoopCheck(back.value); }
      } else {
        SetView(world.other(c));
        var k := world.note(c, i, idleBudget);
        idleSkip, idleRej, idleBr, idleCyc := k.on, k.rej, k.br, k.cyc;
      }
    }

    /** `hd6309_run`: every call ends where the skipping run loop ends. */
    method Run(budget: int) returns (used: nat)
      requires Advances(world)
      modifies this
      ensures (View(), Bookkeeping()) ==
              RunSkip(world, old(View()).(cycles := 0), old(Bookkeeping()).(br := -1), budget)
      ensures used == cycles
    {
      hide Step, IdleCheck, Branch, Calm;
      cycles := 0;
      idleBr := -1;
      idleBudget := budget;
      ghost var c0, i0 := View(), Bookkeeping();
      while cycles < budget
        invariant idleBudget == budget
        invariant RunSkip(world, View(), Bookkeeping(), budget) == RunSkip(world, c0, i0, budget)
        decreases budget - cycles
      {
        SkipTurnAdvances(world, View(), Bookkeeping(), budget);
        if Calm(View()) {
          ExecuteOne();
        } else {
          var c, i := View(), Bookkeeping();
          SetView(world.service(c, budget));
          var k := world.note(c, i, idleBudget);
          idleSkip, idleRej, idleBr, idleCyc := k.on, k.rej, k.br, k.cyc;
        }
      }
      used := cycles;
    }
  }
}
