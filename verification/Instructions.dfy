/** What the instructions of a polling loop do, told from their bytes (src/core/mc6809_core_impl.h).

    `IdleLoop` interprets them through condition codes. The laws here say what a program sees of that:
    after a comparison a conditional branch is taken exactly when the numbers compared stand in its
    relation, and every operation leaves the stated value in the stated register. */
module Instructions {
  import opened Words
  import opened Hd6309
  import opened IdleLoop

  // ------------------------------------------------------------------
  // Instruction bytes
  // ------------------------------------------------------------------

  // Byte `k` of the instruction at PC.
  function ByteAt(c: Core, k: nat): Option<u8> { Peek(c.mem, W16(c.r.pc + k)) }

  // Two's complement of a number below `2 * half`.
  function Signed(v: int, half: int): int { if v >= half then v - 2 * half else v }

  // The two columns of opcodes for A and for B, by their low digit.
  predicate Column(op: u8, digit: nat) { op % 16 == digit && (0x90 <= op < 0xC0 || op >= 0xD0) }

  predicate ForA(op: u8) { op < 0xC0 }

  function Accumulator(c: Core, op: u8): u8 { if ForA(op) then c.r.a else c.r.b }

  // Base register and 5-bit offset of the indexed modes n,R and ,R.
  function Indexed(r: Regs, post: u8): Option<u16> {
    if post < 0x20 then Some(W16(r.x + Signed(post, 16)))
    else if post < 0x40 then Some(W16(r.y + Signed(post - 0x20, 16)))
    else if post < 0x60 then Some(W16(r.u + Signed(post - 0x40, 16)))
    else if post < 0x80 then Some(W16(r.s + Signed(post - 0x60, 16)))
    else match post
      case 0x84 => Some(r.x)
      case 0xA4 => Some(r.y)
      case 0xC4 => Some(r.u)
      case 0xE4 => Some(r.s)
      case _ => None
  }

  /** The instruction at PC has opcode `op`, `len` bytes and the operand address `ea`: direct page,
      indexed or extended by the high digit of the opcode. */
  predicate Addresses(c: Core, op: u8, ea: u16, len: nat) {
    ByteAt(c, 0) == Some(op) &&
    match ByteAt(c, 1)
    case None => false
    case Some(b) =>
      match op / 16 {
        case 0x0 | 0x9 | 0xD => len == 2 && ea == 0x100 * c.r.dp + b
        case 0x6 | 0xA | 0xE => len == 2 && Indexed(c.r, b) == Some(ea)
        case 0x7 | 0xB | 0xF => len == 3 && ByteAt(c, 2).Some? && ea == 0x100 * b + ByteAt(c, 2).value
        case _ => false
      }
  }

  // The instruction `len` bytes on is a short branch.
  predicate Followed(c: Core, len: nat, bop: u8, off: u8) {
    0x20 <= bop < 0x30 && ByteAt(c, len) == Some(bop) && ByteAt(c, len + 1) == Some(off)
  }

  /** The instruction of `len` bytes and the branch after it run, and the branch is taken or not. */
  predicate Branches(c: Core, len: nat, off: u8, taken: bool) {
    && Pass(c, 2).Some?
    && Pass(c, 2).value.r.pc == W16(c.r.pc + len + 2 + if taken then Signed(off, 0x80) else 0)
  }

  // ------------------------------------------------------------------
  // Running them
  // ------------------------------------------------------------------

  lemma Pairs(hi: u8, lo: u8)
    ensures Pair(hi, lo) == 0x100 * hi + lo
  {
    ShlByte(hi);
  }

  lemma IndexedIs(r: Regs, post: u8)
    requires Indexed(r, post).Some?
    ensures post < 0x80 ==> Indexed(r, post).value == W16(IndexReg(r, post) + Offset5(post))
    ensures post >= 0x80 ==> post % 32 == 4 && Indexed(r, post).value == IndexReg(r, post)
  {
  }

  lemma Decodes(c: Core, op: u8, ea: u16, len: nat)
    requires Addresses(c, op, ea, len) && Opcode(op).Some? && op != 0x12 && op != 0x4D && op != 0x5D
    ensures Decode(c.mem, c.r).Some? && Peek(c.mem, c.r.pc) == Some(op) && !(0x20 <= op < 0x30)
    ensures var i := Decode(c.mem, c.r).value; i.act == Opcode(op).value.0 && i.ea == ea && i.len == len
  {
    hide Peek, BaseCycles, NativeSave, IndexReg, Offset5, Indexed, Pair;
    OpcodeNoBranch();
    var b := ByteAt(c, 1).value;
    assert W16(c.r.pc) == c.r.pc;
    Pairs(c.r.dp, b);
    if op / 16 == 0x6 || op / 16 == 0xA || op / 16 == 0xE { IndexedIs(c.r, b); }
    if len == 3 { Pairs(b, ByteAt(c, 2).value); }
  }

  // The operation at PC, its operand being `v`.
  lemma Runs(c: Core, op: u8, ea: u16, len: nat, v: u16) returns (q: Core)
    requires Addresses(c, op, ea, len) && Opcode(op).Some? && op != 0x12 && op != 0x4D && op != 0x5D
    requires Operand(c.mem, Insn(Opcode(op).value.0, len, ea, 0)) == Some(v)
    ensures !Wide(Opcode(op).value.0) ==> v < 0x100
    ensures Interp(c) == Some(q) && q.mem == c.mem && q.lines == c.lines
    ensures q.r == Apply(Opcode(op).value.0, c.r, v).(pc := W16(c.r.pc + len))
  {
    hide Peek, Opcode, Decode, Apply, Addresses, Wide;
    Decodes(c, op, ea, len);
    var i := Decode(c.mem, c.r).value;
    assert Operand(c.mem, i) == Some(v);
    NoBranch(c, op);
    q := Interp(c).value;
  }

  lemma NoBranch(c: Core, op: u8)
    requires Peek(c.mem, c.r.pc) == Some(op) && !(0x20 <= op < 0x30)
    ensures Branch(c.mem, c.r.pc).None?
  {
    hide Peek;
  }

  // The operations by column.
  function Operation(digit: nat, s: Side): Act {
    match digit
    case 0 => Sub(s)
    case 1 => Cmp(s)
    case 4 => And(s)
    case 5 => Bit(s)
    case 6 => Load(s)
    case 8 => Eor(s)
    case 10 => Or(s)
    case 11 => Add(s)
    case 12 => if s.A? then CmpX else LoadD
    case _ => LoadX
  }

  lemma Columns(op: u8, digit: nat)
    requires Column(op, digit)
    ensures Opcode(op).Some? <==> digit in {0, 1, 4, 5, 6, 8, 10, 11, 12} || (digit == 14 && ForA(op))
    ensures Opcode(op).Some? ==> op != 0x12 && op != 0x4D && op != 0x5D
    ensures Opcode(op).Some? ==> Opcode(op).value.0 == Operation(digit, if ForA(op) then A else B)
  {
  }

  lemma Wrapped(a: int, n: int)
    ensures W16(W16(a) + n) == W16(a + n)
  {
  }

  lemma BranchRuns(c: Core, q: Core, len: nat, bop: u8, off: u8)
    requires Followed(c, len, bop, off) && Interp(c) == Some(q) && q.mem == c.mem && q.r.pc == W16(c.r.pc + len)
    ensures Branches(c, len, off, Taken(q.r.cc, bop - 0x20)) && 0x20 <= bop < 0x30
  {
    hide Peek, Taken, W16, Interp, Decode, Operand, Apply;
    PassTwo(c, q);
    Wrapped(c.r.pc + len, 1);
    assert Branch(q.mem, q.r.pc) == Some((bop - 0x20, Signed8(off)));
    BranchStep(q, bop - 0x20, Signed8(off));
    Wrapped(c.r.pc + len, 2 + if Taken(q.r.cc, bop - 0x20) then Signed8(off) else 0);
  }

  lemma BranchStep(q: Core, cond: int, off: int)
    requires Branch(q.mem, q.r.pc) == Some((cond, off)) && 0 <= cond < 16
    ensures Interp(q).Some? && Interp(q).value.r.pc == W16(q.r.pc + 2 + if Taken(q.r.cc, cond) then off else 0)
  {
    hide Branch, Taken;
  }

  // ------------------------------------------------------------------
  // Comparisons
  // ------------------------------------------------------------------

  /** What a branch asks of two numbers compared, `l` with `v`, below `2 * half`. */
  predicate Relation(bop: u8, l: int, v: int, half: int)
    requires half > 0
  {
    var sl, sv := Signed(l, half), Signed(v, half);
    match bop
    case 0x20 => true                            // BRA
    case 0x21 => false                           // BRN
    case 0x22 => l > v                           // BHI
    case 0x23 => l <= v                          // BLS
    case 0x24 => l >= v                          // BHS
    case 0x25 => l < v                           // BLO
    case 0x26 => l != v                          // BNE
    case 0x27 => l == v                          // BEQ
    case 0x28 => -half <= sl - sv < half         // BVC
    case 0x29 => !(-half <= sl - sv < half)      // BVS
    case 0x2A => (l - v) % (2 * half) < half     // BPL
    case 0x2B => (l - v) % (2 * half) >= half    // BMI
    case 0x2C => sl >= sv                        // BGE
    case 0x2D => sl < sv                         // BLT
    case 0x2E => sl > sv                         // BGT
    case 0x2F => sl <= sv                        // BLE
    case _ => false
  }

  lemma Compared8(cc: Flags, l: u8, v: u8, bop: u8)
    requires 0x20 <= bop < 0x30
    ensures Taken(Hd6309.Put(cc, Sub8(l, v)), bop - 0x20) <==> Relation(bop, l, v, 0x80)
  {
  }

  lemma Compared16(cc: Flags, l: u16, v: u16, bop: u8)
    requires 0x20 <= bop < 0x30
    ensures Taken(Hd6309.Put(cc, Sub16(l, v)), bop - 0x20) <==> Relation(bop, l, v, 0x8000)
  {
  }

  /** CMPA, CMPB, SUBA and SUBB, in every addressing mode and for all values: the branch that follows goes by
      the relation of the accumulator to the operand. */
  lemma CompareAndBranch(c: Core, op: u8, ea: u16, len: nat, v: u8, bop: u8, off: u8)
    requires Column(op, 0) || Column(op, 1)
    requires Addresses(c, op, ea, len) && Peek(c.mem, ea) == Some(v) && Followed(c, len, bop, off)
    ensures Branches(c, len, off, Relation(bop, Accumulator(c, op), v, 0x80))
  {
    hide Peek, Taken, Addresses, Opcode, Relation, Sub8, Branches;
    Columns(op, op % 16);
    var q := Runs(c, op, ea, len, v);
    BranchRuns(c, q, len, bop, off);
    Compared8(c.r.cc, Accumulator(c, op), v, bop);
  }

  /** CMPX. */
  lemma CompareXAndBranch(c: Core, op: u8, ea: u16, len: nat, hi: u8, lo: u8, bop: u8, off: u8)
    requires Column(op, 12) && ForA(op)
    requires Addresses(c, op, ea, len) && Followed(c, len, bop, off)
    requires Peek(c.mem, ea) == Some(hi) && Peek(c.mem, W16(ea + 1)) == Some(lo)
    ensures Branches(c, len, off, Relation(bop, c.r.x, 0x100 * hi + lo, 0x8000))
  {
    hide Peek, Taken, Addresses, Opcode, Relation, Sub16, Branches, Pair;
    Columns(op, 12);
    Pairs(hi, lo);
    var q := Runs(c, op, ea, len, Pair(hi, lo));
    BranchRuns(c, q, len, bop, off);
    Compared16(c.r.cc, c.r.x, Pair(hi, lo), bop);
  }

  // ------------------------------------------------------------------
  // Results
  // ------------------------------------------------------------------

  /** What a branch asks of a result `t` below `2 * half` after an operation that clears V and keeps C. */
  predicate Test(bop: u8, t: int, half: int, carry: bool) {
    match bop
    case 0x20 | 0x28 => true                     // BRA, BVC
    case 0x21 | 0x29 => false                    // BRN, BVS
    case 0x22 => !carry && t != 0                // BHI
    case 0x23 => carry || t == 0                 // BLS
    case 0x24 => !carry                          // BHS
    case 0x25 => carry                           // BLO
    case 0x26 => t != 0                          // BNE
    case 0x27 => t == 0                          // BEQ
    case 0x2A => t < half                        // BPL
    case 0x2B => t >= half                       // BMI
    case 0x2C => Signed(t, half) >= 0            // BGE
    case 0x2D => Signed(t, half) < 0             // BLT
    case 0x2E => Signed(t, half) > 0             // BGT
    case 0x2F => Signed(t, half) <= 0            // BLE
    case _ => false
  }

  lemma Tested8(cc: Flags, t: u8, bop: u8)
    requires 0x20 <= bop < 0x30
    ensures Taken(Hd6309.Put(cc, Logic8(t)), bop - 0x20) <==> Test(bop, t, 0x80, cc.c)
  {
  }

  lemma Tested16(cc: Flags, t: u16, bop: u8)
    requires 0x20 <= bop < 0x30
    ensures Taken(Hd6309.Put(cc, Logic16(t)), bop - 0x20) <==> Test(bop, t, 0x8000, cc.c)
  {
  }

  /** And of a sum: equal to zero, its carry, its sign, whether it fits. */
  predicate Sum(bop: u8, l: int, v: int) {
    var sum, s := l + v, Signed(l, 0x80) + Signed(v, 0x80);
    match bop
    case 0x20 => true
    case 0x21 => false
    case 0x22 => sum < 0x100 && sum != 0
    case 0x23 => sum >= 0x100 || sum == 0
    case 0x24 => sum < 0x100
    case 0x25 => sum >= 0x100
    case 0x26 => sum != 0 && sum != 0x100
    case 0x27 => sum == 0 || sum == 0x100
    case 0x28 => -0x80 <= s < 0x80
    case 0x29 => !(-0x80 <= s < 0x80)
    case 0x2A => sum % 0x100 < 0x80
    case 0x2B => sum % 0x100 >= 0x80
    case 0x2C => s >= 0
    case 0x2D => s < 0
    case 0x2E => s >= 0 && sum % 0x100 != 0
    case 0x2F => s < 0 || sum % 0x100 == 0
    case _ => false
  }

  lemma Added(cc: Flags, l: u8, v: u8, bop: u8)
    requires 0x20 <= bop < 0x30
    ensures Taken(Hd6309.Put(cc, Add8(l, v)), bop - 0x20) <==> Sum(bop, l, v)
  {
  }

  /** The result of an operation that is not a comparison or a sum: AND and BIT, LD, EOR, OR. */
  predicate Result(op: u8, l: u8, v: u8, t: u8) {
    match op % 16
    case 4 | 5 => t == ((l as bv8) & (v as bv8)) as int
    case 6 => t == v
    case 8 => t == ((l as bv8) ^ (v as bv8)) as int
    case 10 => t == ((l as bv8) | (v as bv8)) as int
    case _ => false
  }

  predicate OneOf(op: u8, digits: set<nat>) { op % 16 in digits && (0x90 <= op < 0xC0 || op >= 0xD0) }

  // The flags such an operation leaves are those of its result.
  lemma ResultFlags(op: u8, l: u8, v: u8, t: u8)
    requires OneOf(op, {4, 5, 6, 8, 10}) && Result(op, l, v, t)
    ensures forall s :: Changes(Operation(op % 16, s), l, v) == Logic8(t)
  {
  }

  /** Loads, AND, BIT, OR and EOR on accumulators: the branch that follows goes by the result, N its sign and
      Z whether it is zero, V clear and C as it was. */
  lemma ResultAndBranch(c: Core, op: u8, ea: u16, len: nat, v: u8, t: u8, bop: u8, off: u8)
    requires OneOf(op, {4, 5, 6, 8, 10}) && Result(op, Accumulator(c, op), v, t)
    requires Addresses(c, op, ea, len) && Peek(c.mem, ea) == Some(v) && Followed(c, len, bop, off)
    ensures Branches(c, len, off, Test(bop, t, 0x80, c.r.cc.c))
  {
    hide Peek, Taken, Addresses, Opcode, Test, Logic8, Branches, Changes, Result;
    Columns(op, op % 16);
    var q := Runs(c, op, ea, len, v);
    BranchRuns(c, q, len, bop, off);
    ResultFlags(op, Accumulator(c, op), v, t);
    var s := if ForA(op) then A else B;
    if op % 16 == 6 { Ignores(s, Accumulator(c, op), v); }
    Tested8(c.r.cc, t, bop);
  }

  lemma Ignores(s: Side, l: u8, v: u8)
    ensures Changes(Load(s), l, v) == Changes(Load(s), 0, v)
  {
  }

  /** ADDA and ADDB. */
  lemma AddAndBranch(c: Core, op: u8, ea: u16, len: nat, v: u8, bop: u8, off: u8)
    requires Column(op, 11)
    requires Addresses(c, op, ea, len) && Peek(c.mem, ea) == Some(v) && Followed(c, len, bop, off)
    ensures Branches(c, len, off, Sum(bop, Accumulator(c, op), v))
  {
    hide Peek, Taken, Addresses, Opcode, Sum, Add8, Branches;
    Columns(op, 11);
    var q := Runs(c, op, ea, len, v);
    BranchRuns(c, q, len, bop, off);
    Added(c.r.cc, Accumulator(c, op), v, bop);
  }

  /** LDD and LDX: the branch goes by the word loaded. */
  lemma WordAndBranch(c: Core, op: u8, ea: u16, len: nat, hi: u8, lo: u8, bop: u8, off: u8)
    requires (Column(op, 12) && !ForA(op)) || (Column(op, 14) && ForA(op))
    requires Addresses(c, op, ea, len) && Followed(c, len, bop, off)
    requires Peek(c.mem, ea) == Some(hi) && Peek(c.mem, W16(ea + 1)) == Some(lo)
    ensures Branches(c, len, off, Test(bop, 0x100 * hi + lo, 0x8000, c.r.cc.c))
  {
    hide Peek, Taken, Addresses, Opcode, Test, Logic16, Branches, Pair;
    Columns(op, op % 16);
    Pairs(hi, lo);
    var q := Runs(c, op, ea, len, Pair(hi, lo));
    BranchRuns(c, q, len, bop, off);
    Tested16(c.r.cc, Pair(hi, lo), bop);
  }

  /** TST of memory. */
  lemma TstAndBranch(c: Core, op: u8, ea: u16, len: nat, v: u8, bop: u8, off: u8)
    requires op == 0x0D || op == 0x6D || op == 0x7D
    requires Addresses(c, op, ea, len) && Peek(c.mem, ea) == Some(v) && Followed(c, len, bop, off)
    ensures Branches(c, len, off, Test(bop, v, 0x80, c.r.cc.c))
  {
    hide Peek, Taken, Addresses, Test, Logic8, Branches;
    var q := Runs(c, op, ea, len, v);
    BranchRuns(c, q, len, bop, off);
    Tested8(c.r.cc, v, bop);
  }

  /** TSTA and TSTB. */
  lemma TstAccAndBranch(c: Core, op: u8, bop: u8, off: u8)
    requires (op == 0x4D || op == 0x5D) && ByteAt(c, 0) == Some(op) && Followed(c, 1, bop, off)
    ensures Branches(c, 1, off, Test(bop, if op == 0x4D then c.r.a else c.r.b, 0x80, c.r.cc.c))
  {
    hide Peek, Taken, Test, Logic8, Branches;
    var q := Inherent(c, op);
    BranchRuns(c, q, 1, bop, off);
    Tested8(c.r.cc, if op == 0x4D then c.r.a else c.r.b, bop);
  }

  lemma Inherent(c: Core, op: u8) returns (q: Core)
    requires (op == 0x12 || op == 0x4D || op == 0x5D) && ByteAt(c, 0) == Some(op)
    ensures Interp(c) == Some(q) && q.mem == c.mem && q.lines == c.lines
    ensures q.r == Apply(Opcode(op).value.0, c.r, 0).(pc := W16(c.r.pc + 1))
    ensures q.cycles == c.cycles + if c.r.md % 2 == 1 then 1 else 2
  {
    hide Peek, Apply;
    NoBranch(c, op);
    q := Interp(c).value;
  }

  // ------------------------------------------------------------------
  // Registers
  // ------------------------------------------------------------------

  function WithAccumulator(r: Regs, op: u8, t: u8): Regs { if ForA(op) then r.(a := t) else r.(b := t) }

  /** Interpreting the instruction of `len` bytes leaves the registers `r`, program counter and condition codes
      apart, and touches nothing else; of the condition codes E, F and I stay. */
  predicate Leaves(c: Core, len: nat, r: Regs) {
    && Interp(c).Some?
    && var q := Interp(c).value;
      && q.mem == c.mem && q.lines == c.lines
      && q.r == r.(pc := W16(c.r.pc + len), cc := q.r.cc)
      && q.r.cc.e == c.r.cc.e && q.r.cc.f == c.r.cc.f && q.r.cc.i == c.r.cc.i
  }

  predicate Result8(op: u8, l: u8, v: u8, t: u8) {
    match op % 16
    case 0 => t == (l - v) % 0x100
    case 11 => t == (l + v) % 0x100
    case 1 | 5 => t == l
    case _ => Result(op, l, v, t)
  }

  lemma Writes8(op: u8, d: Data, v: u8, t: u8)
    requires OneOf(op, {0, 1, 4, 5, 6, 8, 10, 11}) && Result8(op, if ForA(op) then d.a else d.b, v, t)
    ensures Write(Operation(op % 16, if ForA(op) then A else B), d, v) == if ForA(op) then d.(a := t) else d.(b := t)
  {
    hide Write, Operation, Result8, Result, ForA;
    var s := if ForA(op) then A else B;
    match op % 16
    case 4 => AndWrites(d, s, v, t, op);
    case 8 => EorWrites(d, s, v, t, op);
    case 10 => OrWrites(d, s, v, t, op);
    case _ => Sums(op, d, s, v, t);
  }

  lemma Sums(op: u8, d: Data, s: Side, v: u8, t: u8)
    requires OneOf(op, {0, 1, 5, 6, 11}) && Result8(op, Acc(d, s), v, t)
    ensures Write(Operation(op % 16, s), d, v) == SetAcc(d, s, t)
  {
  }

  lemma AndWrites(d: Data, s: Side, v: u8, t: u8, op: u8)
    requires op % 16 == 4 && Result8(op, Acc(d, s), v, t)
    ensures Write(Operation(op % 16, s), d, v) == SetAcc(d, s, t)
  {
  }

  lemma EorWrites(d: Data, s: Side, v: u8, t: u8, op: u8)
    requires op % 16 == 8 && Result8(op, Acc(d, s), v, t)
    ensures Write(Operation(op % 16, s), d, v) == SetAcc(d, s, t)
  {
  }

  lemma OrWrites(d: Data, s: Side, v: u8, t: u8, op: u8)
    requires op % 16 == 10 && Result8(op, Acc(d, s), v, t)
    ensures Write(Operation(op % 16, s), d, v) == SetAcc(d, s, t)
  {
  }

  lemma Flags8(op: u8, s: Side, cc: Flags, l: u8, v: u8)
    requires OneOf(op, {0, 1, 4, 5, 6, 8, 10, 11})
    ensures var f := Hd6309.Put(cc, Changes(Operation(op % 16, s), l, v));
      && f.e == cc.e && f.f == cc.f && f.i == cc.i
      && f.h == if op % 16 == 11 then l % 16 + v % 16 >= 16 else cc.h
  {
    hide And8, Or8, Xor8;
  }

  /** SUB, AND, LD, EOR, OR and ADD leave their result in the accumulator; CMP and BIT leave it alone. Only
      ADD touches H, which tells a carry out of the low digit. */
  lemma Leaves8(c: Core, op: u8, ea: u16, len: nat, v: u8, t: u8)
    requires OneOf(op, {0, 1, 4, 5, 6, 8, 10, 11}) && Addresses(c, op, ea, len) && Peek(c.mem, ea) == Some(v)
    requires Result8(op, Accumulator(c, op), v, t)
    ensures Leaves(c, len, WithAccumulator(c.r, op, t))
    ensures Interp(c).value.r.cc.h == if op % 16 == 11 then Accumulator(c, op) % 16 + v % 16 >= 16 else c.r.cc.h
  {
    hide Peek, Addresses, Opcode, Changes, Write, Interp, Operation, Result8;
    Columns(op, op % 16);
    var s := if ForA(op) then A else B;
    Simple(op, s);
    var q := Runs(c, op, ea, len, v);
    Writes8(op, DataOf(c.r), v, t);
    Flags8(op, s, c.r.cc, Arg(Operation(op % 16, s), DataOf(c.r)), v);
    assert Arg(Operation(op % 16, s), DataOf(c.r)) == Accumulator(c, op) || op % 16 == 6;
  }

  lemma Simple(op: u8, s: Side)
    requires OneOf(op, {0, 1, 4, 5, 6, 8, 10, 11})
    ensures var act := Operation(op % 16, s); !Wide(act) && !act.Nop? && !act.TstAcc?
    ensures forall d :: Arg(Operation(op % 16, s), d) == if op % 16 == 6 then 0 else Acc(d, s)
  {
  }

  /** LDD puts the high byte into A and the low byte into B, LDX the word into X; CMPX writes no register. */
  lemma LeavesWord(c: Core, op: u8, ea: u16, len: nat, hi: u8, lo: u8)
    requires Column(op, 12) || (Column(op, 14) && ForA(op))
    requires Addresses(c, op, ea, len) && Peek(c.mem, ea) == Some(hi) && Peek(c.mem, W16(ea + 1)) == Some(lo)
    ensures Leaves(c, len, if op % 16 == 14 then c.r.(x := 0x100 * hi + lo)
                           else if ForA(op) then c.r else c.r.(a := hi, b := lo))
    ensures Interp(c).value.r.cc.h == c.r.cc.h
  {
    hide Peek, Addresses, Opcode, Pair, Hi, Lo;
    Columns(op, op % 16);
    Pairs(hi, lo);
    HalvesOf(hi, lo);
    var q := Runs(c, op, ea, len, Pair(hi, lo));
  }

  /** TST and NOP write no register; NOP no condition code either. */
  lemma LeavesNothing(c: Core, op: u8)
    requires op == 0x12 || op == 0x4D || op == 0x5D
    requires ByteAt(c, 0) == Some(op)
    ensures Leaves(c, 1, c.r) && (op == 0x12 ==> Interp(c).value.r.cc == c.r.cc)
  {
    hide Peek;
    var q := Inherent(c, op);
  }

  lemma LeavesTst(c: Core, op: u8, ea: u16, len: nat, v: u8)
    requires op == 0x0D || op == 0x6D || op == 0x7D
    requires Addresses(c, op, ea, len) && Peek(c.mem, ea) == Some(v)
    ensures Leaves(c, len, c.r)
  {
    hide Peek, Addresses;
    var q := Runs(c, op, ea, len, v);
  }

  /** A branch takes three cycles, taken or not, and touches PC only. */
  lemma BranchTakes(c: Core, bop: u8, off: u8)
    requires Followed(c, 0, bop, off)
    ensures Interp(c).Some?
    ensures var q := Interp(c).value; q == c.(r := c.r.(pc := q.r.pc), cycles := c.cycles + 3)
  {
    hide Peek, Taken;
    assert W16(c.r.pc) == c.r.pc;
  }

  // ------------------------------------------------------------------
  // Cycles
  // ------------------------------------------------------------------

  /** Cycles in emulation and in native mode, without the one that an offset adds to an indexed mode. */
  function Timing(op: u8): (int, int) {
    var digit := op % 16;
    match op / 16
    case 0x0 => (6, 4)                                                      // TST direct
    case 0x6 => (6, 5)
    case 0x7 => (7, 5)
    case 0x9 | 0xD =>
      if digit == 12 && ForA(op) then (6, 4) else if digit >= 12 then (5, 4) else (4, 3)
    case 0xA | 0xE =>
      if digit == 12 && ForA(op) then (6, 5) else if digit >= 12 then (5, 5) else (4, 4)
    case _ =>
      if digit == 12 && ForA(op) then (7, 5) else if digit >= 12 then (6, 5) else (5, 4)
  }

  predicate IsIndexed(op: u8) { op / 16 == 0x6 || op / 16 == 0xA || op / 16 == 0xE }

  lemma TimingIs(op: u8)
    requires Opcode(op).Some? && op != 0x12 && op != 0x4D && op != 0x5D
    ensures var (act, mode) := Opcode(op).value;
      && !mode.Inherent? && (mode.Indexed? <==> IsIndexed(op))
      && BaseCycles(act, mode) == Timing(op).0 && BaseCycles(act, mode) - NativeSave(act, mode) == Timing(op).1
  {
  }

  // What the decoder makes of them.
  lemma CostIs(c: Core, op: u8)
    requires Peek(c.mem, c.r.pc) == Some(op) && Opcode(op).Some? && Decode(c.mem, c.r).Some?
    requires !Opcode(op).value.1.Inherent?
    ensures var (act, mode) := Opcode(op).value;
      && ByteAt(c, 1).Some?
      && Decode(c.mem, c.r).value.cost ==
         BaseCycles(act, mode) - (if Native(c.r) then NativeSave(act, mode) else 0)
         + (if mode.Indexed? && ByteAt(c, 1).value < 0x80 then 1 else 0)
  {
    hide Peek, Opcode, BaseCycles, NativeSave, Pair, IndexReg, Offset5;
  }

  /** So long it takes; NOP, TSTA and TSTB take 2 cycles, or 1. */
  lemma Takes(c: Core, op: u8, ea: u16, len: nat)
    requires Addresses(c, op, ea, len) && Interp(c).Some?
    ensures var offset := if IsIndexed(op) && ByteAt(c, 1).value < 0x80 then 1 else 0;
      Interp(c).value.cycles == c.cycles + offset + if c.r.md % 2 == 1 then Timing(op).1 else Timing(op).0
  {
    hide Peek, Apply, Operand, Indexed, Decode, Opcode, BaseCycles, NativeSave, Timing, IsIndexed;
    NotInherent(c, op, ea, len);
    NoBranch(c, op);
    OneOfThem(c, op);
    TimingIs(op);
    CostIs(c, op);
  }

  lemma NotInherent(c: Core, op: u8, ea: u16, len: nat)
    requires Addresses(c, op, ea, len)
    ensures Peek(c.mem, c.r.pc) == Some(op) && op != 0x12 && op != 0x4D && op != 0x5D && !(0x20 <= op < 0x30)
  {
    hide Peek, Indexed;
    assert W16(c.r.pc) == c.r.pc;
  }

  lemma OneOfThem(c: Core, op: u8)
    requires Peek(c.mem, c.r.pc) == Some(op) && Decode(c.mem, c.r).Some?
    ensures Opcode(op).Some?
  {
    hide Peek, Opcode, BaseCycles, NativeSave;
  }
}
