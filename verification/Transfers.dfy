/** What the four block transfers do (src/core/hd6309_ops.h), opcode by opcode.

    `Tfm` proves that a transfer, however cut up, is a sequential copy whose addresses move by the steps of the
    instruction. Here the addresses are written out for $38 to $3B, and the registers by their codes. */
module Transfers {
  import opened Words
  import opened Hd6309
  import opened Interrupts
  import opened Tfm

  // The register a postbyte digit names: D, X, Y, U, S.
  function Register(r: Regs, code: Reg): u16 {
    match code
    case 0 => 0x100 * r.a + r.b
    case 1 => r.x
    case 2 => r.y
    case 3 => r.u
    case _ => r.s
  }

  /** Bytes copied one after the other, from the addresses `src` to the addresses `dst`. */
  function Copied(m: Mem, src: seq<u16>, dst: seq<u16>): Mem
    requires |src| == |dst|
  {
    if src == [] then m
    else
      var n := |src| - 1;
      var p := Copied(m, src[..n], dst[..n]);
      p[dst[n] := p[src[n]]]
  }

  // `n` addresses going up from `a`, going down, and staying.
  function Up(a: u16, n: nat): seq<u16> { seq<u16>(n, i requires 0 <= i => W16(a + i)) }

  function Down(a: u16, n: nat): seq<u16> { seq<u16>(n, i requires 0 <= i => W16(a - i)) }

  function Still(a: u16, n: nat): seq<u16> { seq<u16>(n, _ => a) }

  /** TFM r0+,r1+ goes up in both, r0-,r1- down in both, r0+,r1 and r0,r1+ up in one. */
  function Sources(op: u8, a: u16, n: nat): (s: seq<u16>)
    ensures |s| == n
  {
    match op
    case 0x38 => Up(a, n)
    case 0x39 => Down(a, n)
    case 0x3A => Up(a, n)
    case _ => Still(a, n)
  }

  function Targets(op: u8, a: u16, n: nat): (s: seq<u16>)
    ensures |s| == n
  {
    match op
    case 0x38 => Up(a, n)
    case 0x39 => Down(a, n)
    case 0x3A => Still(a, n)
    case _ => Up(a, n)
  }

  lemma RegisterIs(r: Regs, code: Reg)
    ensures Register(r, code) == Get(r, code)
  {
    ShlByte(r.a);
  }

  // How far the registers have moved after `n` bytes.
  function SourceMoves(op: u8, n: int): int {
    match op
    case 0x38 => n
    case 0x39 => -n
    case 0x3A => n
    case _ => 0
  }

  function TargetMoves(op: u8, n: int): int {
    match op
    case 0x38 => n
    case 0x39 => -n
    case 0x3A => 0
    case _ => n
  }

  lemma Distances(op: u8, sc: Reg, dc: Reg, n: nat)
    requires IsTfm(op) && sc != dc
    ensures Ds(op, sc, dc) * n == SourceMoves(op, n) && Dd(op, sc, dc) * n == TargetMoves(op, n)
  {
    match op
    case 0x38 =>
    case 0x39 =>
    case 0x3A =>
    case _ =>
  }

  lemma AddressAt(op: u8, a: u16, n: nat, i: nat)
    requires i < n && IsTfm(op)
    ensures Sources(op, a, n)[i] == W16(a + SourceMoves(op, i)) && Targets(op, a, n)[i] == W16(a + TargetMoves(op, i))
  {
  }

  lemma Shorter(op: u8, a: u16, n: nat)
    requires n > 0
    ensures Sources(op, a, n)[..n - 1] == Sources(op, a, n - 1) && Targets(op, a, n)[..n - 1] == Targets(op, a, n - 1)
  {
  }

  lemma {:induction false} CopiedIs(m: Mem, op: u8, s: u16, d: u16, sc: Reg, dc: Reg, n: nat)
    requires IsTfm(op) && sc != dc
    ensures Copied(m, Sources(op, s, n), Targets(op, d, n)) == Copy(m, s, Ds(op, sc, dc), d, Dd(op, sc, dc), n)
    decreases n
  {
    hide Sources, Targets, Ds, Dd, SourceMoves, TargetMoves, W16;
    if n > 0 {
      CopiedIs(m, op, s, d, sc, dc, n - 1);
      Shorter(op, s, n);
      Shorter(op, d, n);
      AddressAt(op, s, n, n - 1);
      AddressAt(op, d, n, n - 1);
      Distances(op, sc, dc, n - 1);
    }
  }

  // A byte copied onto itself.
  lemma {:induction false} CopyOnto(m: Mem, a: int, e: int, n: nat)
    ensures Copy(m, a, e, a, e, n) == m
    decreases n
  {
    if n > 0 { CopyOnto(m, a, e, n - 1); }
  }

  /** Between two different registers: what is copied where, and where the registers end. The others, D, X, Y, U
      or S, stay; W is 0, Z is set, and PC is past the instruction. Handlers' cells apart. */
  lemma TransferByOpcode(j: Job, evs: seq<Event>)
    requires j.Ok() && j.Harmless(evs) && Count(evs) == j.first.r.w && j.sc != j.dc
    ensures Go(Trace(j.first, 0), evs).Some?
    ensures var r, c := j.first.r, Go(Trace(j.first, 0), evs).value.c;
      var s, d := Register(r, j.sc), Register(r, j.dc);
      && (forall a: u16 | a !in j.scratch ::
            c.mem[a] == Copied(j.first.mem, Sources(j.op, s, r.w), Targets(j.op, d, r.w))[a])
      && Register(c.r, j.sc) == W16(s + SourceMoves(j.op, r.w))
      && Register(c.r, j.dc) == W16(d + TargetMoves(j.op, r.w))
      && (forall k: Reg | k != j.sc && k != j.dc :: Register(c.r, k) == Register(r, k))
      && c.r.w == 0 && c.r.cc.z && c.r.pc == W16(r.pc + j.extra + 3)
  {
    hide Go, RegsAfter, Instruction, Copy, Copied, Get, Register, Sources, Targets, Ds, Dd;
    var r := j.first.r;
    OpIs(j);
    TransferIsCopy(j, evs);
    var c := Go(Trace(j.first, 0), evs).value.c;
    RegisterIs(r, j.sc);
    RegisterIs(r, j.dc);
    CopiedIs(j.first.mem, j.op, Get(r, j.sc), Get(r, j.dc), j.sc, j.dc, r.w);
    Ends(j, c.r);
    Distances(j.op, j.sc, j.dc, r.w);
    RegisterIs(c.r, j.sc);
    RegisterIs(c.r, j.dc);
    forall k: Reg | k != j.sc && k != j.dc
      ensures Register(c.r, k) == Register(r, k)
    {
      RegisterIs(r, k);
      RegisterIs(c.r, k);
    }
  }

  lemma OpIs(j: Job)
    requires j.Ok()
    ensures IsTfm(j.op)
  {
  }

  lemma Ends(j: Job, q: Regs)
    requires q == RegsAfter(j.first.r, j.op, j.sc, j.dc, j.first.r.w).(w := q.w, cc := q.cc, pc := q.pc)
    ensures var r := j.first.r;
      && Get(q, j.sc) == W16(Get(r, j.sc) + Ds(j.op, j.sc, j.dc) * r.w)
      && Get(q, j.dc) == W16(Get(r, j.dc) + Dd(j.op, j.sc, j.dc) * r.w)
      && (forall k: Reg | k != j.sc && k != j.dc :: Get(q, k) == Get(r, k))
  {
    hide Tfm.Put, W16, Ds, Dd;
    var r := j.first.r;
    GetAfter(r, j.op, j.sc, j.dc, r.w);
    var u, v := W16(Get(r, j.sc) + Ds(j.op, j.sc, j.dc) * r.w), W16(Get(r, j.dc) + Dd(j.op, j.sc, j.dc) * r.w);
    forall k: Reg | k != j.sc && k != j.dc
      ensures Get(q, k) == Get(r, k)
    {
      PutGet(r, j.sc, u, k);
      PutGet(Tfm.Put(r, j.sc, u), j.dc, v, k);
    }
  }

  lemma BothSteps(op: u8, i: Reg, n: nat)
    requires IsTfm(op)
    ensures Ds(op, i, i) * n == Dd(op, i, i) * n == SourceMoves(op, n) + TargetMoves(op, n)
    ensures Ds(op, i, i) == Dd(op, i, i)
  {
    match op
    case 0x38 =>
    case 0x39 =>
    case 0x3A =>
    case _ =>
  }

  /** With one register as both, every byte is copied onto itself, and the register moves by both steps. */
  lemma TransferOnto(j: Job, evs: seq<Event>)
    requires j.Ok() && j.Harmless(evs) && Count(evs) == j.first.r.w && j.sc == j.dc
    ensures Go(Trace(j.first, 0), evs).Some?
    ensures var r, c := j.first.r, Go(Trace(j.first, 0), evs).value.c;
      && (forall a: u16 | a !in j.scratch :: c.mem[a] == j.first.mem[a])
      && Register(c.r, j.sc) == W16(Register(r, j.sc) + SourceMoves(j.op, r.w) + TargetMoves(j.op, r.w))
      && (forall k: Reg | k != j.sc :: Register(c.r, k) == Register(r, k))
      && c.r.w == 0 && c.r.cc.z && c.r.pc == W16(r.pc + j.extra + 3)
  {
    hide Go, RegsAfter, Instruction, Copy, Get, Register, SourceMoves, TargetMoves, Ds, Dd;
    var r := j.first.r;
    OpIs(j);
    BothSteps(j.op, j.sc, r.w);
    TransferIsCopy(j, evs);
    var c := Go(Trace(j.first, 0), evs).value.c;
    CopyOnto(j.first.mem, Get(r, j.sc), Ds(j.op, j.sc, j.dc), r.w);
    Ends(j, c.r);
    RegisterIs(r, j.sc);
    RegisterIs(c.r, j.sc);
    forall k: Reg | k != j.sc
      ensures Register(c.r, k) == Register(r, k)
    {
      RegisterIs(r, k);
      RegisterIs(c.r, k);
    }
  }

  /** For W = 2, $11 $39 $12, X down to Y down: two bytes from $2001 and $2000 to $3001 and
      $3000. */
  lemma DownExample(m: Mem)
    ensures Copied(m, Sources(0x39, 0x2001, 2), Targets(0x39, 0x3001, 2)) ==
            m[0x3001 := m[0x2001]][0x3000 := m[0x2000]]
  {
    var src, dst := Sources(0x39, 0x2001, 2), Targets(0x39, 0x3001, 2);
    assert src == [0x2001, 0x2000] && dst == [0x3001, 0x3000];
    assert src[..1] == [0x2001] && dst[..1] == [0x3001];
    assert Copied(m, [0x2001], [0x3001]) == m[0x3001 := m[0x2001]] by {
      assert [0x2001][..0] == [] && Copied(m, [], []) == m;
    }
  }
}
