/** DIVD and DIVQ of the HD6309 (src/core/hd6309_ops.h): signed division carried out on magnitudes,
    with signs put back afterwards and two kinds of overflow. */
module Divide {
  import opened Words
  import opened Hd6309
  import opened Interrupts
  import opened Arithmetic

  function Signed16(v: u16): int { if v >= 0x8000 then v - 0x1_0000 else v }

  function Signed32(v: u32): int { if v >= 0x8000_0000 then v - 0x1_0000_0000 else v }

  function Abs(x: int): nat { if x < 0 then -x else x }

  // `x` with a minus sign in front of it when `neg`.
  function Sign(neg: bool, x: int): int { if neg then -x else x }

  function Q(r: Regs): u32 { r.D() * 0x1_0000 + r.w }

  function SetQ(r: Regs, v: u32): Regs { r.SetD(v / 0x1_0000).(w := v % 0x1_0000) }

  /** How often `b` goes into `a`, and what is left. */
  function Quo(a: nat, b: nat): nat
    requires b > 0
    decreases a
  {
    if a < b then 0 else 1 + Quo(a - b, b)
  }

  function Rem(a: nat, b: nat): nat
    requires b > 0
    decreases a
  {
    if a < b then a else Rem(a - b, b)
  }

  // ------------------------------------------------------------------
  // What the instructions do
  // ------------------------------------------------------------------

  // N, Z, V and C as given, the other flags kept.
  function Nzvc(cc: Flags, n: bool, z: bool, v: bool, c: bool): Flags { cc.(n := n, z := z, v := v, c := c) }

  // A zero divisor: N and V clear, Z set, then the trap.
  function ByZero(c: Cpu, cycles: int): Cpu {
    AfterTrap(c.(r := c.r.(cc := c.r.cc.(n := false, v := false, z := true)), cycles := c.cycles + cycles), MD_D0)
  }

  function Negated(v: nat, neg: bool, m: nat): nat
    requires v < m
  {
    if neg then (if v == 0 then 0 else m - v) else v
  }

  // What is left of a two's complement number without its sign.
  function Magnitude8Of(v: u8): nat { Negated(v, v >= 0x80, 0x100) }

  function Magnitude16Of(v: u16): nat { Negated(v, v >= 0x8000, 0x1_0000) }

  function Magnitude32Of(v: u32): nat { Negated(v, v >= 0x8000_0000, 0x1_0000_0000) }

  // The sign is put back only when that turns the sign bit of the result on.
  function Quotient8(q: nat, differ: bool): u16
    requires q < 0x100
  {
    var neg := W16(Sign(true, q));
    if differ && neg / 0x80 % 2 == 1 && q / 0x80 % 2 == 0 then neg else q
  }

  function Quotient16(q: nat, differ: bool): u32
    requires q < 0x1_0000
  {
    var neg := W32(Sign(true, q));
    if differ && neg / 0x8000 % 2 == 1 && q / 0x8000 % 2 == 0 then neg else q
  }

  // From the magnitudes' quotient and remainder to registers and flags.
  function DivdTail(d: Cpu, q: nat, r: nat, nsign: bool, vsign: bool, cost: int): Cpu {
    if q >= 0x100 then d.(r := d.r.(cc := Nzvc(d.r.cc, nsign, false, true, false)), cycles := d.cycles + cost - 13)
    else
      var rem := W8(Sign(nsign, r));
      var quot := Quotient8(q, nsign != vsign);
      var b := quot % 0x100;
      if quot / 0x8000 == b / 0x80 then
        d.(r := d.r.(a := rem, b := b, cc := Nzvc(d.r.cc, b >= 0x80, b == 0, false, b % 2 == 1)),
            cycles := d.cycles + cost)
      else
        d.(r := d.r.(a := rem, b := b, cc := Nzvc(d.r.cc, true, false, true, b % 2 == 1)),
            cycles := d.cycles + cost - 1)
  }

  function DivqTail(d: Cpu, q: nat, r: nat, nsign: bool, vsign: bool, cost: int): Cpu {
    if q >= 0x1_0000 then d.(r := d.r.(cc := Nzvc(d.r.cc, nsign, false, true, false)), cycles := d.cycles + cost - 21)
    else
      var rem := W16(Sign(nsign, r));
      var quot := Quotient16(q, nsign != vsign);
      var w := quot % 0x1_0000;
      var e := d.r.SetD(rem).(w := w);
      var cc := if quot / 0x8000_0000 == w / 0x8000 then Nzvc(d.r.cc, w >= 0x8000, w == 0, false, w % 2 == 1)
                else Nzvc(d.r.cc, true, false, true, w % 2 == 1);
      d.(r := e.(cc := cc), cycles := d.cycles + cost)
  }

  function Cost(base: int, nsign: bool, vsign: bool): int { base + (if nsign then 1 else 0) + (if vsign then 1 else 0) }

  /** DIVD with the divisor fetched; `base` is the cycle count of the addressing mode. */
  function AfterDivd(c: Cpu, divisor: u8, base: nat): Cpu {
    if divisor == 0 then ByZero(c, base - 19)
    else
      var nsign, vsign := c.r.D() >= 0x8000, divisor >= 0x80;
      var dividend := Negated(c.r.D(), nsign, 0x1_0000);
      var d := if nsign then c.(r := c.r.SetD(dividend)) else c;
      var mag := Negated(divisor, vsign, 0x100);
      DivdTail(d, Quo(dividend, mag), Rem(dividend, mag), nsign, vsign, Cost(base, nsign, vsign))
  }

  /** DIVQ: Q (D and W) by a 16-bit divisor. */
  function AfterDivq(c: Cpu, divisor: u16, base: nat): Cpu {
    if divisor == 0 then ByZero(c, base - 27)
    else
      var nsign, vsign := Q(c.r) >= 0x8000_0000, divisor >= 0x8000;
      var dividend := Negated(Q(c.r), nsign, 0x1_0000_0000);
      var d := if nsign then c.(r := SetQ(c.r, dividend)) else c;
      var mag := Negated(divisor, vsign, 0x1_0000);
      DivqTail(d, Quo(dividend, mag), Rem(dividend, mag), nsign, vsign, Cost(base, nsign, vsign))
  }

  // ------------------------------------------------------------------
  // What they mean
  // ------------------------------------------------------------------

  lemma Quotient8Is(q: nat, differ: bool)
    requires q < 0x100
    ensures var quot := Quotient8(q, differ); var b := quot % 0x100;
      && (quot / 0x8000 == b / 0x80 <==> q <= 127)
      && (q <= 127 ==> Signed8(b) == Sign(differ, q))
      && (q > 127 ==> b == q)
  {
    if q == 0 { assert W16(Sign(true, q)) == 0; } else { assert W16(Sign(true, q)) == 0x1_0000 - q; }
  }

  lemma Quotient16Is(q: nat, differ: bool)
    requires q < 0x1_0000
    ensures var quot := Quotient16(q, differ); var w := quot % 0x1_0000;
      && (quot / 0x8000_0000 == w / 0x8000 <==> q <= 32767)
      && (q <= 32767 ==> Signed16(w) == Sign(differ, q))
      && (q > 32767 ==> w == q)
  {
    if q == 0 { assert W32(Sign(true, q)) == 0; } else { assert W32(Sign(true, q)) == 0x1_0000_0000 - q; }
  }

  // Signs put back on quotient and remainder of the magnitudes.
  lemma SignsBack(n: int, d: int, q: nat, r: nat)
    requires d != 0 && Abs(n) == q * Abs(d) + r && r < Abs(d)
    ensures var sq, sr := Sign((n < 0) != (d < 0), q), Sign(n < 0, r);
      sq * d + sr == n && Abs(sr) < Abs(d) && (sr != 0 ==> (sr < 0) == (n < 0))
  {
    Products(q, d);
  }

  lemma Products(q: int, d: int)
    ensures (0 - q) * d == 0 - q * d && q * (0 - d) == 0 - q * d
  {
  }

  lemma {:induction false} DivMod(a: nat, b: nat)
    requires b > 0
    ensures a == Quo(a, b) * b + Rem(a, b) && Rem(a, b) < b
    decreases a
  {
    if a >= b {
      DivMod(a - b, b);
      assert (1 + Quo(a - b, b)) * b == b + Quo(a - b, b) * b;
    }
  }

  lemma Remainder8(r: nat, neg: bool)
    requires r < 0x80
    ensures Signed8(W8(Sign(neg, r))) == Sign(neg, r)
  {
    if neg && r > 0 { assert W8(Sign(true, r)) == 0x100 - r; }
  }

  lemma Remainder16(r: nat, neg: bool)
    requires r < 0x8000
    ensures Signed16(W16(Sign(neg, r))) == Sign(neg, r)
  {
    if neg && r > 0 { assert W16(Sign(true, r)) == 0x1_0000 - r; }
  }

  lemma Magnitude8(v: u8)
    ensures Negated(v, v >= 0x80, 0x100) == Abs(Signed8(v)) <= 0x80
    ensures v != 0 ==> Abs(Signed8(v)) > 0
  {
  }

  lemma Magnitude16(v: u16)
    ensures Negated(v, v >= 0x8000, 0x1_0000) == Abs(Signed16(v)) <= 0x8000
    ensures v != 0 ==> Abs(Signed16(v)) > 0
  {
  }

  lemma Magnitude32(v: u32)
    ensures Negated(v, v >= 0x8000_0000, 0x1_0000_0000) == Abs(Signed32(v)) <= 0x8000_0000
  {
  }

  lemma SetDBack(r: Regs, v: u16)
    ensures r.SetD(v).D() == v
  {
    PairOf(v);
  }

  /** DIVD by a nonzero divisor `d` of the signed dividend `n`. V is clear exactly when the quotient's
      magnitude is at most 127 (so -128 counts as overflow). Then B times the divisor plus A is the
      dividend, A is smaller than the divisor and has the dividend's sign, and N, Z and C describe B. A
      quotient of 256 or more leaves the dividend's magnitude in D; in between, the quotient's
      magnitude is in B. */
  ghost predicate DivdOk(n: int, d: int, before: Regs, r: Regs) {
    && Abs(d) > 0
    && (!r.cc.v <==> Quo(Abs(n), Abs(d)) <= 127)
    && (!r.cc.v ==> Exact(n, d, Signed8(r.b), Signed8(r.a)))
    && (!r.cc.v ==> r.cc.n == (Signed8(r.b) < 0) && r.cc.z == (r.b == 0) && r.cc.c == (r.b % 2 == 1))
    && (Quo(Abs(n), Abs(d)) >= 256 ==>
          Abs(n) < 0x1_0000 && r == before.SetD(Abs(n)).(cc := Nzvc(before.cc, n < 0, false, true, false)))
    && (127 < Quo(Abs(n), Abs(d)) <= 255 ==>
          r.cc.n && r.b == Quo(Abs(n), Abs(d)) && Abs(Signed8(r.a)) == Rem(Abs(n), Abs(d)))
  }

  /** The law of division, truncating toward zero. */
  ghost predicate Exact(n: int, d: int, q: int, r: int) {
    q * d + r == n && Abs(r) < Abs(d) && (r != 0 ==> (r < 0) == (n < 0))
  }

  lemma DivdMeaning(c: Cpu, divisor: u8, base: nat)
    requires divisor != 0
    ensures DivdOk(Signed16(c.r.D()), Signed8(divisor), c.r, AfterDivd(c, divisor, base).r)
  {
    hide Negated, Quotient8, Signed8, Signed16, Abs, W8, Sign, AfterDivd, Quo, Rem, Exact;
    var n, d := Signed16(c.r.D()), Signed8(divisor);
    Signs8(divisor);
    Signs16(c.r.D());
    Magnitude16(c.r.D());
    Magnitude8(divisor);
    if Quo(Abs(n), Abs(d)) < 0x100 {
      DivdSmall(c, divisor, base);
      DivdSmallOk(n, d, c.r, AfterDivd(c, divisor, base).r);
    } else {
      DivdLarge(c, divisor, base);
    }
  }

  lemma DivdSmallOk(n: int, d: int, before: Regs, r: Regs)
    requires 0 < Abs(d) <= 0x80 && Quo(Abs(n), Abs(d)) < 0x100
    requires r.a == W8(Sign(n < 0, Rem(Abs(n), Abs(d))))
    requires var quot := Quotient8(Quo(Abs(n), Abs(d)), (n < 0) != (d < 0)); var b := quot % 0x100;
      r.b == b && r.cc == if quot / 0x8000 == b / 0x80 then Nzvc(before.cc, b >= 0x80, b == 0, false, b % 2 == 1)
                          else Nzvc(before.cc, true, false, true, b % 2 == 1)
    ensures DivdOk(n, d, before, r)
  {
    hide Quotient8, Signed8, Abs, W8, Sign, Quo, Rem, Exact;
    var q, m := Quo(Abs(n), Abs(d)), Rem(Abs(n), Abs(d));
    DivMod(Abs(n), Abs(d));
    Quotient8Is(q, (n < 0) != (d < 0));
    Remainder8(m, n < 0);
    DivisionLaw(n, d);
    AbsOf(m, n < 0);
    Signs8(r.b);
  }

  lemma DivisionLaw(n: int, d: int)
    requires Abs(d) > 0
    ensures Exact(n, d, Sign((n < 0) != (d < 0), Quo(Abs(n), Abs(d))), Sign(n < 0, Rem(Abs(n), Abs(d))))
  {
    hide Quo, Rem;
    DivMod(Abs(n), Abs(d));
    SignsBack(n, d, Quo(Abs(n), Abs(d)), Rem(Abs(n), Abs(d)));
  }

  lemma Signs8(v: u8)
    ensures Signed8(v) < 0 <==> v >= 0x80
  {
  }

  lemma Signs16(v: u16)
    ensures Signed16(v) < 0 <==> v >= 0x8000
  {
  }

  lemma Signs32(v: u32)
    ensures Signed32(v) < 0 <==> v >= 0x8000_0000
  {
  }

  lemma AbsOf(r: nat, neg: bool)
    ensures Abs(Sign(neg, r)) == r
  {
  }

  // The result when the quotient's magnitude fits a byte.
  lemma DivdSmall(c: Cpu, divisor: u8, base: nat)
    requires divisor != 0
    requires var n, d := Magnitude16Of(c.r.D()), Magnitude8Of(divisor); d > 0 && Quo(n, d) < 0x100
    ensures var n, d := Magnitude16Of(c.r.D()), Magnitude8Of(divisor);
      var quot := Quotient8(Quo(n, d), (c.r.D() >= 0x8000) != (divisor >= 0x80)); var b := quot % 0x100;
      var r := AfterDivd(c, divisor, base).r;
      && r.a == W8(Sign(c.r.D() >= 0x8000, Rem(n, d))) && r.b == b
      && r.cc == if quot / 0x8000 == b / 0x80 then Nzvc(c.r.cc, b >= 0x80, b == 0, false, b % 2 == 1)
                 else Nzvc(c.r.cc, true, false, true, b % 2 == 1)
  {
    hide Quotient8, W8, Negated, Sign, Quo, Rem;
  }

  lemma DivdLarge(c: Cpu, divisor: u8, base: nat)
    requires divisor != 0
    requires var n, d := Magnitude16Of(c.r.D()), Magnitude8Of(divisor); d > 0 && Quo(n, d) >= 0x100
    ensures var n := Magnitude16Of(c.r.D());
      n < 0x1_0000 && AfterDivd(c, divisor, base).r ==
        c.r.SetD(n).(cc := Nzvc(c.r.cc, c.r.D() >= 0x8000, false, true, false))
  {
    hide Quo, Rem;
    HalvesOf(c.r.a, c.r.b);
  }

  /** The same for DIVQ: quotient in W, remainder in D, limits 32767 and 65536. */
  ghost predicate DivqOk(n: int, d: int, before: Regs, r: Regs) {
    && Abs(d) > 0
    && (!r.cc.v <==> Quo(Abs(n), Abs(d)) <= 32767)
    && (!r.cc.v ==> Exact(n, d, Signed16(r.w), Signed16(r.D())))
    && (!r.cc.v ==> r.cc.n == (Signed16(r.w) < 0) && r.cc.z == (r.w == 0) && r.cc.c == (r.w % 2 == 1))
    && (Quo(Abs(n), Abs(d)) >= 0x1_0000 ==>
          Abs(n) < 0x1_0000_0000 && r == SetQ(before, Abs(n)).(cc := Nzvc(before.cc, n < 0, false, true, false)))
    && (32767 < Quo(Abs(n), Abs(d)) <= 0xFFFF ==>
          r.cc.n && r.w == Quo(Abs(n), Abs(d)) && Abs(Signed16(r.D())) == Rem(Abs(n), Abs(d)))
  }

  lemma DivqMeaning(c: Cpu, divisor: u16, base: nat)
    requires divisor != 0
    ensures DivqOk(Signed32(Q(c.r)), Signed16(divisor), c.r, AfterDivq(c, divisor, base).r)
  {
    hide Negated, Quotient16, Signed16, Signed32, Abs, W16, Sign, AfterDivq, Quo, Rem, Exact, Q, SetQ;
    var n, d := Signed32(Q(c.r)), Signed16(divisor);
    Signs16(divisor);
    Signs32(Q(c.r));
    Magnitude32(Q(c.r));
    Magnitude16(divisor);
    if Quo(Abs(n), Abs(d)) < 0x1_0000 {
      DivqSmall(c, divisor, base);
      DivqSmallOk(n, d, c.r, AfterDivq(c, divisor, base).r);
    } else {
      DivqLarge(c, divisor, base);
    }
  }

  lemma DivqSmallOk(n: int, d: int, before: Regs, r: Regs)
    requires 0 < Abs(d) <= 0x8000 && Quo(Abs(n), Abs(d)) < 0x1_0000
    requires r.D() == W16(Sign(n < 0, Rem(Abs(n), Abs(d))))
    requires var quot := Quotient16(Quo(Abs(n), Abs(d)), (n < 0) != (d < 0)); var w := quot % 0x1_0000;
      r.w == w && r.cc ==
              if quot / 0x8000_0000 == w / 0x8000 then Nzvc(before.cc, w >= 0x8000, w == 0, false, w % 2 == 1)
                          else Nzvc(before.cc, true, false, true, w % 2 == 1)
    ensures DivqOk(n, d, before, r)
  {
    hide Quotient16, Signed16, Abs, W16, Sign, Quo, Rem, Exact, SetQ;
    var q, m := Quo(Abs(n), Abs(d)), Rem(Abs(n), Abs(d));
    DivMod(Abs(n), Abs(d));
    Quotient16Is(q, (n < 0) != (d < 0));
    Remainder16(m, n < 0);
    DivisionLaw(n, d);
    AbsOf(m, n < 0);
    Signs16(r.w);
  }

  lemma DivqSmall(c: Cpu, divisor: u16, base: nat)
    requires divisor != 0
    requires var n, d := Magnitude32Of(Q(c.r)), Magnitude16Of(divisor);
      d > 0 && Quo(n, d) < 0x1_0000
    ensures var n, d := Magnitude32Of(Q(c.r)), Magnitude16Of(divisor);
      var quot := Quotient16(Quo(n, d), (Q(c.r) >= 0x8000_0000) != (divisor >= 0x8000)); var w := quot % 0x1_0000;
      var r := AfterDivq(c, divisor, base).r;
      && r.D() == W16(Sign(Q(c.r) >= 0x8000_0000, Rem(n, d))) && r.w == w
      && r.cc == if quot / 0x8000_0000 == w / 0x8000 then Nzvc(c.r.cc, w >= 0x8000, w == 0, false, w % 2 == 1)
                 else Nzvc(c.r.cc, true, false, true, w % 2 == 1)
  {
    hide Quotient16, W16, Negated, Sign, Quo, Rem, Q;
    var n, d := Magnitude32Of(Q(c.r)), Magnitude16Of(divisor);
    NegatedBelow(Q(c.r), Q(c.r) >= 0x8000_0000, 0x1_0000_0000);
    SetDBack(c.r, W16(Sign(Q(c.r) >= 0x8000_0000, Rem(n, d))));
    SetDBack(SetQ(c.r, n), W16(Sign(Q(c.r) >= 0x8000_0000, Rem(n, d))));
  }

  lemma DivqLarge(c: Cpu, divisor: u16, base: nat)
    requires divisor != 0
    requires var n, d := Magnitude32Of(Q(c.r)), Magnitude16Of(divisor);
      d > 0 && Quo(n, d) >= 0x1_0000
    ensures var n := Magnitude32Of(Q(c.r));
      n < 0x1_0000_0000 && AfterDivq(c, divisor, base).r ==
        SetQ(c.r, n).(cc := Nzvc(c.r.cc, Q(c.r) >= 0x8000_0000, false, true, false))
  {
    hide Negated, Quo, Rem;
    NegatedBelow(Q(c.r), Q(c.r) >= 0x8000_0000, 0x1_0000_0000);
    SetQBack(c.r);
  }

  lemma NegatedBelow(v: nat, neg: bool, m: nat)
    requires v < m
    ensures Negated(v, neg, m) < m && Negated(v, false, m) == v
  {
  }

  lemma SetQBack(r: Regs)
    ensures SetQ(r, Q(r)) == r
  {
    HalvesOf(r.a, r.b);
  }

  /** Division by zero: the trap, with MD.D0 set and the operands as they were. */
  lemma DivideByZeroTraps(c: Cpu, base: nat)
    ensures var t := AfterDivd(c, 0, base);
      && t.r.md >= 0x80 && t.r.pc == Read16(t.mem, VEC_TRAP) && t.r.D() == c.r.D() && t.r.w == c.r.w
      && t.r.cc.z && !t.r.cc.n && !t.r.cc.v && t.r.cc.i && t.r.cc.f
    ensures AfterDivq(c, 0, base).r == AfterDivd(c, 0, base).r && AfterDivq(c, 0, base).mem == AfterDivd(c, 0, base).mem
  {
    hide PushBytes, Whole;
  }

  // ------------------------------------------------------------------
  // The code
  // ------------------------------------------------------------------

  // `0 - v` at the three widths is the negation on magnitudes.
  lemma NegatedIs(v: nat)
    ensures v < 0x100 ==> W8(Sign(true, v)) == Negated(v, true, 0x100) && Negated(v, false, 0x100) == v
    ensures v < 0x1_0000 ==> W16(Sign(true, v)) == Negated(v, true, 0x1_0000) && Negated(v, false, 0x1_0000) == v
    ensures v < 0x1_0000_0000 ==>
              W32(Sign(true, v)) == Negated(v, true, 0x1_0000_0000) && Negated(v, false, 0x1_0000_0000) == v
    ensures v > 0 && v < 0x100 ==> Negated(v, true, 0x100) > 0
    ensures v > 0 && v < 0x1_0000 ==> Negated(v, true, 0x1_0000) > 0
  {
  }

  method StoreDivd(core: Core, quotient: nat, remainder: nat, nsign: bool, vsign: bool, base: int)
    requires core.Valid()
    modifies core`r, core`cycles
    ensures core.State() == DivdTail(old(core.State()), quotient, remainder, nsign, vsign, base)
  {
    hide Quotient8, Sign, W8, Nzvc;
    if quotient >= 0x100 {
      core.r := core.r.(cc := Nzvc(core.r.cc, nsign, false, true, false));
      core.cycles := core.cycles + base - 13;
      return;
    }
    var a := W8(Sign(nsign, remainder));
    var quot := Quotient8(quotient, nsign != vsign);
    var b := quot % 0x100;
    var fits := quot / 0x8000 == b / 0x80;
    if fits {
      core.r := core.r.(a := a, b := b, cc := Nzvc(core.r.cc, b >= 0x80, b == 0, false, b % 2 == 1));
      core.cycles := core.cycles + base;
    } else {
      core.r := core.r.(a := a, b := b, cc := Nzvc(core.r.cc, true, false, true, b % 2 == 1));
      core.cycles := core.cycles + base - 1;
    }
  }

  method StoreDivq(core: Core, quotient: nat, remainder: nat, nsign: bool, vsign: bool, base: int)
    requires core.Valid()
    modifies core`r, core`cycles
    ensures core.State() == DivqTail(old(core.State()), quotient, remainder, nsign, vsign, base)
  {
    hide Quotient16, Sign, W16, Nzvc;
    if quotient >= 0x1_0000 {
      core.r := core.r.(cc := Nzvc(core.r.cc, nsign, false, true, false));
      core.cycles := core.cycles + base - 21;
      return;
    }
    var rem := W16(Sign(nsign, remainder));
    var quot := Quotient16(quotient, nsign != vsign);
    var w := quot % 0x1_0000;
    var fits := quot / 0x8000_0000 == w / 0x8000;
    var cc := if fits then Nzvc(core.r.cc, w >= 0x8000, w == 0, false, w % 2 == 1)
              else Nzvc(core.r.cc, true, false, true, w % 2 == 1);
    core.r := core.r.SetD(rem).(w := w).(cc := cc);
    core.cycles := core.cycles + base;
  }

  method DivideByZero(core: Core, cycles: int)
    requires core.Valid()
    modifies core, core.mem
    ensures core.Valid() && core.State() == ByZero(old(core.State()), cycles)
  {
    hide AfterTrap;
    core.r := core.r.(cc := core.r.cc.(n := false, v := false, z := true));
    core.cycles := core.cycles + cycles;
    core.Trap(MD_D0);
  }

  // The magnitude of a word at each width, and whether it was negative: `0 - v` wraps around.
  method Split8(v: u8) returns (m: u8, neg: bool)
    ensures neg == (v >= 0x80) && m == Negated(v, neg, 0x100) && (v != 0 ==> m > 0)
  {
    hide W8, Sign, Negated;
    NegatedIs(v);
    neg := v >= 0x80;
    m := if neg then W8(Sign(true, v)) else v;
  }

  method Split16(v: u16) returns (m: u16, neg: bool)
    ensures neg == (v >= 0x8000) && m == Negated(v, neg, 0x1_0000) && (v != 0 ==> m > 0)
  {
    hide W16, Sign, Negated;
    NegatedIs(v);
    neg := v >= 0x8000;
    m := if neg then W16(Sign(true, v)) else v;
  }

  method Split32(v: u32) returns (m: u32, neg: bool)
    ensures neg == (v >= 0x8000_0000) && m == Negated(v, neg, 0x1_0000_0000)
  {
    hide W32, Sign, Negated;
    NegatedIs(v);
    neg := v >= 0x8000_0000;
    m := if neg then W32(Sign(true, v)) else v;
  }

  // The machine's own unsigned division.
  method Unsigned(a: nat, b: nat) returns (q: nat, r: nat)
    requires b > 0
    ensures q == Quo(a, b) && r == Rem(a, b)
  {
    hide Quo, Rem;
    DivMod(a, b);
    QuotientIs(a, b, Quo(a, b), Rem(a, b));
    q := a / b;
    r := a % b;
  }

  /** `h_divd` */
  method HDivd(core: Core, divisor: u8, base: nat)
    requires core.Valid()
    modifies core, core.mem
    ensures core.Valid() && core.State() == AfterDivd(old(core.State()), divisor, base)
  {
    hide ByZero, DivdTail, Quo, Rem, Negated;
    if divisor == 0 {
      DivideByZero(core, base - 19);
      return;
    }
    var dividend, nsign := Split16(core.r.D());
    if nsign { core.r := core.r.SetD(dividend); }
    var mag, vsign := Split8(divisor);
    var q, r := Unsigned(dividend, mag);
    StoreDivd(core, q, r, nsign, vsign, Cost(base, nsign, vsign));
  }

  /** `h_divq` */
  method HDivq(core: Core, divisor: u16, base: nat)
    requires core.Valid()
    modifies core, core.mem
    ensures core.Valid() && core.State() == AfterDivq(old(core.State()), divisor, base)
  {
    hide ByZero, DivqTail, Quo, Rem, Negated, Q, SetQ;
    if divisor == 0 {
      DivideByZero(core, base - 27);
      return;
    }
    var dividend, nsign := Split32(Q(core.r));
    if nsign { core.r := SetQ(core.r, dividend); }
    var mag, vsign := Split16(divisor);
    var q, r := Unsigned(dividend, mag);
    StoreDivq(core, q, r, nsign, vsign, Cost(base, nsign, vsign));
  }
}
