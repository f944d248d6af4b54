/** The video address counter of the SAM (src/core/sam6883.cpp, src/core/machine.cpp): divide-by-X and
    divide-by-Y counters make each row of video memory repeat over several scanlines. */
module SamCounter {
  import opened Words

  type Mode = v: nat | v < 8

  // Tables of the code, by mode.
  const XDIV: seq<nat> := [1, 3, 1, 2, 1, 1, 1, 1]
  const YDIV: seq<nat> := [12, 1, 3, 1, 2, 1, 1, 1]
  const ADD: seq<nat> := [16, 8, 16, 8, 16, 8, 16, 0]
  const BYTES: seq<nat> := [16, 16, 32, 16, 32, 16, 32, 32]

  /** Bytes fetched on an active line: by mode in graphics, always 32 in text. */
  function RowBytes(v: Mode, ag: bool): nat { if ag then BYTES[v] else 32 }

  // `& vdg_mod_clear`: ~30, ~14 or ~0.
  function Clear(v: Mode, a: u16): u16 {
    match v
    case 7 => a
    case 1 => a - a / 2 % 8 * 2
    case 3 => a - a / 2 % 8 * 2
    case 5 => a - a / 2 % 8 * 2
    case _ => a - a / 2 % 16 * 2
  }

  datatype Counter = Counter(addr: u16, x: nat, y: nat)

  predicate Differ(a: u16, b: u16, bit: nat)
    requires bit == 0x10 || bit == 0x20
  {
    if bit == 0x10 then a / 0x10 % 2 != b / 0x10 % 2 else a / 0x20 % 2 != b / 0x20 % 2
  }

  function Step(n: nat, div: nat): nat
    requires div > 0
  {
    (n + 1) % div
  }

  /** `vdg_address_add` */
  function Add(c: Counter, v: Mode, n: nat): Counter {
    var a := W16(c.addr + n);
    if !Differ(c.addr, a, 0x10) then c.(addr := a)
    else
      var x := Step(c.x, XDIV[v]);
      if x != 0 then c.(addr := W16(a - 0x10), x := x)
      else if !Differ(c.addr, a, 0x20) then c.(addr := a, x := x)
      else
        var y := Step(c.y, YDIV[v]);
        Counter(if y != 0 then W16(a - 0x20) else a, x, y)
  }

  /** `sam6883_vdg_fetch_bytes`: up to each 16-byte boundary, the dividers applied when it is reached. */
  function Fetch(c: Counter, v: Mode, n: nat): Counter
    decreases n
  {
    if n == 0 then c
    else
      var room := 16 - c.addr % 16;
      if n < room then c.(addr := W16(c.addr + n))
      else Fetch(Add(c, v, room), v, n - room)
  }

  // Falling edge of horizontal sync.
  function Hsync(c: Counter, v: Mode): Counter {
    var d := Add(c, v, ADD[v]);
    d.(addr := Clear(v, d.addr))
  }

  function Line(c: Counter, v: Mode, ag: bool): Counter { Hsync(Fetch(c, v, RowBytes(v, ag)), v) }

  function Lines(c: Counter, v: Mode, ag: bool, k: nat): Counter {
    if k == 0 then c else Line(Lines(c, v, ag, k - 1), v, ag)
  }

  // After field sync.
  function Top(base: u16): Counter { Counter(base, 0, 0) }

  // ------------------------------------------------------------------
  // The law
  // ------------------------------------------------------------------

  // Address step and scanlines per row.
  function RowStep(v: Mode): nat { if v == 1 || v == 3 || v == 5 then 16 else 32 }

  function Repeat(v: Mode): (r: nat)
    ensures r == 1 || r == 2 || r == 3 || r == 12
  {
    match v
    case 0 => 12
    case 1 => 3
    case 2 => 3
    case 3 => 2
    case 4 => 2
    case _ => 1
  }

  function Row(v: Mode, k: nat): nat { RowStep(v) * (k / Repeat(v)) }

  /** Text fetches 32 bytes a line; that suits the modes whose row is 32 bytes. */
  predicate Suits(v: Mode, ag: bool) { ag || !(v == 1 || v == 3 || v == 5) }

  lemma RowNext(v: Mode, k: nat)
    ensures Row(v, k + 1) == Row(v, k) + if (k + 1) % Repeat(v) == 0 then RowStep(v) else 0
    ensures (k + 1) % Repeat(v) == Step(k % Repeat(v), Repeat(v))
  {
    hide Repeat, RowStep;
    CountNext(k, Repeat(v));
  }

  lemma CountNext(k: nat, r: nat)
    requires r == 1 || r == 2 || r == 3 || r == 12
    ensures (k + 1) / r == k / r + if (k + 1) % r == 0 then 1 else 0
    ensures (k + 1) % r == Step(k % r, r)
  {
    if r == 1 {
      assert (k + 1) / 1 == k / 1 + 1;
    } else if r == 2 {
      CountNext2(k);
    } else if r == 3 {
      CountNext3(k);
    } else {
      CountNext12(k);
    }
  }

  lemma CountNext2(k: nat)
    ensures (k + 1) / 2 == k / 2 + (if (k + 1) % 2 == 0 then 1 else 0) && (k + 1) % 2 == (k % 2 + 1) % 2
  {
  }

  lemma CountNext3(k: nat)
    ensures (k + 1) / 3 == k / 3 + (if (k + 1) % 3 == 0 then 1 else 0) && (k + 1) % 3 == (k % 3 + 1) % 3
  {
  }

  lemma CountNext12(k: nat)
    ensures (k + 1) / 12 == k / 12 + (if (k + 1) % 12 == 0 then 1 else 0) && (k + 1) % 12 == (k % 12 + 1) % 12
  {
  }

  // The next 16-byte boundary from an even and from an odd one.
  lemma FromEven(a: u16)
    requires a % 32 == 0
    ensures W16(a + 16) == a + 16 && (a + 16) % 32 == 16
    ensures Differ(a, a + 16, 0x10) && !Differ(a, a + 16, 0x20)
  {
    var m := a / 32;
    assert a == 32 * m;
  }

  lemma FromOdd(a: u16)
    requires a % 32 == 16
    ensures W16(a + 16) % 32 == 0 && Differ(a, W16(a + 16), 0x10) && Differ(a, W16(a + 16), 0x20)
    ensures W16(W16(a + 16) - 32) == a - 16
  {
    var m := a / 32;
    assert a == 32 * m + 16;
    if m == 2047 { assert W16(a + 16) == 0; } else { assert W16(a + 16) == 32 * (m + 1); }
  }

  lemma BackOne(a: u16)
    ensures W16(W16(a + 16) - 16) == a
  {
  }

  // Half a row more, cleared again by the mask.
  lemma HsyncStays(c: Counter, v: Mode)
    requires if RowStep(v) == 32 then c.addr % 32 == 0 else c.addr % 16 == 0
    requires c.x == 0 || XDIV[v] != 1
    ensures Hsync(c, v) == c
  {
    if v == 7 {
      assert W16(c.addr + 0) == c.addr;
    } else if RowStep(v) == 32 {
      FromEven(c.addr);
      EvenCleared(c.addr);
    } else {
      HalfUp(c.addr);
    }
  }

  lemma EvenCleared(a: u16)
    requires a % 32 == 0
    ensures (a + 16) - (a + 16) / 2 % 16 * 2 == a
  {
    assert a == 32 * (a / 32);
  }

  lemma HalfUp(a: u16)
    requires a % 16 == 0
    ensures W16(a + 8) == a + 8 && !Differ(a, a + 8, 0x10) && (a + 8) - (a + 8) / 2 % 8 * 2 == a
  {
    assert a == 16 * (a / 16);
  }

  lemma FetchBoundary(c: Counter, v: Mode, n: nat)
    requires c.addr % 16 == 0 && n >= 16
    ensures Fetch(c, v, n) == Fetch(Add(c, v, 16), v, n - 16)
  {
  }

  // A 32-byte row: the second 16-byte boundary is the one that counts rows.
  lemma WideLine(a: u16, y: nat, v: Mode)
    requires RowStep(v) == 32 && a % 32 == 0
    ensures Fetch(Counter(a, 0, y), v, 32) ==
              (var z := Step(y, Repeat(v)); Counter(if z == 0 then W16(a + 32) else a, 0, z))
  {
    hide Differ, Add, Fetch, W16;
    FetchBoundary(Counter(a, 0, y), v, 32);
    WideFirst(a, y, v);
    FromEven(a);
    FetchBoundary(Counter(a + 16, 0, y), v, 16);
    WideSecond(a + 16, y, v);
    FetchNone(Add(Counter(a + 16, 0, y), v, 16), v);
  }

  lemma FetchNone(c: Counter, v: Mode)
    ensures Fetch(c, v, 0) == c
  {
  }

  lemma WideFirst(a: u16, y: nat, v: Mode)
    requires RowStep(v) == 32 && a % 32 == 0
    ensures a + 16 < 0x1_0000 && Add(Counter(a, 0, y), v, 16) == Counter(a + 16, 0, y)
  {
    hide Differ, W16;
    FromEven(a);
  }

  lemma WideSecond(a: u16, y: nat, v: Mode)
    requires RowStep(v) == 32 && a % 32 == 16
    ensures Add(Counter(a, 0, y), v, 16) ==
              (var z := Step(y, Repeat(v)); Counter(if z == 0 then W16(a + 16) else a - 16, 0, z))
  {
    hide Differ, W16;
    FromOdd(a);
  }

  // A 16-byte row: the divide-by-X counter counts rows.
  lemma NarrowLine(a: u16, x: nat, v: Mode)
    requires RowStep(v) == 16 && a % 16 == 0
    ensures Fetch(Counter(a, x, 0), v, 16) ==
              (var z := Step(x, Repeat(v)); Counter(if z == 0 then W16(a + 16) else a, z, 0))
  {
    hide Differ, Fetch, W16;
    FetchBoundary(Counter(a, x, 0), v, 16);
    FetchNone(Add(Counter(a, x, 0), v, 16), v);
    BackOne(a);
    if a % 32 == 0 { FromEven(a); } else { OddOf(a); FromOdd(a); }
  }

  lemma OddOf(a: u16)
    requires a % 16 == 0 && a % 32 != 0
    ensures a % 32 == 16
  {
  }

  /** State after `k` lines: the row address, and the counter of the row's repeats. */
  function Lawful(v: Mode, base: u16, k: nat): Counter {
    var a := W16(base + Row(v, k));
    if RowStep(v) == 32 then Counter(a, 0, k % Repeat(v)) else Counter(a, k % Repeat(v), 0)
  }

  lemma RowMultiple(v: Mode, base: u16, k: nat)
    requires base % 512 == 0
    ensures W16(base + Row(v, k)) % RowStep(v) == 0
  {
    var m := k / Repeat(v);
    if RowStep(v) == 32 { Multiple32(base, m); } else { Multiple16(base, m); }
  }

  lemma Multiple32(base: u16, m: nat)
    requires base % 512 == 0
    ensures W16(base + 32 * m) % 32 == 0
  {
    var t := base + 32 * m;
    var q := t / 0x1_0000;
    assert base == 512 * (base / 512);
    assert W16(t) == 32 * (16 * (base / 512) + m - 2048 * q);
  }

  lemma Multiple16(base: u16, m: nat)
    requires base % 512 == 0
    ensures W16(base + 16 * m) % 16 == 0
  {
    var t := base + 16 * m;
    var q := t / 0x1_0000;
    assert base == 512 * (base / 512);
    assert W16(t) == 16 * (32 * (base / 512) + m - 4096 * q);
  }

  lemma AddMore(base: u16, r: nat, s: nat)
    ensures W16(W16(base + r) + s) == W16(base + (r + s))
  {
  }

  // Boundaries of a row that one line's fetch passes: a text line passes two of a 16-byte row.
  function Ticks(v: Mode, ag: bool): nat { if Suits(v, ag) then 1 else 2 }

  lemma OneLineWide(v: Mode, ag: bool, base: u16, j: nat)
    requires base % 512 == 0 && RowStep(v) == 32
    ensures Line(Lawful(v, base, j), v, ag) == Lawful(v, base, j + 1)
  {
    hide Fetch, Hsync, Row, W16, Step;
    var a, y := W16(base + Row(v, j)), j % Repeat(v);
    RowMultiple(v, base, j);
    RowMultiple(v, base, j + 1);
    RowNext(v, j);
    AddMore(base, Row(v, j), RowStep(v));
    if RowBytes(v, ag) == 32 {
      WideLine(a, y, v);
      HsyncStays(Lawful(v, base, j + 1), v);
    } else {
      ShortLine(a, y, v);
    }
  }

  // Mode 0 in graphics fetches 16 bytes; horizontal sync then passes the second boundary.
  lemma ShortLine(a: u16, y: nat, v: Mode)
    requires v == 0 && a % 32 == 0
    ensures Hsync(Fetch(Counter(a, 0, y), v, 16), v) ==
              (var z := Step(y, Repeat(v)); Counter(if z == 0 then W16(a + 32) else a, 0, z))
  {
    hide Differ, Add, Fetch, W16, Step;
    FetchBoundary(Counter(a, 0, y), v, 16);
    WideFirst(a, y, v);
    FromEven(a);
    FetchNone(Counter(a + 16, 0, y), v);
    WideSecond(a + 16, y, v);
    FromOdd(a + 16);
    AddMore(a, 16, 16);
    ShortCleared(a);
    ShortCleared(W16(a + 32));
  }

  lemma ShortCleared(a: u16)
    ensures a % 32 == 0 ==> Clear(0, a) == a
    ensures W16(a + 0) == a
  {
  }

  lemma OneTickNarrow(v: Mode, base: u16, j: nat)
    requires base % 512 == 0 && RowStep(v) == 16
    ensures Fetch(Lawful(v, base, j), v, 16) == Lawful(v, base, j + 1)
  {
    hide Fetch, Row, W16, Step;
    RowMultiple(v, base, j);
    RowNext(v, j);
    AddMore(base, Row(v, j), RowStep(v));
    NarrowLine(W16(base + Row(v, j)), j % Repeat(v), v);
  }

  // Two 16-byte stretches, one after the other.
  lemma FetchTwice(c: Counter, v: Mode)
    requires c.addr % 16 == 0
    ensures Fetch(c, v, 32) == Fetch(Fetch(c, v, 16), v, 16)
  {
    hide Add;
    FetchBoundary(c, v, 32);
    FetchBoundary(c, v, 16);
    FetchNone(Add(c, v, 16), v);
  }

  lemma OneLine(v: Mode, ag: bool, base: u16, j: nat)
    requires base % 512 == 0
    ensures Line(Lawful(v, base, j), v, ag) == Lawful(v, base, j + Ticks(v, ag))
  {
    hide Fetch, Hsync, Row, W16;
    if RowStep(v) == 32 {
      OneLineWide(v, ag, base, j);
    } else {
      RowMultiple(v, base, j);
      RowMultiple(v, base, j + Ticks(v, ag));
      OneTickNarrow(v, base, j);
      if !ag {
        FetchTwice(Lawful(v, base, j), v);
        OneTickNarrow(v, base, j + 1);
      }
      NarrowX(v, base, j + Ticks(v, ag));
      HsyncStays(Lawful(v, base, j + Ticks(v, ag)), v);
    }
  }

  lemma NarrowX(v: Mode, base: u16, j: nat)
    requires RowStep(v) == 16
    ensures Lawful(v, base, j).x == 0 || XDIV[v] != 1
  {
    hide Row, W16;
  }

  lemma {:induction false} LinesLawful(v: Mode, ag: bool, base: u16, k: nat)
    requires base % 512 == 0
    ensures Lines(Top(base), v, ag, k) == Lawful(v, base, Ticks(v, ag) * k)
    decreases k
  {
    hide Line, Ticks;
    if k == 0 {
      RowZero(v, base);
      assert Ticks(v, ag) * 0 == 0;
    } else {
      LinesLawful(v, ag, base, k - 1);
      OneLine(v, ag, base, Ticks(v, ag) * (k - 1));
      assert Ticks(v, ag) * k == Ticks(v, ag) * (k - 1) + Ticks(v, ag);
    }
  }

  lemma RowZero(v: Mode, base: u16)
    ensures Lawful(v, base, 0) == Top(base)
  {
  }

  /** With mode and base constant since field sync, after `k` active lines the row address is the base
      plus the row step (32, 16, 32, 16, 32, 16, 32, 32) for every `Repeat` (12, 3, 3, 2, 2, 1, 1, 1)
      lines; when text is shown in a mode with 16-byte rows the rows pass twice as fast. */
  lemma RowAddress(v: Mode, ag: bool, base: u16, k: nat)
    requires base % 512 == 0
    ensures Lines(Top(base), v, ag, k).addr == W16(base + RowStep(v) * (Ticks(v, ag) * k / Repeat(v)))
  {
    hide Lines;
    LinesLawful(v, ag, base, k);
  }

  /** In numbers, for graphics: 32 bytes a row in modes 0, 2, 4, 6 and 7 and 16 in modes 1, 3 and 5, each row shown 12,
      3, 3, 2, 2, 1, 1 and 1 times in modes 0 to 7. */
  lemma GraphicsRows(v: Mode, base: u16, k: nat)
    requires base % 512 == 0
    ensures Lines(Top(base), v, true, k).addr ==
            W16(base + [32, 16, 32, 16, 32, 16, 32, 32][v] * (k / [12, 3, 3, 2, 2, 1, 1, 1][v]))
  {
    hide Lines, W16;
    RowAddress(v, true, base, k);
    assert Repeat(v) == [12, 3, 3, 2, 2, 1, 1, 1][v] && RowStep(v) == [32, 16, 32, 16, 32, 16, 32, 32][v];
    assert Ticks(v, true) * k == k;
  }

  /** So the plain law, one row per `Repeat` lines, holds exactly when the fetch suits the mode. */
  lemma PlainLawIff(v: Mode, ag: bool, base: u16)
    requires base % 512 == 0
    ensures (forall k: nat :: Lines(Top(base), v, ag, k).addr == PlainRow(v, base, k)) <==> Suits(v, ag)
  {
    hide Lines, Repeat, RowStep;
    forall k: nat | Suits(v, ag)
      ensures Lines(Top(base), v, ag, k).addr == PlainRow(v, base, k)
    {
      RowAddress(v, ag, base, k);
    }
    if !Suits(v, ag) {
      RowAddress(v, ag, base, 2);
      TextRuns(v, base);
    }
  }

  function PlainRow(v: Mode, base: u16, k: nat): u16 { W16(base + RowStep(v) * (k / Repeat(v))) }

  lemma TextRuns(v: Mode, base: u16)
    requires !Suits(v, false) && base % 512 == 0
    ensures W16(base + RowStep(v) * (2 * 2 / Repeat(v))) != PlainRow(v, base, 2)
  {
  }

  // ------------------------------------------------------------------
  // The code
  // ------------------------------------------------------------------

  class Sam {
    var mode: Mode
    var base: u16
    var address: u16
    var xcount: nat
    var ycount: nat

    ghost function State(): Counter
      reads this
    {
      Counter(address, xcount, ycount)
    }

    method Fsync(level: bool)
      modifies this`address, this`xcount, this`ycount
      ensures State() == if level then Top(base) else old(State())
    {
      if !level { return; }
      address, xcount, ycount := base, 0, 0;
    }

    method AddressAdd(n: nat)
      modifies this`address, this`xcount, this`ycount
      ensures State() == Add(old(State()), mode, n)
    {
      hide Differ, W16;
      var a: int := W16(address + n);
      if Differ(address, a, 0x10) {
        xcount := Step(xcount, XDIV[mode]);
        if xcount != 0 {
          a := W16(a - 0x10);
        } else if Differ(address, a, 0x20) {
          ycount := Step(ycount, YDIV[mode]);
          if ycount != 0 { a := W16(a - 0x20); }
        }
      }
      address := a;
    }

    method FetchBytes(n: nat)
      modifies this`address, this`xcount, this`ycount
      ensures State() == Fetch(old(State()), mode, n)
    {
      var left := n;
      while left > 0
        invariant 0 <= left && Fetch(State(), mode, left) == Fetch(old(State()), mode, n)
      {
        hide Add, W16;
        var room := 16 - address % 16;
        var chunk := if room > left then left else room;
        if chunk < room {
          address := W16(address + chunk);
        } else {
          AddressAdd(chunk);
        }
        left := left - chunk;
      }
    }

    method HsyncEdge(level: bool)
      modifies this`address, this`xcount, this`ycount
      ensures State() == if level then old(State()) else Hsync(old(State()), mode)
    {
      if level { return; }
      hide Add, Clear;
      AddressAdd(ADD[mode]);
      address := Clear(mode, address);
    }

    /** The active part of one scanline; `row` is the address the row is drawn from. */
    method ActiveLine(ag: bool) returns (row: u16)
      modifies this`address, this`xcount, this`ycount
      ensures row == old(address) && State() == Line(old(State()), mode, ag)
    {
      hide Fetch, Hsync;
      row := address;
      FetchBytes(RowBytes(mode, ag));
      HsyncEdge(false);
    }
  }
}
