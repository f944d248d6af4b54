/** From GIME lines to framebuffer rows (src/hal/hal_video.cpp): which row a line goes to, and how its
    pixels are stored, two halves of every 32-bit word swapped. */
module LineMap {
  import opened Arithmetic
  import opened Words

  // ------------------------------------------------------------------
  // Rows
  // ------------------------------------------------------------------

  /** `gime_display_y`: the row of a line, or -1 to drop it. */
  function DisplayY(line: int, total0: int, rows: int): int
    requires rows >= 1
  {
    var total := if total0 <= 0 then rows else total0;
    if line < 0 then -1
    else if total <= rows then
      var y := line + (rows - total) / 2;
      if y < rows then y else -1
    else
      var excess := total - rows;
      var period := total / excess;
      Tall(line, excess, period, rows)
  }

  function Tall(line: nat, excess: nat, period: int, rows: int): int {
    if period < 1 then -1
    else
      var dropped := (line + 1) / period;
      if dropped <= excess && (line + 1) % period == 0 then -1
      else
        var y := line - (if dropped > excess then excess else dropped);
        if y < rows then y else -1
  }

  // Lines kept among the first `n`.
  function Kept(n: nat, total: int, rows: int): nat
    requires rows >= 1
  {
    if n == 0 then 0 else Kept(n - 1, total, rows) + if DisplayY(n - 1, total, rows) >= 0 then 1 else 0
  }

  lemma NextQuotient(l: nat, p: int)
    requires p > 0
    ensures (l + 1) / p == l / p + if (l + 1) % p == 0 then 1 else 0
    ensures 0 <= l / p <= l
  {
    var q, r := l / p, l % p;
    assert l == p * q + r;
    NonNegative(l, p);
    if r + 1 < p {
      QuotientIs(l + 1, p, q, r + 1);
    } else {
      assert p * (q + 1) == p * q + p;
      QuotientIs(l + 1, p, q + 1, 0);
    }
  }

  lemma NonNegative(l: nat, p: int)
    requires p > 0
    ensures 0 <= l / p <= l
  {
    var q := l / p;
    assert l == p * q + l % p;
    if q < 0 { StepUp(p, q, 0); }
    if q > l { StepUp(p, l, q); Larger(p, l); }
  }

  lemma Larger(p: int, l: nat)
    requires p > 0
    ensures p * l >= l
  {
  }

  lemma PeriodFits(total: int, excess: int)
    requires 0 < excess < total
    ensures total / excess >= 1 && total / (total / excess) >= excess
  {
    var p := total / excess;
    assert total == excess * p + total % excess;
    if p < 1 { StepUp(excess, p, 1); }
    var q := total / p;
    assert total == p * q + total % p;
    if q < excess { StepUp(p, q, excess); Swap(p, excess); }
  }

  lemma Swap(a: int, b: int)
    ensures a * b == b * a
  {
  }

  function Min(a: int, b: int): int { if a < b then a else b }

  // One line of a tall frame: dropped exactly when it completes one of the first `excess` blocks.
  lemma TallOne(line: nat, excess: nat, period: int, rows: int)
    requires period > 0
    requires ((line + 1) % period == 0 && (line + 1) / period <= excess) || line - Min(line / period, excess) < rows
    ensures var y := Tall(line, excess, period, rows);
      var before, after := line - Min(line / period, excess), line + 1 - Min((line + 1) / period, excess);
      (y == -1 && after == before) || (y == before && after == before + 1 && y >= 0)
  {
    NextQuotient(line, period);
  }

  lemma {:induction false} KeptCount(n: nat, total: int, rows: int)
    requires rows >= 1 && total > rows && n <= total
    ensures var excess := total - rows; var period := total / excess;
      period > 0 && Kept(n, total, rows) == n - Min(n / period, excess)
    decreases n
  {
    var excess := total - rows;
    var period := total / excess;
    PeriodFits(total, excess);
    if n > 0 {
      KeptCount(n - 1, total, rows);
      KeptBound(n - 1, total, rows);
      TallOne(n - 1, excess, period, rows);
    } else {
      QuotientIs(0, period, 0, 0);
    }
  }

  // A line that is kept still has a row free.
  lemma KeptBound(l: nat, total: int, rows: int)
    requires rows >= 1 && l < total && total > rows
    ensures var excess := total - rows; var period := total / excess;
      period > 0 && (((l + 1) % period == 0 && (l + 1) / period <= excess) || l - Min(l / period, excess) < rows)
  {
    var excess := total - rows;
    var period := total / excess;
    PeriodFits(total, excess);
    NextQuotient(l, period);
    if l / period < excess && (l + 1) % period != 0 { Remaining(l, total, excess, period); }
  }

  // From `l` to the end there are at least as many lines as blocks left to complete.
  lemma Remaining(l: nat, total: int, excess: int, period: int)
    requires period > 0 && 0 < excess && l < total && excess <= total / period && l / period < excess
    requires (l + 1) % period != 0
    ensures l - l / period < total - excess
  {
    NotLast(l, period);
    var q := l / period;
    assert l == period * q + l % period;
    assert total == period * (total / period) + total % period;
    Scale(period, excess, total / period);
    Ahead(period, q, excess);
  }

  lemma NotLast(l: nat, p: int)
    requires p > 0 && (l + 1) % p != 0
    ensures l % p <= p - 2
  {
    if l % p == p - 1 {
      assert p * (l / p + 1) == p * (l / p) + p;
      QuotientIs(l + 1, p, l / p + 1, 0);
    }
  }

  lemma Scale(p: int, a: int, b: int)
    requires p > 0 && a <= b
    ensures p * a <= p * b
  {
  }

  lemma Ahead(p: int, q: int, e: int)
    requires p > 0 && q < e
    ensures p * q + p - q - 1 <= p * e - e
  {
    if p > 1 { Scale(p - 1, q + 1, e); }
    Expand(p, q + 1);
    Expand(p, e);
    assert p * (q + 1) == p * q + p;
  }

  lemma Expand(p: int, x: int)
    ensures (p - 1) * x == p * x - x
  {
  }

  /** A frame taller than the viewport: a kept line goes to the row numbered by the kept lines before
      it, and exactly `total - rows` lines are dropped. So rows rise strictly and fill 0..rows-1. */
  lemma TallFrame(line: nat, total: int, rows: int)
    requires rows >= 1 && total > rows && line < total
    ensures var y := DisplayY(line, total, rows); y == -1 || y == Kept(line, total, rows) < rows
    ensures Kept(total, total, rows) == rows
  {
    var excess := total - rows;
    var period := total / excess;
    PeriodFits(total, excess);
    KeptCount(line, total, rows);
    KeptCount(total, total, rows);
    KeptBound(line, total, rows);
    TallOne(line, excess, period, rows);
  }

  lemma {:induction false} KeptGrows(a: nat, b: nat, total: int, rows: int)
    requires rows >= 1 && a <= b
    ensures Kept(a, total, rows) <= Kept(b, total, rows)
    decreases b - a
  {
    if a < b { KeptGrows(a, b - 1, total, rows); }
  }

  /** Strictly increasing over the kept lines. */
  lemma RowsRise(a: nat, b: nat, total: int, rows: int)
    requires rows >= 1 && total > rows && a < b < total
    requires DisplayY(a, total, rows) >= 0 && DisplayY(b, total, rows) >= 0
    ensures DisplayY(a, total, rows) < DisplayY(b, total, rows)
  {
    hide DisplayY;
    TallFrame(a, total, rows);
    TallFrame(b, total, rows);
    KeptGrows(a + 1, b, total, rows);
  }

  lemma {:induction false} FindKept(y: nat, n: nat, total: int, rows: int) returns (line: nat)
    requires rows >= 1 && y < Kept(n, total, rows)
    ensures line < n && Kept(line, total, rows) == y && DisplayY(line, total, rows) >= 0
    decreases n
  {
    hide DisplayY;
    if y < Kept(n - 1, total, rows) { line := FindKept(y, n - 1, total, rows); } else { line := n - 1; }
  }

  /** Every row is used. */
  lemma RowsFilled(y: nat, total: int, rows: int) returns (line: nat)
    requires rows >= 1 && total > rows && y < rows
    ensures line < total && DisplayY(line, total, rows) == y
  {
    hide DisplayY;
    TallFrame(0, total, rows);
    line := FindKept(y, total, total, rows);
    TallFrame(line, total, rows);
  }

  /** A frame that fits is centred: consecutive rows, margins equal or one row more at the bottom. */
  lemma ShortFrame(line: nat, total: int, rows: int)
    requires 1 <= total <= rows && line < total
    ensures var top := DisplayY(0, total, rows); var bottom := rows - 1 - DisplayY(total - 1, total, rows);
      && DisplayY(line, total, rows) == top + line && 0 <= top <= bottom <= top + 1
  {
  }

  // ------------------------------------------------------------------
  // Pixels of a row
  // ------------------------------------------------------------------

  // Where pixel `x` is stored: `x ^ 2`.
  function Stored(x: nat): nat { if x % 4 < 2 then x + 2 else x - 2 }

  /** Pixel `x` of a row of `w` shown from `raw`: as it is, doubled, between borders, or scaled down. */
  function Pixel(w: nat, raw: seq<u8>, border: u8, x: nat): u8
    requires x < w && |raw| > 0
  {
    var n := |raw|;
    if n == w then raw[x]
    else if n * 2 == w then raw[x / 2]
    else if n < w then
      var left := (w - n) / 2;
      if x < left || x >= left + n then border else raw[x - left]
    else
      ScaledInside(x, n, w);
      raw[x * n / w]
  }

  lemma ScaledInside(x: nat, n: nat, w: nat)
    requires x < w
    ensures 0 <= x * n / w < n || n == 0
  {
    if n > 0 {
      var q, r := x * n / w, x * n % w;
      assert x * n == w * q + r;
      StepUp(n, x, w);
      Swap(n, x);
      Swap(n, w);
      if q >= n { Scale(w, n, q); }
      if q < 0 { StepUp(w, q, 0); }
    }
  }

  ghost predicate RowShows(row: seq<u8>, w: nat, raw: seq<u8>, border: u8) {
    && w % 4 == 0 && |row| == w && |raw| > 0
    && forall x: nat :: x < w ==> row[Stored(x)] == Pixel(w, raw, border, x)
  }

  // A little-endian word.
  function Word(a: u8, b: u8, c: u8, d: u8): u32 { a + 0x100 * b + 0x1_0000 * c + 0x100_0000 * d }

  function ByteOf(w: u32, k: nat): u8
    requires k < 4
  {
    match k
    case 0 => w % 0x100
    case 1 => w / 0x100 % 0x100
    case 2 => w / 0x1_0000 % 0x100
    case _ => w / 0x100_0000
  }

  // `(w >> 16) | (w << 16)`
  function Rotated(w: u32): u32 { w / 0x1_0000 + w % 0x1_0000 * 0x1_0000 }

  // Two bytes of a half word, each doubled and the pairs swapped.
  function Doubled(s: nat): u32
    requires s < 0x1_0000
  {
    s / 0x100 * 0x0101 + s % 0x100 * 0x0101_0000
  }

  lemma WordBytes(a: u8, b: u8, c: u8, d: u8)
    ensures var w := Word(a, b, c, d);
      ByteOf(w, 0) == a && ByteOf(w, 1) == b && ByteOf(w, 2) == c && ByteOf(w, 3) == d
  {
    LowBytes(a, b, c + 0x100 * (d as int));
    HighBytes(a + 0x100 * (b as int), c, d);
  }

  lemma LowBytes(a: u8, b: u8, h: nat)
    ensures var w := a + 0x100 * b + 0x1_0000 * h; w % 0x100 == a && w / 0x100 % 0x100 == b
  {
    var w := a + 0x100 * b + 0x1_0000 * h;
    assert w == a + 0x100 * (b + 0x100 * h);
    assert w / 0x100 == b + 0x100 * h;
  }

  lemma HighBytes(l: nat, c: u8, d: u8)
    requires l < 0x1_0000
    ensures var w := l + 0x1_0000 * c + 0x100_0000 * d; w / 0x1_0000 % 0x100 == c && w / 0x100_0000 == d
  {
    var w := l + 0x1_0000 * c + 0x100_0000 * d;
    assert w == l + 0x1_0000 * (c + 0x100 * d);
    assert w / 0x1_0000 == c + 0x100 * d;
    assert w == (l + 0x1_0000 * c) + 0x100_0000 * d;
  }

  lemma RotatedIs(a: u8, b: u8, c: u8, d: u8)
    ensures Rotated(Word(a, b, c, d)) == Word(c, d, a, b)
  {
  }

  lemma DoubledIs(a: u8, b: u8)
    ensures Doubled(a + 0x100 * b) == Word(b, b, a, a)
  {
  }

  class Screen {
    const row: array<u8>      // the framebuffer row

    constructor (w: nat)
      ensures row.Length == w && fresh(row)
    {
      row := new u8[w];
    }

    method PutWord(i: nat, w: u32)
      requires 4 * i + 4 <= row.Length
      modifies row
      ensures forall k: nat :: k < row.Length ==> row[k] == if k / 4 == i then ByteOf(w, k % 4) else old(row[k])
    {
      row[4 * i], row[4 * i + 1], row[4 * i + 2], row[4 * i + 3] := ByteOf(w, 0), ByteOf(w, 1), ByteOf(w, 2),
          ByteOf(w, 3);
    }

    // The first `m` pixels of the row are there.
    ghost predicate Done(m: nat, raw: seq<u8>, border: u8)
      reads row
    {
      |raw| > 0 && row.Length % 4 == 0 && m <= row.Length
      && forall x: nat :: x < m ==> row[Stored(x)] == Pixel(row.Length, raw, border, x)
    }

    // Four pixels as one word.
    method PutFour(i: nat, w: u32, raw: seq<u8>, border: u8)
      requires 4 * i + 4 <= row.Length && Done(4 * i, raw, border)
      requires ByteOf(w, 2) == Pixel(row.Length, raw, border, 4 * i) &&
          ByteOf(w, 3) == Pixel(row.Length, raw, border, 4 * i + 1)
      requires ByteOf(w, 0) == Pixel(row.Length, raw, border, 4 * i + 2) &&
          ByteOf(w, 1) == Pixel(row.Length, raw, border, 4 * i + 3)
      modifies row
      ensures Done(4 * (i + 1), raw, border)
    {
      hide Pixel, ByteOf;
      PutWord(i, w);
      StoredWord(i);
    }

    // One pixel.
    method PutOne(x: nat, b: u8, raw: seq<u8>, border: u8)
      requires x < row.Length && Done(x, raw, border) && b == Pixel(row.Length, raw, border, x)
      modifies row
      ensures Done(x + 1, raw, border)
    {
      hide Pixel;
      row[Stored(x)] := b;
    }

    method CopyWords(raw: seq<u8>, border: u8)
      requires Done(0, raw, border) && |raw| == row.Length && row.Length % 4 == 0
      modifies row
      ensures Done(row.Length, raw, border)
    {
      hide Rotated, Word, Done, ByteOf;
      WholeWords(row.Length);
      for i := 0 to row.Length / 4
        invariant Done(4 * i, raw, border)
      {
        var a, b, c, d := raw[4 * i], raw[4 * i + 1], raw[4 * i + 2], raw[4 * i + 3];
        RotatedIs(a, b, c, d);
        WordBytes(c, d, a, b);
        PutFour(i, Rotated(Word(a, b, c, d)), raw, border);
      }
    }

    method DoubleWords(raw: seq<u8>, border: u8)
      requires Done(0, raw, border) && |raw| * 2 == row.Length && row.Length % 4 == 0
      modifies row
      ensures Done(row.Length, raw, border)
    {
      hide Doubled, Done, ByteOf;
      for i := 0 to |raw| / 2
        invariant Done(4 * i, raw, border)
      {
        var a: nat, b: nat := raw[2 * i], raw[2 * i + 1];
        DoubledIs(a, b);
        WordBytes(b, b, a, a);
        PutFour(i, Doubled(a + 0x100 * b), raw, border);
      }
      assert 4 * (|raw| / 2) == row.Length;
    }

    // Border words from word `from` up to `to`.
    method BorderWords(raw: seq<u8>, border: u8, from: nat, to: nat)
      requires Done(4 * from, raw, border) && from <= to && 4 * to <= row.Length
      requires forall x: nat :: 4 * from <= x < 4 * to ==> Pixel(row.Length, raw, border, x) == border
      modifies row
      ensures Done(4 * to, raw, border)
    {
      hide Done, Pixel, ByteOf;
      for i := from to to
        invariant Done(4 * i, raw, border)
      {
        WordBytes(border, border, border, border);
        PutFour(i, Word(border, border, border, border), raw, border);
      }
    }

    method BorderedWords(raw: seq<u8>, border: u8)
      requires Done(0, raw, border) && |raw| < row.Length && |raw| * 2 != row.Length && row.Length % 4 == 0
      requires |raw| % 4 == 0 && (row.Length - |raw|) / 2 % 4 == 0
      modifies row
      ensures Done(row.Length, raw, border)
    {
      hide Rotated, Word, Done, ByteOf;
      var wl, wa := (row.Length - |raw|) / 2 / 4, |raw| / 4;
      BorderWords(raw, border, 0, wl);
      for i := 0 to wa
        invariant Done(4 * (wl + i), raw, border)
      {
        var a, b, c, d := raw[4 * i], raw[4 * i + 1], raw[4 * i + 2], raw[4 * i + 3];
        RotatedIs(a, b, c, d);
        WordBytes(c, d, a, b);
        PutFour(wl + i, Rotated(Word(a, b, c, d)), raw, border);
      }
      WholeWords(row.Length);
      BorderWords(raw, border, wl + wa, row.Length / 4);
    }

    // The byte-at-a-time fallback, all four geometries.
    method CopyBytes(raw: seq<u8>, border: u8)
      requires Done(0, raw, border)
      modifies row
      ensures Done(row.Length, raw, border)
    {
      hide Done;
      var n, w := |raw|, row.Length;
      var left := if n < w then (w - n) / 2 else 0;
      for x := 0 to w
        invariant Done(x, raw, border)
      {
        if n == w { PutOne(x, raw[x], raw, border); }
        else if n * 2 == w { PutOne(x, raw[x / 2], raw, border); }
        else if n < w { PutOne(x, if x < left || x >= left + n then border else raw[x - left], raw, border); }
        else {
          ScaledInside(x, n, w);
          PutOne(x, raw[x * n / w], raw, border);
        }
      }
    }

    /** The copy loops of `hal_video_render_scanline_gime_raw`: a word at a time when everything is
        aligned, else byte by byte; every pixel ends up where it belongs either way. */
    method Render(raw: seq<u8>, border: u8, aligned: bool)
      requires |raw| > 0 && row.Length % 4 == 0
      modifies row
      ensures RowShows(row[..], row.Length, raw, border)
    {
      hide Pixel, RowShows, Done;
      NoneDone(raw, border);
      var n, w := |raw|, row.Length;
      var left := if n < w then (w - n) / 2 else 0;
      var words := aligned && w % 4 == 0 && left % 4 == 0 && n % 4 == 0;
      if words && n == w { CopyWords(raw, border); }
      else if words && n * 2 == w { DoubleWords(raw, border); }
      else if words && n < w { BorderedWords(raw, border); }
      else { CopyBytes(raw, border); }
      AllDone(raw, border);
    }

    lemma NoneDone(raw: seq<u8>, border: u8)
      requires |raw| > 0 && row.Length % 4 == 0
      ensures Done(0, raw, border)
    {
    }

    lemma AllDone(raw: seq<u8>, border: u8)
      requires Done(row.Length, raw, border)
      ensures RowShows(row[..], row.Length, raw, border)
    {
      hide Pixel;
    }
  }

  lemma WholeWords(w: nat)
    requires w % 4 == 0
    ensures 4 * (w / 4) == w
  {
  }

  // The halves of a word are stored the other way round.
  lemma StoredWord(i: nat)
    ensures Stored(4 * i) == 4 * i + 2 && Stored(4 * i + 1) == 4 * i + 3
    ensures Stored(4 * i + 2) == 4 * i && Stored(4 * i + 3) == 4 * i + 1
  {
  }
}
