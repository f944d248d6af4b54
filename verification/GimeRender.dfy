/** Scanline rendering of the GIME (src/core/tcc1014.cpp).

    The monolithic reference renderer fetches bytes through a two-byte cache and re-decides the
    video mode for every nibble; the optimised one fetches the whole line, directly from RAM or
    into a staging buffer, and runs one loop per video mode. Both are proved to paint the same
    line, given by a specification that says which palette slot each dot shows. */
module GimeRender {
  import opened Words

  // ------------------------------------------------------------------
  // What a scanline shows
  // ------------------------------------------------------------------

  /** The decoded video state a line depends on. `x` is the doubled, hence even, X offset; `bank`
      is the size of the video bank that starts at `base`: all of a 128 KB memory, else 512 KB. */
  datatype VideoState = VideoState(
    coco: bool, gna: bool, gm1: bool, gm0: bool, css: bool, pdr: u8,
    bp: bool, cres: nat, hres: nat, lpr: nat,
    resolution: nat, bpr: nat, row: nat, blink: bool, inverted: bool,
    b: nat, x: nat, bank: nat, base: nat)

  type Video = v: VideoState
    | v.cres < 4 && v.hres < 8 && v.lpr < 8 && v.resolution < 4 && v.x <= 254 && v.x % 2 == 0
      && (v.bank == 0x2_0000 || v.bank == 0x8_0000)
    witness VideoState(false, false, false, false, false, 0, false, 0, 0, 0, 0, 0, 0, false, false, 0, 0, 0x2_0000, 0)

  type Font = int -> u8

  // Bit of a byte, 0 the leftmost; bit pairs and nibbles by the dot they cover.
  predicate Bit(d: u8, i: nat)
    requires i < 8
  {
    match i
    case 0 => d / 128 % 2 == 1
    case 1 => d / 64 % 2 == 1
    case 2 => d / 32 % 2 == 1
    case 3 => d / 16 % 2 == 1
    case 4 => d / 8 % 2 == 1
    case 5 => d / 4 % 2 == 1
    case 6 => d / 2 % 2 == 1
    case _ => d % 2 == 1
  }

  function BitValue(d: u8, i: nat): (r: nat)
    requires i < 8
    ensures r < 2
  {
    if Bit(d, i) then 1 else 0
  }

  function BitPair(d: u8, i: nat): (r: nat)
    requires i < 8
    ensures r < 4
  {
    match i / 2
    case 0 => d / 64
    case 1 => d / 16 % 4
    case 2 => d / 4 % 4
    case _ => d % 4
  }

  function Nibble(d: u8, i: nat): (r: nat)
    requires i < 8
    ensures r < 16
  {
    if i < 4 then d / 16 else d % 16
  }

  // Palette slots of the VDG-compatible modes.
  const GREEN := 0
  const WHITE := 4

  function GraphicsFg(v: Video): nat { if v.css then 11 else 9 }

  function GraphicsBg(v: Video): nat { if v.css then 10 else 8 }

  function TextFg(v: Video): nat { if v.css then 15 else 13 }

  function TextBg(v: Video): nat { if v.css then 14 else 12 }

  predicate Rg6(v: Video) { v.pdr / 16 % 8 == 7 }

  /** Glyph row of a VDG character: lower case when GM0 allows it, inverse by the byte, by GM1 and
      by the global inversion. */
  function VdgGlyph(v: Video, font: Font, d: u8): u8
    requires d < 0x80
  {
    var low := d < 0x20;
    var c := if low then d + (if v.gm0 then 0x60 else 0x40) else if d >= 0x60 then d - 0x40 else d;
    var inverse := ((d >= 0x40) != v.gm1) != ((low && v.gm0) != v.inverted);
    var g := font(c * 12 + v.row % 16);
    if inverse then 255 - g else g
  }

  const UNDERLINE_ROW: seq<int> := [-1, -1, -1, 7, 8, 8, 9, -1]

  predicate Attributes(v: Video) { !v.coco && !v.bp && v.cres % 2 == 1 }

  function FontRow(v: Video): nat {
    var r := (v.row + 1) % 16;
    if r > 11 then 0 else r
  }

  // Bytes of video memory one cell (eight dots) takes.
  function CellBytes(v: Video): nat { if Attributes(v) then 2 else 1 }

  // 16 colours at 16 bytes per row: every second byte reads as zero.
  predicate ZeroOdd(v: Video) { !v.coco && v.bp && v.hres == 0 && v.cres >= 2 }

  /** Palette slot of dot `i` of cell `k`, the line's bytes being `s`. */
  function DotSlot(v: Video, font: Font, s: seq<u8>, k: nat, i: nat): (slot: nat)
    requires CellBytes(v) * k + CellBytes(v) <= |s| && i < 8
    ensures slot < 16
  {
    var d := s[CellBytes(v) * k];
    if v.coco then
      if v.gna then
        if !v.gm0 then (if v.css then WHITE else GREEN) + BitPair(d, i)
        else if v.resolution != 0 || Rg6(v) then if Bit(d, i) then GraphicsFg(v) else GraphicsBg(v)
        else if Bit(d, i / 2 * 2 + 1) then GraphicsFg(v) else GraphicsBg(v)
      else if d >= 0x80 then
        var half := if v.row % 16 < 6 then d / 4 else d;
        if Bit(half, 6 + i / 4) then d / 16 % 8 else 8
      else if Bit(VdgGlyph(v, font, d), i) then TextFg(v) else TextBg(v)
    else if v.bp then
      var e := if ZeroOdd(v) && k % 2 == 1 then 0 else d;
      match v.cres
      case 0 => BitValue(e, i)
      case 1 => BitPair(e, i)
      case _ => Nibble(e, i)
    else
      var g := font(d % 128 * 12 + FontRow(v));
      if Attributes(v) then
        var a := s[2 * k + 1];
        var fg := if a >= 0x80 && v.blink then a % 8 else 8 + a / 8 % 8;
        var underlined := a / 64 % 2 == 1 && v.row == UNDERLINE_ROW[v.lpr];
        if underlined || Bit(g, i) then fg else a % 8
      else if Bit(g, i) then 1 else 0
  }

  // Pixels one dot quadruple becomes at each resolution.
  function Spread<P>(res: nat, c0: P, c1: P, c2: P, c3: P): seq<P> {
    match res
    case 0 => [c0, c0, c0, c0, c1, c1, c1, c1, c2, c2, c2, c2, c3, c3, c3, c3]
    case 1 => [c0, c0, c1, c1, c2, c2, c3, c3]
    case 2 => [c0, c1, c2, c3]
    case _ => [c0, c2]
  }

  lemma SpreadIs<P>(res: nat, c0: P, c1: P, c2: P, c3: P)
    requires res < 4
    ensures |Spread(res, c0, c1, c2, c3)| == PerCell(res) / 2
    ensures forall i :: 0 <= i < PerCell(res) / 2 ==>
              Spread(res, c0, c1, c2, c3)[i] == [c0, c1, c2, c3][Dot(res, i)]
  {
  }

  function PerCell(res: nat): nat {
    match res
    case 0 => 32
    case 1 => 16
    case 2 => 8
    case _ => 4
  }

  function HalfCell<P>(v: Video, font: Font, s: seq<u8>, pal: seq<P>, k: nat, h: nat): seq<P>
    requires CellBytes(v) * k + CellBytes(v) <= |s| && |pal| == 16 && h <= 1
  {
    Spread(v.resolution,
           pal[DotSlot(v, font, s, k, 4 * h)], pal[DotSlot(v, font, s, k, 4 * h + 1)],
           pal[DotSlot(v, font, s, k, 4 * h + 2)], pal[DotSlot(v, font, s, k, 4 * h + 3)])
  }

  /** The first `n` cells of the line. */
  function Pixels<P>(v: Video, font: Font, s: seq<u8>, pal: seq<P>, n: nat): (r: seq<P>)
    requires CellBytes(v) * n <= |s| && |pal| == 16
    ensures |r| == n * PerCell(v.resolution)
  {
    if n == 0 then []
    else Pixels(v, font, s, pal, n - 1) + HalfCell(v, font, s, pal, n - 1, 0) + HalfCell(v, font, s, pal, n - 1, 1)
  }

  /** Cells on a line: the row's bytes, cut off where 640 pixels are full. */
  function Cells(v: Video): nat {
    var most := 640 / PerCell(v.resolution);
    if v.bpr > most then most else v.bpr
  }

  // A video address wrapped inside its bank (vram_mask).
  function InBank(v: Video, a: nat): (r: nat)
    ensures r < v.bank
  {
    if v.bank == 0x2_0000 then a % 0x2_0000 else a % 0x8_0000
  }

  // X offset of the line: native modes only.
  function FirstByte(v: Video): nat { if v.coco then 0 else v.x }

  /** Byte `k` of the line in video memory: the X offset wraps in 256 bytes, the address in the bank. */
  function LineByte(v: Video, mem: seq<u8>, k: nat): u8
    requires v.base + v.bank <= |mem|
  {
    mem[v.base + InBank(v, v.b + (FirstByte(v) + k) % 256)]
  }

  function LineBytes(v: Video, mem: seq<u8>): seq<u8>
    requires v.base + v.bank <= |mem|
  {
    seq(CellBytes(v) * Cells(v), k requires k >= 0 => LineByte(v, mem, k))
  }

  /** The line a state and memory show. */
  function Line<P>(v: Video, font: Font, mem: seq<u8>, pal: seq<P>): seq<P>
    requires v.base + v.bank <= |mem| && |pal| == 16
  {
    Pixels(v, font, LineBytes(v, mem), pal, Cells(v))
  }

  // Dot of a cell that pixel `j` of it shows.
  function Dot(res: nat, j: nat): nat {
    match res
    case 0 => j / 4
    case 1 => j / 2
    case 2 => j
    case _ => 2 * j
  }

  /** The line, pixel by pixel: pixel `j` of cell `k` has the colour of one dot of that cell. */
  lemma {:induction false} PixelAt<P>(v: Video, font: Font, s: seq<u8>, pal: seq<P>, n: nat, k: nat, j: nat)
    requires CellBytes(v) * n <= |s| && |pal| == 16
    requires k < n && j < PerCell(v.resolution)
    ensures k * PerCell(v.resolution) + j < |Pixels(v, font, s, pal, n)|
    ensures Pixels(v, font, s, pal, n)[k * PerCell(v.resolution) + j]
         == pal[DotSlot(v, font, s, k, Dot(v.resolution, j))]
  {
    hide DotSlot;
    var per := PerCell(v.resolution);
    if k < n - 1 {
      PixelAt(v, font, s, pal, n - 1, k, j);
      assert k * per + j < (n - 1) * per;
    } else {
      assert k * per + j - (n - 1) * per == j;
    }
  }

  // ------------------------------------------------------------------
  // The reference renderer, cell by cell
  // ------------------------------------------------------------------

  datatype Mode = SG | CG | RG | RG2

  /** What the reference decides for one cell: data byte `d`, attribute byte `a`. */
  datatype Cell = Cell(mode: Mode, gdata: u8, fg: nat, bg: nat, cg: nat)

  function LegacyCell(v: Video, font: Font, d: u8, a: u8): Cell {
    if v.coco then
      if v.gna then
        var mode := if !v.gm0 then CG else if v.resolution != 0 || Rg6(v) then RG else RG2;
        Cell(mode, d, GraphicsFg(v), GraphicsBg(v), if v.css then WHITE else GREEN)
      else if d >= 0x80 then
        Cell(SG, if v.row % 16 < 6 then d / 4 else d, d / 16 % 8, 8, 0)
      else
        Cell(RG, VdgGlyph(v, font, d), TextFg(v), TextBg(v), 0)
    else if v.bp then
      Cell(RG, d, 0, 0, 0)
    else
      var g := font(d % 128 * 12 + FontRow(v));
      if v.cres % 2 == 1 then
        var fg := if a >= 0x80 && v.blink then a % 8 else 8 + a / 8 % 8;
        Cell(RG, if a / 64 % 2 == 1 && v.row == UNDERLINE_ROW[v.lpr] then 0xFF else g, fg, a % 8, 0)
      else
        Cell(RG, g, 1, 0, 0)
  }

  // Slots of the four dots at the top of `gdata`, and `gdata` moved on to the next four.
  function LegacySlots(v: Video, c: Cell): (nat, nat, nat, nat) {
    var pick := (b: bool) => if b then c.fg else c.bg;
    if v.coco then
      match c.mode
      case SG => var x := pick(Bit(c.gdata, 6)); (x, x, x, x)
      case CG => var x, y := c.cg + BitPair(c.gdata, 0), c.cg + BitPair(c.gdata, 2); (x, x, y, y)
      case RG => (pick(Bit(c.gdata, 0)), pick(Bit(c.gdata, 1)), pick(Bit(c.gdata, 2)), pick(Bit(c.gdata, 3)))
      case RG2 => var x, y := pick(Bit(c.gdata, 1)), pick(Bit(c.gdata, 3)); (x, x, y, y)
    else if v.bp then
      match v.cres
      case 0 => (BitValue(c.gdata, 0), BitValue(c.gdata, 1), BitValue(c.gdata, 2), BitValue(c.gdata, 3))
      case 1 => var x, y := BitPair(c.gdata, 0), BitPair(c.gdata, 2); (x, x, y, y)
      case _ => var x := c.gdata / 16; (x, x, x, x)
    else (pick(Bit(c.gdata, 0)), pick(Bit(c.gdata, 1)), pick(Bit(c.gdata, 2)), pick(Bit(c.gdata, 3)))
  }

  function Shifted(v: Video, c: Cell): Cell {
    c.(gdata := W8(if v.coco && c.mode.SG? then c.gdata * 2 else c.gdata * 16))
  }

  lemma HighNibble(lo: nat)
    requires lo < 16
    ensures var h := 16 * lo;
      && h / 128 % 2 == lo / 8 && h / 64 % 2 == lo / 4 % 2 && h / 32 % 2 == lo / 2 % 2 && h / 16 % 2 == lo % 2
      && h / 64 == lo / 4 && h / 16 % 4 == lo % 4 && h / 16 == lo
  {
  }

  lemma LowNibble(g: u8)
    ensures var lo := g % 16;
      && g / 8 % 2 == lo / 8 && g / 4 % 2 == lo / 4 % 2 && g / 2 % 2 == lo / 2 % 2 && g % 2 == lo % 2
      && g / 4 % 4 == lo / 4 && g % 4 == lo % 4
  {
    var hi, lo := g / 16, g % 16;
    assert g == 16 * hi + lo;
    assert g / 8 == 2 * hi + lo / 8;
    assert g / 4 == 4 * hi + lo / 4;
    assert g / 2 == 8 * hi + lo / 2;
  }

  lemma ShiftedBits(g: u8)
    ensures var h := W8(g * 16);
      && (Bit(h, 0) <==> Bit(g, 4)) && (Bit(h, 1) <==> Bit(g, 5)) && (Bit(h, 2) <==> Bit(g, 6)) &&
          (Bit(h, 3) <==> Bit(g, 7))
      && BitPair(h, 0) == BitPair(g, 4) && BitPair(h, 2) == BitPair(g, 6) && h / 16 == Nibble(g, 4)
  {
    assert g * 16 == 256 * (g / 16) + 16 * (g % 16);
    assert W8(g * 16) == 16 * (g % 16);
    HighNibble(g % 16);
    LowNibble(g);
  }

  lemma DoubledBit(g: u8)
    ensures Bit(W8(g * 2), 6) <==> Bit(g, 7)
  {
    if g < 128 { assert W8(g * 2) == g * 2; } else { assert W8(g * 2) == g * 2 - 256; }
  }

  // The byte the reference reads for cell `k`: zeroed every second time in the odd 16-colour mode.
  function CellByte(v: Video, s: seq<u8>, k: nat): u8
    requires CellBytes(v) * k + CellBytes(v) <= |s|
  {
    if ZeroOdd(v) && k % 2 == 1 then 0 else s[CellBytes(v) * k]
  }

  function CellAttr(v: Video, s: seq<u8>, k: nat): u8
    requires CellBytes(v) * k + CellBytes(v) <= |s|
  {
    if Attributes(v) then s[2 * k + 1] else 0
  }

  lemma AllOnes()
    ensures forall i: nat | i < 8 :: Bit(0xFF, i)
  {
  }

  lemma Twins(g: u8)
    ensures BitPair(g, 5) == BitPair(g, 4) && BitPair(g, 7) == BitPair(g, 6)
    ensures Nibble(g, 4) == Nibble(g, 5) == Nibble(g, 6) == Nibble(g, 7)
  {
  }

  lemma LegacyPicksHighCoco(v: Video, font: Font, s: seq<u8>, k: nat)
    requires v.coco && CellBytes(v) * k + CellBytes(v) <= |s|
    ensures LegacySlots(v, LegacyCell(v, font, CellByte(v, s, k), CellAttr(v, s, k)))
         == (DotSlot(v, font, s, k, 0), DotSlot(v, font, s, k, 1), DotSlot(v, font, s, k, 2), DotSlot(v, font, s, k, 3))
  {
    hide Bit, VdgGlyph, FontRow, Rg6;
  }

  lemma LegacyPicksHighNative(v: Video, font: Font, s: seq<u8>, k: nat)
    requires !v.coco && CellBytes(v) * k + CellBytes(v) <= |s|
    ensures LegacySlots(v, LegacyCell(v, font, CellByte(v, s, k), CellAttr(v, s, k)))
         == (DotSlot(v, font, s, k, 0), DotSlot(v, font, s, k, 1), DotSlot(v, font, s, k, 2), DotSlot(v, font, s, k, 3))
  {
    hide Bit, VdgGlyph, FontRow, Rg6;
    AllOnes();
  }

  lemma LegacyPicksLowCoco(v: Video, font: Font, s: seq<u8>, k: nat)
    requires v.coco && CellBytes(v) * k + CellBytes(v) <= |s|
    ensures LegacySlots(v, Shifted(v, LegacyCell(v, font, CellByte(v, s, k), CellAttr(v, s, k))))
         == (DotSlot(v, font, s, k, 4), DotSlot(v, font, s, k, 5), DotSlot(v, font, s, k, 6), DotSlot(v, font, s, k, 7))
  {
    hide Bit, BitPair, Nibble, VdgGlyph, FontRow, Rg6, W8;
    var c := LegacyCell(v, font, CellByte(v, s, k), CellAttr(v, s, k));
    ShiftedBits(c.gdata);
    DoubledBit(c.gdata);
    Twins(c.gdata);
  }

  lemma LegacyPicksLowNative(v: Video, font: Font, s: seq<u8>, k: nat)
    requires !v.coco && CellBytes(v) * k + CellBytes(v) <= |s|
    ensures LegacySlots(v, Shifted(v, LegacyCell(v, font, CellByte(v, s, k), CellAttr(v, s, k))))
         == (DotSlot(v, font, s, k, 4), DotSlot(v, font, s, k, 5), DotSlot(v, font, s, k, 6), DotSlot(v, font, s, k, 7))
  {
    hide Bit, BitPair, Nibble, VdgGlyph, FontRow, Rg6, W8;
    var c := LegacyCell(v, font, CellByte(v, s, k), CellAttr(v, s, k));
    ShiftedBits(c.gdata);
    Twins(c.gdata);
    AllOnes();
  }

  /** Nibble by nibble, the reference picks the slots of the specification. */
  lemma LegacyPicks(v: Video, font: Font, s: seq<u8>, k: nat)
    requires CellBytes(v) * k + CellBytes(v) <= |s|
    ensures var c := LegacyCell(v, font, CellByte(v, s, k), CellAttr(v, s, k));
      && LegacySlots(v, c) == (DotSlot(v, font, s, k, 0), DotSlot(v, font, s, k, 1),
                               DotSlot(v, font, s, k, 2), DotSlot(v, font, s, k, 3))
      && LegacySlots(v, Shifted(v, c)) == (DotSlot(v, font, s, k, 4), DotSlot(v, font, s, k, 5),
                                           DotSlot(v, font, s, k, 6), DotSlot(v, font, s, k, 7))
  {
    hide LegacySlots, LegacyCell, DotSlot, Shifted;
    if v.coco {
      LegacyPicksHighCoco(v, font, s, k);
      LegacyPicksLowCoco(v, font, s, k);
    } else {
      LegacyPicksHighNative(v, font, s, k);
      LegacyPicksLowNative(v, font, s, k);
    }
  }

  // ------------------------------------------------------------------
  // Byte fetch
  // ------------------------------------------------------------------

  lemma NextInBank(v: Video, a: nat)
    ensures InBank(v, InBank(v, a) + 1) == InBank(v, a + 1)
  {
  }

  // The bytes of a fetched pair are two consecutive bytes of the line.
  lemma PairBytes(v: Video, mem: seq<u8>, t: nat)
    requires v.base + v.bank <= |mem|
    ensures LineByte(v, mem, t) == mem[v.base + InBank(v, v.b + (FirstByte(v) + t) % 256)]
    ensures t % 2 == 0 ==>
              LineByte(v, mem, t + 1) == mem[v.base + InBank(v, InBank(v, v.b + (FirstByte(v) + t) % 256) + 1)]
  {
    hide InBank;
    var x := FirstByte(v) + t;
    if t % 2 == 0 { EvenNext(x); }
    NextInBank(v, v.b + x % 256);
  }

  lemma EvenNext(x: nat)
    requires x % 2 == 0
    ensures (x + 1) % 256 == x % 256 + 1
  {
    var q, h := x / 256, x / 2 - 128 * (x / 256);
    assert x == 256 * q + 2 * h && 2 * h + 1 < 256;
  }

  lemma PairOffsets(t: nat)
    ensures t % 2 == 0 ==> (t + 1) / 2 * 2 == t && (t + 2) / 2 * 2 == t + 2 && (t + 1) % 2 == 1
    ensures t % 2 == 1 ==> (t + 1) / 2 * 2 == (t + 2) / 2 * 2 && (t + 1) % 2 == 0
  {
  }

  lemma CellsBound(v: Video)
    ensures Cells(v) <= v.bpr && (v.bpr > 0 ==> Cells(v) > 0)
  {
  }

  // A cell that is on the line has room in the 640-pixel buffer.
  lemma CellRoom(v: Video, k: nat)
    requires k < Cells(v)
    ensures k * PerCell(v.resolution) + PerCell(v.resolution) <= 640
    ensures k * PerCell(v.resolution) + PerCell(v.resolution) / 2 < 640
    ensures (k + 1) * PerCell(v.resolution) >= 640 ==> k + 1 == Cells(v)
    ensures k + 1 < Cells(v) ==> (k + 1) * PerCell(v.resolution) < 640
    ensures k + 1 < v.bpr && (k + 1) * PerCell(v.resolution) < 640 ==> k + 1 < Cells(v)
  {
  }

  // A line never needs more than the staging buffer (two bytes a character at 80 columns).
  predicate LineFits(v: Video) { CellBytes(v) * v.bpr <= 160 }

  // Bytes per row by HRES, in graphics modes and in text modes.
  function GraphicsBytes(hres: nat): nat {
    match hres
    case 0 => 16 case 1 => 20 case 2 => 32 case 3 => 40
    case 4 => 64 case 5 => 80 case 6 => 128 case _ => 160
  }

  function TextBytes(hres: nat): nat {
    match hres
    case 0 => 32 case 1 => 40 case 2 => 32 case 3 => 40
    case 4 => 64 case 5 => 80 case 6 => 64 case _ => 80
  }

  /** `update_from_gime_registers`: mode bits, bytes per row and resolution from the registers. Whatever
      they hold, a line fits the staging buffer and is 512 or 640 pixels wide, no cell cut off. */
  function Decoded(v: Video, samV: nat): (d: Video)
    ensures LineFits(d) && Cells(d) == d.bpr
    ensures d.bpr * PerCell(d.resolution) == 512 || d.bpr * PerCell(d.resolution) == 640
    ensures d == v.(gna := d.gna, gm1 := d.gm1, gm0 := d.gm0, css := d.css, bpr := d.bpr, resolution := d.resolution)
  {
    var gna := v.pdr >= 0x80;
    var (bpr, resolution) :=
      if v.coco then (if !gna || samV % 2 == 0 then (32, 1) else (16, 0))
      else if v.bp then (GraphicsBytes(v.hres), v.hres / 2)
      else (TextBytes(v.hres), if v.hres >= 4 then 2 else 1);
    v.(gna := gna, gm1 := v.pdr / 0x20 % 2 == 1, gm0 := v.pdr / 0x10 % 2 == 1, css := v.pdr / 8 % 2 == 1,
       bpr := bpr, resolution := resolution)
  }

  // The number whose bits 7, 5, 4 and 3 are the given ones.
  function ModeByte(gna: bool, gm1: bool, gm0: bool, css: bool): nat {
    (if gna then 128 else 0) + (if gm1 then 32 else 0) + (if gm0 then 16 else 0) + (if css then 8 else 0)
  }

  // Bit 6 and bits 2 to 0 only.
  predicate Rest(n: int) { 0 <= n < 8 || 64 <= n < 72 }

  /** What the registers select. Native lines are 640 pixels wide when bit 0 of HRES is set and 512
      otherwise; a byte becomes 32, 16, 8 or 4 pixels by the other two bits, a character 8 or 16 by the
      highest. VDG lines are 512 wide, of 16 bytes in graphics modes with an odd SAM mode, else of 32. */
  predicate Geometry(v: Video, samV: nat) {
    var per := [32, 16, 8, 4][v.resolution];
    && (if v.coco then v.bpr == (if v.gna && samV % 2 == 1 then 16 else 32) && v.bpr * per == 512
        else && v.bpr * per == (if v.hres % 2 == 1 then 640 else 512)
             && per == if v.bp then [32, 16, 8, 4][v.hres / 2] else if v.hres >= 4 then 8 else 16)
    && Rest(v.pdr - ModeByte(v.gna, v.gm1, v.gm0, v.css))
  }

  lemma DecodedGeometry(v: Video, samV: nat)
    ensures Geometry(Decoded(v, samV), samV)
  {
    hide Decoded;
    DecodedSize(v, samV);
    DecodedBits(v, samV);
  }

  lemma DecodedSize(v: Video, samV: nat)
    ensures var d := Decoded(v, samV);
      var per := [32, 16, 8, 4][d.resolution];
      if v.coco then d.bpr == (if d.gna && samV % 2 == 1 then 16 else 32) && d.bpr * per == 512
      else && d.bpr * per == (if v.hres % 2 == 1 then 640 else 512)
           && per == if v.bp then [32, 16, 8, 4][v.hres / 2] else if v.hres >= 4 then 8 else 16
  {
    hide LineFits, Cells, PerCell;
  }

  lemma DecodedBits(v: Video, samV: nat)
    ensures var d := Decoded(v, samV);
      Rest(v.pdr - ModeByte(d.gna, d.gm1, d.gm0, d.css))
  {
    hide LineFits, Cells, PerCell, GraphicsBytes, TextBytes, ModeByte;
    DecodedModes(v, samV);
    BitsOf(v.pdr);
  }

  lemma DecodedModes(v: Video, samV: nat)
    ensures var d := Decoded(v, samV);
      && d.gna == (v.pdr >= 128) && d.gm1 == (v.pdr / 32 % 2 == 1)
      && d.gm0 == (v.pdr / 16 % 2 == 1) && d.css == (v.pdr / 8 % 2 == 1)
  {
    hide LineFits, Cells, PerCell, GraphicsBytes, TextBytes;
  }

  lemma BitsOf(p: u8)
    ensures Rest(p - ModeByte(p >= 128, p / 32 % 2 == 1, p / 16 % 2 == 1, p / 8 % 2 == 1))
  {
    hide ModeByte, Rest;
    Halves(p);
    Assembled(p % 8, p / 8 % 2, p / 16 % 2, p / 32 % 2, p / 64 % 2, p / 128);
  }

  lemma Halves(p: u8)
    ensures p == p % 8 + 8 * (p / 8 % 2) + 16 * (p / 16 % 2) + 32 * (p / 32 % 2) + 64 * (p / 64 % 2) + 128 * (p / 128)
    ensures p / 128 < 2 && (p / 128 == 1 <==> p >= 128)
  {
    var a, b, c, d := p / 8, p / 16, p / 32, p / 64;
    assert b == a / 2 && c == b / 2 && d == c / 2 && p / 128 == d / 2;
  }

  lemma Assembled(low: nat, css: nat, gm0: nat, gm1: nat, gm2: nat, gna: nat)
    requires low < 8 && css < 2 && gm0 < 2 && gm1 < 2 && gm2 < 2 && gna < 2
    ensures Rest(low + 8 * css + 16 * gm0 + 32 * gm1 + 64 * gm2 + 128 * gna
                 - ModeByte(gna == 1, gm1 == 1, gm0 == 1, css == 1))
  {
  }

  // Everything 0, as `tcc1014_init` leaves it.
  const BLANK := VideoState(false, false, false, false, false, 0, false, 0, 0, 0, 0, 0, 0, false, false,
                            0x6_0400, 0, 0x8_0000, 0)

  /** The GIME as the renderers see it. `P` is the pixel type: RGB565 words or raw VGA bytes. */
  class Gime<P(0)> {
    var v: Video
    var samV: nat
    var ddr: bool
    var active: bool
    const ram: array<u8>
    const font: Font
    // line buffer and width of the line in it
    const line: array<P>
    var width: nat
    // pair cache of the reference renderer
    var xoff: nat
    var haveCache: bool
    var cache: u8
    // staging buffer of the optimised one (s_line_bytes)
    const staged: array<u8>

    ghost predicate Shaped()
      reads this, ram
    {
      && v.base + v.bank <= ram.Length && line.Length == 640 && staged.Length == 160
      && ram != staged && line as object != ram && line as object != staged
    }

    ghost predicate Valid()
      reads this, ram
    {
      Shaped() && LineFits(v)
    }

    /** `tcc1014_init` and the memory fitted: video is read from the start of it. */
    constructor (ram: array<u8>, font: Font)
      requires ram.Length == 0x2_0000 || ram.Length >= 0x8_0000
      ensures Valid() && fresh(line) && fresh(staged) && this.ram == ram && this.font == font && !active
      ensures v == BLANK.(bank := if ram.Length < 0x8_0000 then 0x2_0000 else 0x8_0000) && samV == 0 && !ddr
    {
      this.ram, this.font := ram, font;
      v := BLANK.(bank := if ram.Length < 0x8_0000 then 0x2_0000 else 0x8_0000);
      samV, ddr, active := 0, false, false;
      line, staged := new P[640], new u8[160](_ => 0);
      width, xoff, haveCache, cache := 0, 0, false, 0;
    }

    method UpdateFromRegisters()
      requires Shaped()
      modifies this`v
      ensures v == Decoded(old(v), samV) && Valid() && Geometry(v, samV)
    {
      hide LineFits, Cells, PerCell, Geometry;
      var gna, bpr, resolution := v.pdr >= 0x80, 0, 0;
      if v.coco {
        if !gna || samV % 2 == 0 {
          bpr, resolution := 32, 1;
        } else {
          bpr, resolution := 16, 0;
        }
      } else if v.bp {
        bpr, resolution := GraphicsBytes(v.hres), v.hres / 2;
      } else {
        bpr, resolution := TextBytes(v.hres), if v.hres >= 4 then 2 else 1;
      }
      ghost var d := Decoded(v, samV);
      v := v.(gna := gna, gm1 := v.pdr / 0x20 % 2 == 1, gm0 := v.pdr / 0x10 % 2 == 1, css := v.pdr / 8 % 2 == 1,
              bpr := bpr, resolution := resolution);
      DecodedGeometry(old(v), samV);
    }

    /** The GIME registers $FF90, $FF98, $FF99 and $FF9F (`reg` 0, 8, 9 and 15), as far as a line depends
        on them. */
    method WriteRegister(reg: nat, val: u8)
      requires Valid() && (reg == 0 || reg == 8 || reg == 9 || reg == 15)
      modifies this`v
      ensures Valid() && Geometry(v, samV)
      ensures v == Decoded(match reg
                           case 0 => old(v).(coco := val >= 0x80)
                           case 8 => old(v).(bp := val >= 0x80, lpr := val % 8)
                           case 9 => old(v).(hres := val / 4 % 8, cres := val % 4)
                           case _ => old(v).(x := val % 0x80 * 2), samV)
    {
      hide Decoded, LineFits, Geometry;
      match reg {
        case 0 => v := v.(coco := val >= 0x80);
        case 8 => v := v.(bp := val >= 0x80, lpr := val % 8);
        case 9 => v := v.(hres := val / 4 % 8, cres := val % 4);
        case _ => v := v.(x := val % 0x80 * 2);
      }
      UpdateFromRegisters();
    }

    // $FF22 and $FF23: the mode bits of PIA 1, watched.
    method SnoopPia1b(addr: u16, val: u8)
      requires Valid()
      modifies this`v, this`ddr
      ensures Valid()
      ensures addr == 0xFF22 && ddr ==> v == Decoded(old(v).(pdr := val / 8 * 8), samV) && Geometry(v, samV)
      ensures !(addr == 0xFF22 && old(ddr)) ==> v == old(v)
      ensures ddr == if addr == 0xFF23 then val / 4 % 2 == 1 else old(ddr)
    {
      hide Decoded, LineFits, Geometry;
      if addr == 0xFF22 {
        if ddr {
          v := v.(pdr := val / 8 * 8);
          UpdateFromRegisters();
        }
      } else if addr == 0xFF23 {
        ddr := val / 4 % 2 == 1;
      }
    }

    // The mode bits of the SAM register.
    method SetSamV(val: nat)
      requires Valid() && val < 8
      modifies this`v, this`samV
      ensures Valid() && samV == val && v == Decoded(old(v), val) && Geometry(v, samV)
    {
      samV := val;
      UpdateFromRegisters();
    }

    // State of the pair cache after `t` bytes of the line have been taken.
    ghost predicate CacheAt(t: nat)
      requires Valid()
      reads this, ram
    {
      && haveCache == (t % 2 == 1)
      && xoff == FirstByte(v) + (t + 1) / 2 * 2
      && (haveCache ==> cache == (if ZeroOdd(v) then 0 else LineByte(v, ram[..], t)))
    }

    /** `fetch_byte_vram`: the next byte of the line, two at a time from memory. */
    method FetchByteVram(ghost t: nat) returns (r: u8)
      requires Valid() && CacheAt(t)
      modifies this`xoff, this`haveCache, this`cache
      ensures r == (if ZeroOdd(v) && t % 2 == 1 then 0 else LineByte(v, ram[..], t))
      ensures ZeroOdd(v) || CacheAt(t + 1)
      ensures haveCache == (t % 2 == 0) && xoff == FirstByte(v) + (t + 2) / 2 * 2
    {
      hide LineFits, InBank, LineByte, FirstByte;
      PairOffsets(t);
      PairBytes(v, ram[..], t);
      if haveCache {
        r := cache;
        haveCache := false;
      } else {
        var addr := InBank(v, v.b + xoff % 256);
        r := ram[v.base + addr];
        cache := ram[v.base + InBank(v, addr + 1)];
        haveCache := true;
        xoff := xoff + 2;
      }
    }

    // Write one quadruple of dots at `at`, spread for the resolution.
    method Emit4(at: nat, res: nat, c0: P, c1: P, c2: P, c3: P) returns (next: nat)
      requires res < 4 && at + PerCell(res) / 2 <= line.Length
      modifies line
      ensures next == at + PerCell(res) / 2
      ensures line[..next] == old(line[..at]) + Spread(res, c0, c1, c2, c3)
    {
      ghost var sp := Spread(res, c0, c1, c2, c3);
      if res == 0 {
        forall i | 0 <= i < 16 {
          line[at + i] := if i < 4 then c0 else if i < 8 then c1 else if i < 12 then c2 else c3;
        }
        next := at + 16;
      } else if res == 1 {
        forall i | 0 <= i < 8 { line[at + i] := if i < 2 then c0 else if i < 4 then c1 else if i < 6 then c2 else c3; }
        next := at + 8;
      } else if res == 2 {
        forall i | 0 <= i < 4 { line[at + i] := if i < 1 then c0 else if i < 2 then c1 else if i < 3 then c2 else c3; }
        next := at + 4;
      } else {
        forall i | 0 <= i < 2 { line[at + i] := if i < 1 then c0 else c2; }
        next := at + 2;
      }
      SpreadIs(res, c0, c1, c2, c3);
      assert forall i | 0 <= i < |sp| :: line[at + i] == sp[i];
      assert line[..at] == old(line[..at]);
      assert line[..next] == line[..at] + line[at..next];
      assert line[at..next] == sp;
    }

    method StartFetch()
      requires Valid()
      modifies this`xoff, this`haveCache
      ensures CacheAt(0)
    {
      xoff := FirstByte(v);
      haveCache := false;
    }

    // The data byte of a cell; in the odd 16-colour mode the cached second byte is cleared.
    method LegacyData(ghost t: nat) returns (d: u8)
      requires Valid() && CacheAt(t)
      modifies this`xoff, this`haveCache, this`cache
      ensures d == (if ZeroOdd(v) && t % 2 == 1 then 0 else LineByte(v, ram[..], t))
      ensures CacheAt(t + 1)
    {
      hide LineByte;
      d := FetchByteVram(t);
      if !v.coco && v.bp && v.hres == 0 && v.cres >= 2 { cache := 0; }
    }

    // One cell of the reference renderer: bytes taken and mode decided.
    method LegacyFetch(ghost k: nat, ghost s: seq<u8>) returns (c: Cell)
      requires Valid() && CacheAt(CellBytes(v) * k)
      requires s == LineBytes(v, ram[..]) && k < Cells(v)
      requires CellBytes(v) * k + CellBytes(v) == CellBytes(v) * (k + 1) <= |s|
      modifies this`xoff, this`haveCache, this`cache
      ensures CacheAt(CellBytes(v) * (k + 1))
      ensures c == LegacyCell(v, font, CellByte(v, s, k), CellAttr(v, s, k))
    {
      hide LegacyCell, LineByte, CacheAt, LineBytes;
      LineBytesAre(v, ram[..], k);
      var d := LegacyData(CellBytes(v) * k);
      var a := 0;
      if !v.coco && !v.bp && v.cres % 2 == 1 { a := LegacyData(2 * k + 1); }
      c := LegacyCell(v, font, d, a);
    }

    // `h` nibbles of cell `k` painted, `at` pixels in all.
    ghost predicate HalfPainted(k: nat, h: nat, at: nat, s: seq<u8>, pal: seq<P>)
      requires Valid() && |pal| == 16
      reads this, ram, line
    {
      && h <= 2 && CellBytes(v) * k + CellBytes(v) <= |s|
      && at == k * PerCell(v.resolution) + h * (PerCell(v.resolution) / 2) <= 640
      && line[..at] == Pixels(v, font, s, pal, k)
                     + (if h >= 1 then HalfCell(v, font, s, pal, k, 0) else [])
                     + (if h == 2 then HalfCell(v, font, s, pal, k, 1) else [])
    }

    // One nibble: its four slots looked up, spread and stored.
    method LegacyNibble(k: nat, h: nat, at: nat, c: Cell, ghost s: seq<u8>, pal: seq<P>) returns (n: nat)
      requires Valid() && |pal| == 16 && h < 2 && HalfPainted(k, h, at, s, pal)
      requires k * PerCell(v.resolution) + PerCell(v.resolution) <= 640
      requires LegacySlots(v, c) == (DotSlot(v, font, s, k, 4 * h), DotSlot(v, font, s, k, 4 * h + 1),
                                     DotSlot(v, font, s, k, 4 * h + 2), DotSlot(v, font, s, k, 4 * h + 3))
      modifies line
      ensures HalfPainted(k, h + 1, n, s, pal)
    {
      hide LegacySlots, DotSlot, Spread, LineFits, Pixels;
      var (s0, s1, s2, s3) := LegacySlots(v, c);
      n := Emit4(at, v.resolution, pal[s0], pal[s1], pal[s2], pal[s3]);
    }

    lemma NoHalves(k: nat, at: nat, s: seq<u8>, pal: seq<P>)
      requires Valid() && |pal| == 16 && CellBytes(v) * k + CellBytes(v) <= |s|
      requires at == k * PerCell(v.resolution) <= 640 && line[..at] == Pixels(v, font, s, pal, k)
      ensures HalfPainted(k, 0, at, s, pal)
    {
      hide DotSlot, Spread, LineFits;
    }

    lemma BothHalves(k: nat, at: nat, s: seq<u8>, pal: seq<P>)
      requires Valid() && |pal| == 16 && HalfPainted(k, 2, at, s, pal)
      ensures at == (k + 1) * PerCell(v.resolution) <= 640 && CellBytes(v) * (k + 1) <= |s|
      ensures line[..at] == Pixels(v, font, s, pal, k + 1)
    {
      hide DotSlot, Spread, LineFits;
    }

    // The two nibbles of a cell, `gdata` shifted in between.
    method LegacyPaint(k: nat, c0: Cell, pal: seq<P>, ghost s: seq<u8>) returns (n: nat)
      requires Valid() && |pal| == 16 && k < Cells(v)
      requires CellBytes(v) * k + CellBytes(v) <= |s|
      requires c0 == LegacyCell(v, font, CellByte(v, s, k), CellAttr(v, s, k))
      requires k * PerCell(v.resolution) <= 640
      requires line[..k * PerCell(v.resolution)] == Pixels(v, font, s, pal, k)
      modifies line
      ensures n == (k + 1) * PerCell(v.resolution) <= 640
      ensures line[..n] == Pixels(v, font, s, pal, k + 1)
    {
      hide LegacyCell, LegacySlots, DotSlot, Shifted, CellByte, CellAttr, Cells, HalfPainted, LineFits, Pixels;
      CellRoom(v, k);
      LegacyPicks(v, font, s, k);
      n := k * PerCell(v.resolution);
      NoHalves(k, n, s, pal);
      var c, h := c0, 0;
      while h < 2
        invariant h <= 2
        invariant h == 0 ==> c == c0
        invariant h == 1 ==> c == Shifted(v, c0)
        invariant HalfPainted(k, h, n, s, pal)
      {
        n := LegacyNibble(k, h, n, c, s, pal);
        c := Shifted(v, c);
        h := h + 1;
      }
      BothHalves(k, n, s, pal);
    }

    // State of the reference renderer with `k` cells painted.
    ghost predicate Painted(k: nat, pal: seq<P>)
      requires Valid() && |pal| == 16
      reads this, ram, line
    {
      && k <= Cells(v) && CacheAt(CellBytes(v) * k)
      && CellBytes(v) * k <= |LineBytes(v, ram[..])|
      && k * PerCell(v.resolution) <= 640
      && line[..k * PerCell(v.resolution)] == Pixels(v, font, LineBytes(v, ram[..]), pal, k)
    }

    method LegacyOne(k: nat, pal: seq<P>) returns (n: nat)
      requires Valid() && |pal| == 16 && k < Cells(v) && Painted(k, pal)
      modifies this`xoff, this`haveCache, this`cache, line
      ensures n == (k + 1) * PerCell(v.resolution) && Painted(k + 1, pal)
    {
      hide LegacyCell, LineByte, LineBytes, CellByte, CellAttr, Pixels, Cells, CacheAt;
      ghost var s := LineBytes(v, ram[..]);
      LineBytesAre(v, ram[..], k);
      var c := LegacyFetch(k, s);
      n := LegacyPaint(k, c, pal, s);
      assert CacheAt(CellBytes(v) * (k + 1));
    }

    /** `tcc1014_render_scanline_legacy`: the line as specified. */
    method RenderLegacy(pal: seq<P>)
      requires Valid() && |pal| == 16
      modifies this`xoff, this`haveCache, this`cache, this`width, line
      ensures !active ==> line[..] == old(line[..]) && width == old(width)
      ensures active ==> width <= 640 && line[..width] == Line(v, font, ram[..], pal)
    {
      if !active { return; }
      hide Painted, Cells, CacheAt, Pixels, LineBytes, LineByte, LineFits, PerCell;
      StartFetch();
      PaintedNone(pal);
      var n := LegacyCells(pal);
      PaintedAll(pal);
      width := n;
    }

    // The loop over the row's bytes, stopping when 640 pixels are full.
    method LegacyCells(pal: seq<P>) returns (n: nat)
      requires Valid() && |pal| == 16 && Painted(0, pal)
      modifies this`xoff, this`haveCache, this`cache, line
      ensures n == Cells(v) * PerCell(v.resolution) && Painted(Cells(v), pal)
    {
      hide Painted, Cells, CacheAt, Pixels, LineBytes, LineByte, LineFits, PerCell;
      CellsBound(v);
      var k := 0;
      n := 0;
      while k < v.bpr
        invariant k <= v.bpr && k <= Cells(v) && (k < v.bpr ==> k < Cells(v))
        invariant n == k * PerCell(v.resolution) && Painted(k, pal)
      {
        CellRoom(v, k);
        n := LegacyOne(k, pal);
        k := k + 1;
        if n >= 640 { break; }
      }
    }

    lemma PaintedNone(pal: seq<P>)
      requires Valid() && |pal| == 16 && CacheAt(0)
      ensures Painted(0, pal)
    {
    }

    lemma PaintedAll(pal: seq<P>)
      requires Valid() && |pal| == 16 && Painted(Cells(v), pal)
      ensures Cells(v) * PerCell(v.resolution) <= 640
      ensures line[..Cells(v) * PerCell(v.resolution)] == Line(v, font, ram[..], pal)
    {
    }

    // ----------------------------------------------------------------
    // The optimised renderer
    // ----------------------------------------------------------------

    /** `fetch_line_bytes`: a pointer straight into RAM when the line wraps neither the X window
        nor the bank, else a staged copy. */
    method FetchLineBytes(n: nat) returns (src: array<u8>, off: nat)
      requires Valid() && n <= 160
      modifies staged
      ensures src == ram || (src == staged && off == 0)
      ensures off + n <= src.Length
      ensures forall k :: 0 <= k < n ==> src[off + k] == LineByte(v, ram[..], k)
    {
      var x := FirstByte(v);
      var a := InBank(v, v.b + x);
      if x + n <= 256 && a + n <= v.bank {
        forall k: nat | k < n
          ensures ram[v.base + a + k] == LineByte(v, ram[..], k)
        {
          assert (x + k) % 256 == x + k;
          DirectByte(v, v.b + x, k);
        }
        return ram, v.base + a;
      }
      var k := 0;
      while k < n
        invariant k <= n
        invariant forall j :: 0 <= j < k ==> staged[j] == LineByte(v, ram[..], j)
      {
        staged[k] := ram[v.base + InBank(v, v.b + (x + k) % 256)];
        k := k + 1;
      }
      return staged, 0;
    }

    // `k` cells painted, the bytes being `s`.
    ghost predicate Upto(k: nat, s: seq<u8>, pal: seq<P>)
      requires Valid() && |pal| == 16
      reads this, ram, line
    {
      && CellBytes(v) * k <= |s| && k * PerCell(v.resolution) <= 640
      && line[..k * PerCell(v.resolution)] == Pixels(v, font, s, pal, k)
    }

    // Both quadruples of a cell.
    method EmitCell(k: nat, ghost s: seq<u8>, ghost pal: seq<P>,
                    c0: P, c1: P, c2: P, c3: P, c4: P, c5: P, c6: P, c7: P)
      requires Valid() && |pal| == 16 && Upto(k, s, pal)
      requires CellBytes(v) * k + CellBytes(v) <= |s| && k * PerCell(v.resolution) + PerCell(v.resolution) <= 640
      requires c0 == pal[DotSlot(v, font, s, k, 0)] && c1 == pal[DotSlot(v, font, s, k, 1)]
      requires c2 == pal[DotSlot(v, font, s, k, 2)] && c3 == pal[DotSlot(v, font, s, k, 3)]
      requires c4 == pal[DotSlot(v, font, s, k, 4)] && c5 == pal[DotSlot(v, font, s, k, 5)]
      requires c6 == pal[DotSlot(v, font, s, k, 6)] && c7 == pal[DotSlot(v, font, s, k, 7)]
      modifies line
      ensures Upto(k + 1, s, pal)
    {
      hide DotSlot, Spread, LineFits;
      var n := Emit4(k * PerCell(v.resolution), v.resolution, c0, c1, c2, c3);
      n := Emit4(n, v.resolution, c4, c5, c6, c7);
      assert n == (k + 1) * PerCell(v.resolution);
    }

    // `emit_bits8`: a two-colour cell, bit 7 first.
    method EmitBits8(k: nat, ghost s: seq<u8>, ghost pal: seq<P>, g: u8, fg: P, bg: P)
      requires Valid() && |pal| == 16 && Upto(k, s, pal)
      requires CellBytes(v) * k + CellBytes(v) <= |s| && k * PerCell(v.resolution) + PerCell(v.resolution) <= 640
      requires forall i: nat | i < 8 :: (if Bit(g, i) then fg else bg) == pal[DotSlot(v, font, s, k, i)]
      modifies line
      ensures Upto(k + 1, s, pal)
    {
      hide DotSlot, Bit, Upto;
      EmitCell(k, s, pal,
               if Bit(g, 0) then fg else bg, if Bit(g, 1) then fg else bg,
               if Bit(g, 2) then fg else bg, if Bit(g, 3) then fg else bg,
               if Bit(g, 4) then fg else bg, if Bit(g, 5) then fg else bg,
               if Bit(g, 6) then fg else bg, if Bit(g, 7) then fg else bg);
    }

    // The `n` cells of the line are in `src` from `off` on; native graphics already zeroed.
    ghost predicate Ready(src: array<u8>, off: nat, n: nat, s: seq<u8>, pal: seq<P>)
      reads this, ram, src
    {
      && Valid() && |pal| == 16 && n == Cells(v) && src as object != line
      && |s| == CellBytes(v) * n && off + |s| <= src.Length
      && (forall k :: 0 <= k < |s| ==> src[off + k] == if ZeroOdd(v) && k % 2 == 1 then 0 else s[k])
    }

    // The bytes as fetched, before any are zeroed.
    ghost predicate Fetched(src: array<u8>, off: nat, n: nat, s: seq<u8>, pal: seq<P>)
      reads this, ram, src
    {
      && Valid() && |pal| == 16 && n == Cells(v) && src as object != line
      && (src == ram || (src == staged && off == 0))
      && |s| == CellBytes(v) * n && |s| <= 160 && off + |s| <= src.Length
      && (forall k :: 0 <= k < |s| ==> src[off + k] == s[k])
    }

    // Copy the line to the staging buffer, in place when it is there already, clearing odd bytes.
    method ZeroOddBytes(src: array<u8>, off: nat, n: nat, ghost s: seq<u8>, ghost pal: seq<P>)
      requires Fetched(src, off, n, s, pal) && ZeroOdd(v)
      modifies staged
      ensures Ready(staged, 0, n, s, pal)
    {
      hide Cells, LineFits, LineByte, LineBytes;
      for k := 0 to n
        invariant forall j :: 0 <= j < k ==> staged[j] == if j % 2 == 1 then 0 else s[j]
        invariant forall j :: k <= j < n ==> src[off + j] == s[j]
      {
        staged[k] := if k % 2 == 1 then 0 else src[off + k];
      }
    }

    lemma PalSize(src: array<u8>, off: nat, n: nat, s: seq<u8>, pal: seq<P>)
      requires Fetched(src, off, n, s, pal)
      ensures Valid() && |pal| == 16 && line as object != staged
    {
    }

    lemma FetchedReady(src: array<u8>, off: nat, n: nat, s: seq<u8>, pal: seq<P>)
      requires Fetched(src, off, n, s, pal) && !ZeroOdd(v)
      ensures Ready(src, off, n, s, pal)
    {
    }

    lemma NoneYet(s: seq<u8>, pal: seq<P>)
      requires Valid() && |pal| == 16
      ensures Upto(0, s, pal)
    {
    }

    // `render_coco_cg`
    method RenderCocoCg(src: array<u8>, off: nat, n: nat, ghost s: seq<u8>, pal: seq<P>)
      requires Ready(src, off, n, s, pal) && v.coco && v.gna && !v.gm0
      modifies line
      ensures Upto(n, s, pal)
    {
      hide BitPair, Bit, Upto, Cells;
      var cg := if v.css then WHITE else GREEN;
      NoneYet(s, pal);
      for k := 0 to n
        invariant Upto(k, s, pal)
      {
        CellRoom(v, k);
        var d := src[off + k];
        Pairs(d);
        var a, b := pal[cg + BitPair(d, 0)], pal[cg + BitPair(d, 2)];
        var c, e := pal[cg + BitPair(d, 4)], pal[cg + BitPair(d, 6)];
        EmitCell(k, s, pal, a, a, b, b, c, c, e, e);
      }
    }

    // `render_coco_rg`
    method RenderCocoRg(src: array<u8>, off: nat, n: nat, ghost s: seq<u8>, pal: seq<P>)
      requires Ready(src, off, n, s, pal) && v.coco && v.gna && v.gm0 && (v.resolution != 0 || Rg6(v))
      modifies line
      ensures Upto(n, s, pal)
    {
      hide Bit, Upto, Cells, LineFits;
      var fg, bg := pal[GraphicsFg(v)], pal[GraphicsBg(v)];
      NoneYet(s, pal);
      for k := 0 to n
        invariant Upto(k, s, pal)
      {
        CellRoom(v, k);
        EmitBits8(k, s, pal, src[off + k], fg, bg);
      }
    }

    // `render_coco_rg2`
    method RenderCocoRg2(src: array<u8>, off: nat, n: nat, ghost s: seq<u8>, pal: seq<P>)
      requires Ready(src, off, n, s, pal) && v.coco && v.gna && v.gm0 && v.resolution == 0 && !Rg6(v)
      modifies line
      ensures Upto(n, s, pal)
    {
      hide Bit, Upto, Cells, LineFits;
      var fg, bg := pal[GraphicsFg(v)], pal[GraphicsBg(v)];
      NoneYet(s, pal);
      for k := 0 to n
        invariant Upto(k, s, pal)
      {
        CellRoom(v, k);
        var d := src[off + k];
        var a, b := if Bit(d, 1) then fg else bg, if Bit(d, 3) then fg else bg;
        var c, e := if Bit(d, 5) then fg else bg, if Bit(d, 7) then fg else bg;
        EmitCell(k, s, pal, a, a, b, b, c, c, e, e);
      }
    }

    // `render_coco_text`: alphanumerics and semigraphics, decided per byte.
    method RenderCocoText(src: array<u8>, off: nat, n: nat, ghost s: seq<u8>, pal: seq<P>)
      requires Ready(src, off, n, s, pal) && v.coco && !v.gna
      modifies line
      ensures Upto(n, s, pal)
    {
      hide Bit, Upto, Cells, LineFits;
      var row := v.row % 16;
      var invertAll := v.gm1 != v.inverted;
      var fg, bg, back := pal[TextFg(v)], pal[TextBg(v)], pal[8];
      NoneYet(s, pal);
      for k := 0 to n
        invariant Upto(k, s, pal)
      {
        CellRoom(v, k);
        var d := src[off + k];
        if d >= 0x80 {
          var half := if row < 6 then d / 4 else d;
          var fore := pal[d / 16 % 8];
          var a, b := if Bit(half, 6) then fore else back, if Bit(half, 7) then fore else back;
          EmitCell(k, s, pal, a, a, a, a, b, b, b, b);
        } else {
          var invert, c: nat := d >= 0x40, d;
          if c < 0x20 {
            c := c + if v.gm0 then 0x60 else 0x40;
            invert := invert != v.gm0;
          } else if c >= 0x60 {
            c := c - 0x40;
          }
          var g := font(c * 12 + row);
          if invert != invertAll { g := 255 - g; }
          assert g == VdgGlyph(v, font, d);
          EmitBits8(k, s, pal, g, fg, bg);
        }
      }
    }

    // `render_native_gfx`
    method RenderNativeGfx(src: array<u8>, off: nat, n: nat, ghost s: seq<u8>, pal: seq<P>)
      requires Ready(src, off, n, s, pal) && !v.coco && v.bp
      modifies line
      ensures Upto(n, s, pal)
    {
      hide Bit, BitPair, Nibble, Upto, Cells, LineFits;
      assert |s| == n;
      NoneYet(s, pal);
      for k := 0 to n
        invariant Upto(k, s, pal)
      {
        CellRoom(v, k);
        var d := src[off + k];
        if v.cres == 0 {
          EmitCell(k, s, pal, pal[BitValue(d, 0)], pal[BitValue(d, 1)], pal[BitValue(d, 2)], pal[BitValue(d, 3)],
                   pal[BitValue(d, 4)], pal[BitValue(d, 5)], pal[BitValue(d, 6)], pal[BitValue(d, 7)]);
        } else if v.cres == 1 {
          Pairs(d);
          var a, b := pal[BitPair(d, 0)], pal[BitPair(d, 2)];
          var c, e := pal[BitPair(d, 4)], pal[BitPair(d, 6)];
          EmitCell(k, s, pal, a, a, b, b, c, c, e, e);
        } else {
          assert d == var raw := s[k]; if ZeroOdd(v) && k % 2 == 1 then 0 else raw;
          NibbleDots(v, font, s, k, d);
          var a, b := pal[Nibble(d, 0)], pal[Nibble(d, 4)];
          EmitCell(k, s, pal, a, a, a, a, b, b, b, b);
        }
      }
    }

    // `render_line`: one loop per mode; the odd 16-colour mode is first copied with its second bytes zeroed.
    method RenderLine(src0: array<u8>, off0: nat, n: nat, ghost s: seq<u8>, pal: seq<P>)
      requires Fetched(src0, off0, n, s, pal)
      modifies line, staged
      ensures Upto(n, s, pal)
    {
      hide Upto, Cells, Rg6, Ready, Fetched;
      if !ZeroOdd(v) { FetchedReady(src0, off0, n, s, pal); }
      PalSize(src0, off0, n, s, pal);
      var src, off := src0, off0;
      if v.coco {
        if v.gna {
          if !v.gm0 { RenderCocoCg(src, off, n, s, pal); }
          else if v.resolution != 0 || Rg6(v) { RenderCocoRg(src, off, n, s, pal); }
          else { RenderCocoRg2(src, off, n, s, pal); }
        } else { RenderCocoText(src, off, n, s, pal); }
      } else if v.bp {
        if v.hres == 0 && v.cres >= 2 {
          ZeroOddBytes(src, off, n, s, pal);
          src, off := staged, 0;
        }
        RenderNativeGfx(src, off, n, s, pal);
      } else { RenderNativeText(src, off, n, s, pal); }
    }

    // `render_native_text`, with and without attribute bytes
    method RenderNativeText(src: array<u8>, off: nat, n: nat, ghost s: seq<u8>, pal: seq<P>)
      requires Ready(src, off, n, s, pal) && !v.coco && !v.bp
      modifies line
      ensures Upto(n, s, pal)
    {
      hide Bit, Upto, Cells, LineFits;
      var fontRow := FontRow(v);
      var underline := v.row == UNDERLINE_ROW[v.lpr];
      var at := off;
      NoneYet(s, pal);
      for k := 0 to n
        invariant at == off + CellBytes(v) * k
        invariant Upto(k, s, pal)
      {
        CellRoom(v, k);
        var ch: nat := src[at] % 128;
        var g := font(ch * 12 + fontRow);
        if v.cres % 2 == 1 {
          var attr := src[at + 1];
          at := at + 2;
          var fg, bg := 8 + attr / 8 % 8, attr % 8;
          if attr >= 0x80 && v.blink { fg := bg; }
          if attr / 64 % 2 == 1 && underline { g := 0xFF; }
          AllOnes();
          EmitBits8(k, s, pal, g, pal[fg], pal[bg]);
        } else {
          at := at + 1;
          EmitBits8(k, s, pal, g, pal[1], pal[0]);
        }
      }
    }

    /** `tcc1014_render_scanline`: fetch, then render; the same line as the reference paints. */
    method RenderScanline(pal: seq<P>)
      requires Valid() && |pal| == 16
      modifies this`width, line, staged
      ensures !active ==> line[..] == old(line[..]) && width == old(width)
      ensures active ==> width <= 640 && line[..width] == Line(v, font, ram[..], pal)
    {
      if !active { return; }
      hide LineByte, Pixels, Upto, Fetched, LineBytes, Cells, LineFits, Line, CellBytes;
      var n := v.bpr;
      var most := 640 / PerCell(v.resolution);
      if n > most { n := most; }
      CellsAre(n);
      width := n * PerCell(v.resolution);
      RenderCells(n, pal);
      AllCells(LineBytes(v, ram[..]), pal);
    }

    // Fetch and paint.
    method RenderCells(n: nat, pal: seq<P>)
      requires Valid() && |pal| == 16 && n == Cells(v) && CellBytes(v) * n <= 160
      modifies line, staged
      ensures Valid() && Upto(n, LineBytes(v, ram[..]), pal) && ram[..] == old(ram[..])
    {
      hide LineByte, Pixels, Upto, Fetched, LineBytes, Cells, LineFits, PerCell;
      var nbytes := if !v.coco && !v.bp && v.cres % 2 == 1 then 2 * n else n;
      var src, off := FetchLineBytes(nbytes);
      ghost var s := LineBytes(v, ram[..]);
      FetchedLine(src, off, n, s, pal);
      RenderLine(src, off, n, s, pal);
    }

    lemma CellsAre(n: nat)
      requires Valid() && n == var most := 640 / PerCell(v.resolution); if v.bpr > most then most else v.bpr
      ensures n == Cells(v) && CellBytes(v) * n <= 160
    {
    }

    lemma FetchedLine(src: array<u8>, off: nat, n: nat, s: seq<u8>, pal: seq<P>)
      requires Valid() && |pal| == 16 && n == Cells(v) && s == LineBytes(v, ram[..])
      requires (src == ram || (src == staged && off == 0)) && off + CellBytes(v) * n <= src.Length
      requires forall k :: 0 <= k < CellBytes(v) * n ==> src[off + k] == LineByte(v, ram[..], k)
      ensures Fetched(src, off, n, s, pal)
    {
      hide LineByte;
      CellsBound(v);
    }

    lemma AllCells(s: seq<u8>, pal: seq<P>)
      requires Valid() && |pal| == 16 && Upto(Cells(v), s, pal) && s == LineBytes(v, ram[..])
      ensures Cells(v) * PerCell(v.resolution) <= 640
      ensures line[..Cells(v) * PerCell(v.resolution)] == Line(v, font, ram[..], pal)
    {
    }
  }

  lemma NibbleDots(v: Video, font: Font, s: seq<u8>, k: nat, d: u8)
    requires k < |s| && !v.coco && v.bp && v.cres >= 2
    requires d == if ZeroOdd(v) && k % 2 == 1 then 0 else s[k]
    ensures forall i: nat | i < 8 :: DotSlot(v, font, s, k, i) == if i < 4 then Nibble(d, 0) else Nibble(d, 4)
  {
  }

  lemma Pairs(d: u8)
    ensures BitPair(d, 1) == BitPair(d, 0) && BitPair(d, 3) == BitPair(d, 2)
    ensures BitPair(d, 5) == BitPair(d, 4) && BitPair(d, 7) == BitPair(d, 6)
  {
  }

  lemma DirectByte(v: Video, a: nat, k: nat)
    requires InBank(v, a) + k < v.bank
    ensures InBank(v, a + k) == InBank(v, a) + k
  {
  }

  lemma LineBytesAre(v: Video, mem: seq<u8>, k: nat)
    requires v.base + v.bank <= |mem| && k < Cells(v)
    ensures |LineBytes(v, mem)| == CellBytes(v) * Cells(v)
    ensures CellBytes(v) * k + CellBytes(v) == CellBytes(v) * (k + 1) <= |LineBytes(v, mem)|
    ensures LineBytes(v, mem)[CellBytes(v) * k] == LineByte(v, mem, CellBytes(v) * k)
    ensures Attributes(v) ==> LineBytes(v, mem)[2 * k + 1] == LineByte(v, mem, 2 * k + 1)
  {
    hide LineByte;
  }
}
