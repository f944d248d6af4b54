/** What a GIME scanline looks like, pixel by pixel (src/core/tcc1014.cpp).

    `GimeRender` describes a line by cells, dots and palette slots, and both renderers paint that
    line. Here every pixel is traced straight back to bits of video memory, in numbers: which byte, which of
    its bits, which palette entry, in each of the video modes. */
module GimePicture {
  import opened Words
  import opened GimeRender

  /** Pixels a byte (in text modes a character) becomes. */
  function PixelsPerByte(v: Video): nat { [32, 16, 8, 4][v.resolution] }

  /** Byte `q` of the line: 256 bytes around the offset, wrapped in the video bank. */
  function Memory(v: Video, mem: seq<u8>, q: nat): u8
    requires v.base + v.bank <= |mem|
  {
    mem[v.base + (v.b + ((if v.coco then 0 else v.x) + q) % 0x100) % v.bank]
  }

  // Dot of its cell, of eight, that pixel `p` shows.
  function DotOf(v: Video, p: nat): (i: nat)
    ensures i < 8
  {
    match v.resolution
    case 0 => p % 32 / 4
    case 1 => p % 16 / 2
    case 2 => p % 8
    case _ => p % 4 * 2
  }

  // Bit `i` of a byte, 0 the leftmost.
  function BitOf(d: u8, i: nat): nat
    requires i < 8
  {
    d / [128, 64, 32, 16, 8, 4, 2, 1][i] % 2
  }

  lemma BitsAgree(d: u8, i: nat)
    requires i < 8
    ensures Bit(d, i) <==> BitOf(d, i) == 1
    ensures BitPair(d, i) == d / [64, 16, 4, 1][i / 2] % 4
    ensures Nibble(d, i) == d / [16, 1][i / 4] % 16
  {
    hide Bit, BitPair, Nibble, BitOf;
    OneBit(d, i);
    TwoBits(d, i);
    FourBits(d, i);
  }

  lemma OneBit(d: u8, i: nat)
    requires i < 8
    ensures Bit(d, i) <==> BitOf(d, i) == 1
  {
  }

  lemma TwoBits(d: u8, i: nat)
    requires i < 8
    ensures BitPair(d, i) == d / [64, 16, 4, 1][i / 2] % 4
  {
    assert d / 64 < 4;
    match i / 2
    case 0 => assert BitPair(d, i) == d / 64;
    case 1 => assert BitPair(d, i) == d / 16 % 4;
    case 2 => assert BitPair(d, i) == d / 4 % 4;
    case _ => assert BitPair(d, i) == d % 4;
  }

  lemma FourBits(d: u8, i: nat)
    requires i < 8
    ensures Nibble(d, i) == d / [16, 1][i / 4] % 16
  {
    assert d / 16 < 16;
  }

  lemma BytesAgree(v: Video, mem: seq<u8>, q: nat)
    requires v.base + v.bank <= |mem| && q < |LineBytes(v, mem)|
    ensures LineBytes(v, mem)[q] == Memory(v, mem, q)
  {
  }

  // The cell and the dot a pixel of the line belongs to.
  lemma PixelOf<P>(v: Video, font: Font, mem: seq<u8>, pal: seq<P>, p: nat)
    requires v.base + v.bank <= |mem| && |pal| == 16 && p < |Line(v, font, mem, pal)|
    ensures var k := p / PixelsPerByte(v);
      && k < Cells(v) && CellBytes(v) * k + CellBytes(v) <= |LineBytes(v, mem)|
      && Line(v, font, mem, pal)[p] == pal[DotSlot(v, font, LineBytes(v, mem), k, DotOf(v, p))]
      && LineBytes(v, mem)[CellBytes(v) * k] == Memory(v, mem, CellBytes(v) * k)
      && (Attributes(v) ==> LineBytes(v, mem)[2 * k + 1] == Memory(v, mem, 2 * k + 1))
  {
    hide DotSlot, LineBytes, Memory, Cells, InBank;
    var n := PixelsPerByte(v);
    assert PerCell(v.resolution) == n;
    var k, j := p / n, p % n;
    InLine(p, n, Cells(v));
    LineBytesAre(v, mem, k);
    PixelAt(v, font, LineBytes(v, mem), pal, Cells(v), k, j);
    BytesAgree(v, mem, CellBytes(v) * k);
    if Attributes(v) { BytesAgree(v, mem, 2 * k + 1); }
  }

  lemma InLine(p: nat, n: nat, cells: nat)
    requires n == 32 || n == 16 || n == 8 || n == 4
    requires p < cells * n
    ensures p / n < cells && p / n * n + p % n == p
  {
  }

  /** The line is as wide as the registers say. */
  lemma LineWidth<P>(v: Video, samV: nat, font: Font, mem: seq<u8>, pal: seq<P>)
    requires Geometry(v, samV) && v.base + v.bank <= |mem| && |pal| == 16
    ensures |Line(v, font, mem, pal)| == if !v.coco && v.hres % 2 == 1 then 640 else 512
    ensures PixelsPerByte(v) ==
            if v.coco then (if v.gna && samV % 2 == 1 then 32 else 16)
            else if v.bp then [32, 16, 8, 4][v.hres / 2] else if v.hres >= 4 then 8 else 16
  {
    hide DotSlot, LineBytes, ModeByte;
  }

  // ------------------------------------------------------------------
  // Native modes
  // ------------------------------------------------------------------

  /** Graphics: one bit, two bits or four bits of the byte select the palette entry, by CRES. Of the
      16-colour lines of 16 bytes every second byte shows entry 0. */
  lemma NativeGraphics<P>(v: Video, font: Font, mem: seq<u8>, pal: seq<P>, p: nat)
    requires !v.coco && v.bp
    requires v.base + v.bank <= |mem| && |pal| == 16 && p < |Line(v, font, mem, pal)|
    ensures var k, i := p / PixelsPerByte(v), DotOf(v, p);
      var d := Memory(v, mem, k);
      Line(v, font, mem, pal)[p] == pal[
        if v.cres == 0 then BitOf(d, i)
        else if v.cres == 1 then d / [64, 16, 4, 1][i / 2] % 4
        else if v.hres == 0 && k % 2 == 1 then 0
        else d / [16, 1][i / 4] % 16]
  {
    hide Line, LineBytes, Memory, Bit, BitPair, Nibble;
    PixelOf(v, font, mem, pal, p);
    BitsAgree(Memory(v, mem, p / PixelsPerByte(v)), DotOf(v, p));
    if v.hres == 0 { BitsAgree(0, DotOf(v, p)); }
  }

  // Line of the font a text row shows: one more than the row, none below the glyph.
  function GlyphLine(v: Video): nat { if v.row % 16 < 11 then v.row % 16 + 1 else 0 }

  /** Text: the character's glyph, 12 lines of eight dots, in entry 1 on 0; with attributes in the
      foreground (entries 8 to 15) on the background (0 to 7) they name, as background while blinking is off
      phase, and all foreground on the underline row of its line height. */
  lemma NativeText<P>(v: Video, font: Font, mem: seq<u8>, pal: seq<P>, p: nat)
    requires !v.coco && !v.bp
    requires v.base + v.bank <= |mem| && |pal| == 16 && p < |Line(v, font, mem, pal)|
    ensures var k, i := p / PixelsPerByte(v), DotOf(v, p);
      if v.cres % 2 == 0 then
        Line(v, font, mem, pal)[p] == pal[BitOf(font(Memory(v, mem, k) % 128 * 12 + GlyphLine(v)), i)]
      else
        var a := Memory(v, mem, 2 * k + 1);
        var lit := BitOf(font(Memory(v, mem, 2 * k) % 128 * 12 + GlyphLine(v)), i) == 1 ||
                   (64 <= a % 128 && ((v.lpr == 3 && v.row == 7) || ((v.lpr == 4 || v.lpr == 5) && v.row == 8) ||
                                      (v.lpr == 6 && v.row == 9)));
        Line(v, font, mem, pal)[p] == pal[if lit && !(a >= 128 && v.blink) then 8 + a % 64 / 8 else a % 8]
  {
    hide Line, LineBytes, Memory, Bit;
    PixelOf(v, font, mem, pal, p);
    var k := p / PixelsPerByte(v);
    GlyphLineIs(v);
    BitsAgree(font(Memory(v, mem, CellBytes(v) * k) % 128 * 12 + GlyphLine(v)), DotOf(v, p));
    AttributeBits(Memory(v, mem, 2 * k + 1));
  }

  lemma GlyphLineIs(v: Video)
    ensures FontRow(v) == GlyphLine(v)
  {
  }

  lemma AttributeBits(a: u8)
    ensures a / 64 % 2 == 1 <==> 64 <= a % 128
    ensures a / 8 % 8 == a % 64 / 8
  {
    var q, r := a / 64, a % 64;
    assert a == 64 * q + r;
    Fields(q, r);
    assert a / 8 == 8 * q + r / 8;
  }

  lemma Fields(q: nat, r: nat)
    requires q < 4 && r < 64
    ensures (64 * q + r) % 128 == if q % 2 == 1 then 64 + r else r
  {
  }

  // ------------------------------------------------------------------
  // VDG modes
  // ------------------------------------------------------------------

  /** Graphics with GM0 clear: two bits select one of four entries, from 0 or, with CSS, from 4. */
  lemma VdgColours<P>(v: Video, font: Font, mem: seq<u8>, pal: seq<P>, p: nat)
    requires v.coco && v.gna && !v.gm0
    requires v.base + v.bank <= |mem| && |pal| == 16 && p < |Line(v, font, mem, pal)|
    ensures Line(v, font, mem, pal)[p] ==
            pal[(if v.css then 4 else 0) + Memory(v, mem, p / PixelsPerByte(v)) / [64, 16, 4, 1][DotOf(v, p) / 2] % 4]
  {
    hide Line, LineBytes, Memory, Bit, BitPair, Nibble;
    PixelOf(v, font, mem, pal, p);
    BitsAgree(Memory(v, mem, p / PixelsPerByte(v)), DotOf(v, p));
  }

  /** Graphics with GM0 set: one bit selects entry 9 on 8 or, with CSS, 11 on 10. At 16 bytes a row, except
      with GM2 and GM1 set too, the right bit of each pair is shown for both. */
  lemma VdgDots<P>(v: Video, font: Font, mem: seq<u8>, pal: seq<P>, p: nat)
    requires v.coco && v.gna && v.gm0
    requires v.base + v.bank <= |mem| && |pal| == 16 && p < |Line(v, font, mem, pal)|
    ensures var i := DotOf(v, p);
      var shown := if v.resolution == 0 && v.pdr % 128 < 112 && i % 2 == 0 then i + 1 else i;
      Line(v, font, mem, pal)[p] ==
      pal[(if v.css then 10 else 8) + BitOf(Memory(v, mem, p / PixelsPerByte(v)), shown)]
  {
    hide Line, LineBytes, Memory, Bit, BitPair, Nibble, BitOf;
    PixelOf(v, font, mem, pal, p);
    var d, i := Memory(v, mem, p / PixelsPerByte(v)), DotOf(v, p);
    BitsAgree(d, i);
    BitsAgree(d, i / 2 * 2 + 1);
    BitIsOne(d, i);
    BitIsOne(d, i / 2 * 2 + 1);
    AllModeBits(v.pdr);
  }

  lemma BitIsOne(d: u8, i: nat)
    requires i < 8
    ensures BitOf(d, i) == 0 || BitOf(d, i) == 1
  {
  }

  lemma AllModeBits(pdr: u8)
    ensures pdr / 16 % 8 == 7 <==> pdr % 128 >= 112
  {
  }

  /** Semigraphics: a block of four quadrants, upper left, upper right, lower left and lower right lit by
      bits 3 to 0, in one of eight entries on entry 8. */
  lemma VdgBlocks<P>(v: Video, font: Font, mem: seq<u8>, pal: seq<P>, p: nat)
    requires v.coco && !v.gna
    requires v.base + v.bank <= |mem| && |pal| == 16 && p < |Line(v, font, mem, pal)|
    ensures var d, right := Memory(v, mem, p / PixelsPerByte(v)), DotOf(v, p) >= 4;
      d >= 0x80 ==>
        Line(v, font, mem, pal)[p] ==
        pal[var quadrant := if v.row % 16 < 6 then (if right then 4 else 8) else if right then 1 else 2;
            if d / quadrant % 2 == 1 then d % 128 / 16 else 8]
  {
    hide Line, LineBytes, Memory, BitPair, Nibble, VdgGlyph;
    PixelOf(v, font, mem, pal, p);
    Quadrants(Memory(v, mem, p / PixelsPerByte(v)));
  }

  lemma Quadrants(d: u8)
    ensures d / 4 / 2 == d / 8 && (d >= 128 ==> d / 16 % 8 == d % 128 / 16)
  {
  }

  // Code of the glyph a character shows: 0 to 31 lie in the upper or, with GM0, the lower case.
  function GlyphOf(v: Video, d: u8): nat {
    if d < 0x20 then (if v.gm0 then 0x60 + d else 0x40 + d) else if d < 0x60 then d else d - 0x40
  }

  function One(b: bool): nat { if b then 1 else 0 }

  /** Text: the glyph in entry 13 on 12 or, with CSS, 15 on 14. Four things invert it: the byte's bit 6, GM1,
      lower case and the inversion of the whole screen. */
  lemma VdgText<P>(v: Video, font: Font, mem: seq<u8>, pal: seq<P>, p: nat)
    requires v.coco && !v.gna
    requires v.base + v.bank <= |mem| && |pal| == 16 && p < |Line(v, font, mem, pal)|
    ensures var d := Memory(v, mem, p / PixelsPerByte(v));
      d < 0x80 ==>
        var inversions := One(d >= 0x40) + One(v.gm1) + One(d < 0x20 && v.gm0) + One(v.inverted);
        Line(v, font, mem, pal)[p] ==
        pal[(if v.css then 14 else 12)
            + (BitOf(font(GlyphOf(v, d) * 12 + v.row % 16), DotOf(v, p)) + inversions) % 2]
  {
    hide Line, LineBytes, Memory, Bit, BitPair, Nibble, BitOf;
    PixelOf(v, font, mem, pal, p);
    var d, i := Memory(v, mem, p / PixelsPerByte(v)), DotOf(v, p);
    if d < 0x80 {
      var g := font(GlyphOf(v, d) * 12 + v.row % 16);
      BitsAgree(g, i);
      BitIsOne(g, i);
      Complement(g, i);
    }
  }

  lemma Complement(g: u8, i: nat)
    requires i < 8
    ensures Bit(255 - g, i) <==> !Bit(g, i)
  {
    if i < 4 { ComplementLeft(g, i); } else { ComplementRight(g, i); }
  }

  lemma ComplementLeft(g: u8, i: nat)
    requires i < 4
    ensures Bit(255 - g, i) <==> !Bit(g, i)
  {
    match i
    case 0 => assert (255 - g) / 128 == 1 - g / 128;
    case 1 => assert (255 - g) / 64 == 3 - g / 64;
    case 2 => assert (255 - g) / 32 == 7 - g / 32;
    case _ => assert (255 - g) / 16 == 15 - g / 16;
  }

  lemma ComplementRight(g: u8, i: nat)
    requires 4 <= i < 8
    ensures Bit(255 - g, i) <==> !Bit(g, i)
  {
    match i
    case 4 => assert (255 - g) / 8 == 31 - g / 8;
    case 5 => assert (255 - g) / 4 == 63 - g / 4;
    case 6 => assert (255 - g) / 2 == 127 - g / 2;
    case _ =>
  }
}
