/** The PNG encoder for screenshots (src/net/png_writer.cpp): a 24-bit image whose compressed data is a
    zlib stream of stored blocks. A decoder written from the standards (section 2.2 of RFC 1950,
    section 3.2.4 of RFC 1951, and the chunk layout of the PNG specification) gets back every pixel. */
module PngWriter {
  import opened Checksums
  import opened Words

  const BLOCK := 65535

  // ------------------------------------------------------------------
  // Checksums and byte order
  // ------------------------------------------------------------------

  /** CRC-32 of a chunk's type and data. */
  function Crc(s: seq<u8>): u32 { Inverted(CrcFrom(0xFFFF_FFFF, s)) }

  function Inverted(c: bv32): u32 { (c ^ 0xFFFF_FFFF) as int }

  const ADLER := 65521

  function Sum(s: seq<u8>): nat { if s == [] then 0 else Sum(s[..|s| - 1]) + s[|s| - 1] }

  // Sum of the running sums, each started at 1.
  function SumOfSums(s: seq<u8>): nat { if s == [] then 0 else SumOfSums(s[..|s| - 1]) + 1 + Sum(s) }

  /** Adler-32 as section 2.2 of RFC 1950 defines it: both sums modulo 65521. */
  function Adler(s: seq<u8>): u32 { SumOfSums(s) % ADLER * 0x1_0000 + (1 + Sum(s)) % ADLER }

  // Every byte as often as it is from the end, itself included.
  function Weighted(s: seq<u8>): nat { if s == [] then 0 else |s| * s[0] + Weighted(s[1..]) }

  lemma {:induction false} WeightedMore(s: seq<u8>, v: u8)
    ensures Weighted(s + [v]) == Weighted(s) + Sum(s) + v
    decreases |s|
  {
    if s == [] {
      assert [] + [v] == [v] && [v][1..] == [];
    } else {
      assert (s + [v])[1..] == s[1..] + [v];
      WeightedMore(s[1..], v);
      SumFront(s);
      assert (|s| + 1) * s[0] == |s| * s[0] + s[0];
    }
  }

  lemma {:induction false} SumFront(s: seq<u8>)
    requires s != []
    ensures Sum(s) == s[0] + Sum(s[1..])
    decreases |s|
  {
    if |s| > 1 {
      var n := |s| - 1;
      SumFront(s[..n]);
      assert s[..n][1..] == s[1..][..n - 1];
    } else {
      assert s[..0] == [] && s[1..] == [];
    }
  }

  lemma {:induction false} SumOfSumsIs(s: seq<u8>)
    ensures SumOfSums(s) == |s| + Weighted(s)
    decreases |s|
  {
    if s != [] {
      var n := |s| - 1;
      SumOfSumsIs(s[..n]);
      WeightedMore(s[..n], s[n]);
      assert s[..n] + [s[n]] == s;
    }
  }

  /** Its two halves in closed form: one plus the sum of the bytes, and the length plus every byte times its distance
      from the end, both modulo 65521. */
  lemma AdlerHalves(s: seq<u8>)
    ensures Adler(s) == (|s| + Weighted(s)) % 65521 * 65536 + (1 + Sum(s)) % 65521
  {
    SumOfSumsIs(s);
  }

  function Be32(v: u32): (s: seq<u8>)
    ensures |s| == 4
  {
    [v / 0x100_0000, v / 0x1_0000 % 0x100, v / 0x100 % 0x100, v % 0x100]
  }

  function FromBe32(s: seq<u8>): u32
    requires |s| == 4
  {
    var a: nat, b: nat, c: nat, d: nat := s[0], s[1], s[2], s[3];
    a * 0x100_0000 + b * 0x1_0000 + c * 0x100 + d
  }

  lemma Be32RoundTrip(v: u32)
    ensures FromBe32(Be32(v)) == v
  {
    var hi, lo := v / 0x1_0000, v % 0x1_0000;
    assert v == hi * 0x1_0000 + lo;
    WordSplit(hi, lo);
    assert hi == hi / 0x100 * 0x100 + hi % 0x100 && lo == lo / 0x100 * 0x100 + lo % 0x100;
  }

  lemma WordSplit(hi: u16, lo: u16)
    ensures var v := hi * 0x1_0000 + lo;
      v / 0x100_0000 == hi / 0x100 && v / 0x1_0000 % 0x100 == hi % 0x100
      && v / 0x100 % 0x100 == lo / 0x100 && v % 0x100 == lo % 0x100
  {
  }

  // ------------------------------------------------------------------
  // What is encoded
  // ------------------------------------------------------------------

  type Row = seq<u16>

  function Swapped(v: u16): u16 { v % 0x100 * 0x100 + v / 0x100 }

  /** A byte-swapped RGB565 pixel as three bytes. */
  function Rgb(v: u16): (s: seq<u8>)
    ensures |s| == 3
  {
    var p := Swapped(v);
    var r, g, b := p / 2048, p / 32 % 64, p % 32;
    [r * 8 + r / 4, g * 4 + g / 16, b * 8 + b / 4]
  }

  function Pixels(row: Row): (s: seq<u8>)
    ensures |s| == 3 * |row|
  {
    if row == [] then [] else Pixels(row[..|row| - 1]) + Rgb(row[|row| - 1])
  }

  function Raw(rows: seq<Row>): seq<u8> {
    if rows == [] then [] else Raw(rows[..|rows| - 1]) + [0] + Pixels(rows[|rows| - 1])
  }

  function Blocks(raw: seq<u8>): (s: seq<u8>)
    requires |raw| > 0
    decreases |raw|
  {
    var k := if |raw| > BLOCK then BLOCK else |raw|;
    Header(k, k == |raw|) + raw[..k] + (if k < |raw| then Blocks(raw[k..]) else [])
  }

  // A stored block's header: the final flag, the length and its complement.
  function Header(k: nat, final: bool): (s: seq<u8>)
    requires k <= BLOCK
    ensures |s| == 5
  {
    var n := BLOCK - k;
    [if final then 1 else 0, k % 0x100, k / 0x100, n % 0x100, n / 0x100]
  }

  function Zlib(raw: seq<u8>): seq<u8>
    requires |raw| > 0
  {
    [0x78, 0x01] + Blocks(raw) + Be32(Adler(raw))
  }

  function Chunk(kind: seq<u8>, data: seq<u8>): seq<u8>
    requires |data| < 0x1_0000_0000
  {
    Be32(|data|) + kind + data + Be32(Crc(kind + data))
  }

  const SIGNATURE: seq<u8> := [137, 80, 78, 71, 13, 10, 26, 10]
  const IHDR: seq<u8> := [0x49, 0x48, 0x44, 0x52]
  const IDAT: seq<u8> := [0x49, 0x44, 0x41, 0x54]
  const IEND: seq<u8> := [0x49, 0x45, 0x4E, 0x44]

  function ImageHeader(w: u32, h: u32): (s: seq<u8>)
    ensures |s| == 13
  {
    Be32(w) + Be32(h) + [8, 2, 0, 0, 0]
  }

  predicate Image(rows: seq<Row>, w: nat, h: nat) {
    0 < w < 0x1_0000_0000 && 0 < h < 0x1_0000_0000 && |rows| == h && forall y :: 0 <= y < h ==> |rows[y]| == w
  }

  function Png(rows: seq<Row>, w: u32, h: u32): seq<u8>
    requires |Raw(rows)| > 0 && |Zlib(Raw(rows))| < 0x1_0000_0000
  {
    SIGNATURE + Chunk(IHDR, ImageHeader(w, h)) + Chunk(IDAT, Zlib(Raw(rows))) + Chunk(IEND, [])
  }

  // ------------------------------------------------------------------
  // Sizes
  // ------------------------------------------------------------------

  function BlockCount(n: nat): nat { (n + 65534) / 65535 }

  lemma {:induction false} BlocksSize(raw: seq<u8>)
    requires |raw| > 0
    ensures |Blocks(raw)| == |raw| + 5 * BlockCount(|raw|)
    decreases |raw|
  {
    if |raw| > BLOCK {
      BlocksSize(raw[BLOCK..]);
      OneBlockMore(|raw|);
    }
  }

  lemma OneBlockMore(n: nat)
    requires n > BLOCK
    ensures BlockCount(n) == BlockCount(n - BLOCK) + 1
  {
    assert n + 65534 == (n - 65535 + 65534) + 65535;
  }

  /** Bytes of `h` scanlines of `w` pixels, each with its filter byte. */
  function RawLength(w: nat, h: nat): (n: nat)
    ensures h > 0 ==> n > 0
    decreases h
  {
    if h == 0 then 0 else RawLength(w, h - 1) + (1 + 3 * w)
  }

  lemma {:induction false} RawSize(rows: seq<Row>, w: nat)
    requires forall y :: 0 <= y < |rows| ==> |rows[y]| == w
    ensures |Raw(rows)| == RawLength(w, |rows|)
    decreases |rows|
  {
    if rows != [] { RawSize(rows[..|rows| - 1], w); }
  }

  // The encoder's `idat_len` and `out_cap`.
  function IdatLength(n: nat): nat { 2 + BlockCount(n) * 5 + n + 4 }

  function Capacity(n: nat): nat { 8 + (12 + 13) + (12 + IdatLength(n)) + 12 + 16 }

  /** The length written before the data is the length of the data, and everything fits the buffer. */
  lemma SizesExact(rows: seq<Row>, w: nat, h: nat)
    requires Image(rows, w, h)
    ensures var n := RawLength(w, h);
      && |Raw(rows)| == n > 0 && |Zlib(Raw(rows))| == IdatLength(n)
      && (IdatLength(n) < 0x1_0000_0000 ==> |Png(rows, w, h)| == Capacity(n) - 16)
  {
    hide Blocks, Adler, Crc, Raw;
    RawSize(rows, w);
    BlocksSize(Raw(rows));
  }

  // ------------------------------------------------------------------
  // A decoder
  // ------------------------------------------------------------------

  /** Stored blocks of a deflate stream, up to the one marked final; with what follows them. */
  function Inflate(s: seq<u8>): Option<(seq<u8>, seq<u8>)>
    decreases |s|
  {
    if |s| < 5 || s[0] / 2 % 4 != 0 then None
    else
      var len := s[1] as int + 0x100 * (s[2] as int);
      var nlen := s[3] as int + 0x100 * (s[4] as int);
      if len + nlen != BLOCK || |s| < 5 + len then None
      else
        var data, rest := s[5..5 + len], s[5 + len..];
        if s[0] % 2 == 1 then Some((data, rest))
        else match Inflate(rest)
          case None => None
          case Some(more) => Some((data + more.0, more.1))
  }

  /** A zlib stream: compression method 8, header checksum, no dictionary, Adler-32 of the data. */
  function Unzlib(s: seq<u8>): Option<seq<u8>> {
    if |s| < 2 || s[0] % 16 != 8 || (s[0] as int * 0x100 + s[1]) % 31 != 0 || s[1] / 32 % 2 != 0 then None
    else match Inflate(s[2..])
      case None => None
      case Some(d) => if d.1 == Be32(Adler(d.0)) then Some(d.0) else None
  }

  /** A chunk of the wanted kind, its length and CRC checked; with what follows it. */
  function ReadChunk(s: seq<u8>, kind: seq<u8>): Option<(seq<u8>, seq<u8>)>
    requires |kind| == 4
  {
    if |s| < 12 then None
    else
      var len := FromBe32(s[..4]);
      if |s| < 12 + len || s[4..8] != kind then None
      else
        var data := s[8..8 + len];
        if s[8 + len..12 + len] != Be32(Crc(kind + data)) then None else Some((data, s[12 + len..]))
  }

  // Three bytes back to a byte-swapped RGB565 pixel: the high bits of each.
  function Pixel(r: u8, g: u8, b: u8): u16 { Swapped(r / 8 * 2048 + g / 4 * 32 + b / 8) }

  function RowOf(s: seq<u8>): (r: Row)
    decreases |s|
  {
    if |s| < 3 then [] else RowOf(s[..|s| - 3]) + [Pixel(s[|s| - 3], s[|s| - 2], s[|s| - 1])]
  }

  // Unfiltered scanlines of `w` pixels, `h` of them and nothing more.
  function RowsOf(s: seq<u8>, w: nat, h: nat): Option<seq<Row>>
    decreases h
  {
    if h == 0 then (if s == [] then Some([]) else None)
    else
      var n := |s| - 3 * w - 1;
      if n < 0 || s[n] != 0 then None
      else match RowsOf(s[..n], w, h - 1)
        case None => None
        case Some(rows) => Some(rows + [RowOf(s[n + 1..])])
  }

  /** Decode an 8-bit truecolour PNG: header, one image data chunk, end. */
  function Decode(s: seq<u8>): Option<(nat, nat, seq<Row>)> {
    if |s| < 8 || s[..8] != SIGNATURE then None
    else match ReadChunk(s[8..], IHDR)
      case None => None
      case Some(head) =>
        if |head.0| != 13 || head.0[8..] != [8, 2, 0, 0, 0] then None
        else
          var w, h := FromBe32(head.0[..4]), FromBe32(head.0[4..8]);
          match ReadChunk(head.1, IDAT)
          case None => None
          case Some(body) =>
            match ReadChunk(body.1, IEND)
            case None => None
            case Some(end) =>
              if end != ([], []) then None
              else match Unzlib(body.0)
                case None => None
                case Some(raw) => (match RowsOf(raw, w, h) case None => None case Some(rows) => Some((w, h, rows)))
  }

  // ------------------------------------------------------------------
  // Decoding what was encoded
  // ------------------------------------------------------------------

  lemma SwapTwice(v: u16)
    ensures Swapped(Swapped(v)) == v
  {
    var hi, lo := v / 0x100, v % 0x100;
    assert v == hi * 0x100 + lo;
    SplitWord(lo, hi);
  }

  lemma SplitWord(hi: nat, lo: nat)
    requires hi < 0x100 && lo < 0x100
    ensures (hi * 0x100 + lo) / 0x100 == hi && (hi * 0x100 + lo) % 0x100 == lo
  {
  }

  lemma FiveBits(x: nat)
    requires x < 32
    ensures (x * 8 + x / 4) / 8 == x
  {
  }

  lemma SixBits(x: nat)
    requires x < 64
    ensures (x * 4 + x / 16) / 4 == x
  {
  }

  /** No colour is lost: the five and six bits of each component are the high bits of its byte. */
  lemma PixelRoundTrip(v: u16)
    ensures Pixel(Rgb(v)[0], Rgb(v)[1], Rgb(v)[2]) == v
  {
    hide Swapped;
    var p := Swapped(v);
    FiveBits(p / 2048);
    SixBits(p / 32 % 64);
    FiveBits(p % 32);
    ThreeFields(p);
    SwapTwice(v);
  }

  lemma ThreeFields(p: u16)
    ensures p == p / 2048 * 2048 + p / 32 % 64 * 32 + p % 32
  {
    assert p / 32 / 64 == p / 2048;
  }

  /** The colours are right, not only recoverable: from a 5-6-5 pixel, stored high byte last, come red, green and
      blue in this order, each component scaled to 0 to 255 with an error below one. */
  lemma ColoursScaled(r: nat, g: nat, b: nat)
    requires r < 32 && g < 64 && b < 32
    ensures var p := 2048 * r + 32 * g + b; var s := Rgb(p % 0x100 * 0x100 + p / 0x100);
      && -31 < 31 * s[0] - 255 * r < 31 && -63 < 63 * s[1] - 255 * g < 63 && -31 < 31 * s[2] - 255 * b < 31
  {
    hide Swapped;
    var p := 2048 * r + 32 * g + b;
    SwapTwice(p);
    SwappedIs(p);
    Fields(r, g, b);
    ScaledFive(r);
    ScaledSix(g);
    ScaledFive(b);
  }

  lemma SwappedIs(p: u16)
    ensures Swapped(p) == p % 0x100 * 0x100 + p / 0x100
  {
  }

  lemma Fields(r: nat, g: nat, b: nat)
    requires r < 32 && g < 64 && b < 32
    ensures var p := 2048 * r + 32 * g + b; p / 2048 == r && p / 32 % 64 == g && p % 32 == b
  {
    var p := 2048 * r + 32 * g + b;
    assert p / 32 == 64 * r + g;
  }

  lemma ScaledFive(x: nat)
    requires x < 32
    ensures -31 < 31 * (x * 8 + x / 4) - 255 * x < 31
  {
    assert x == 4 * (x / 4) + x % 4;
  }

  lemma ScaledSix(x: nat)
    requires x < 64
    ensures -63 < 63 * (x * 4 + x / 16) - 255 * x < 63
  {
    assert x == 16 * (x / 16) + x % 16;
  }

  lemma {:induction false} RowRoundTrip(row: Row)
    ensures RowOf(Pixels(row)) == row
    decreases |row|
  {
    hide Rgb, Pixel;
    if row != [] {
      var n := |row| - 1;
      var s := Pixels(row);
      RowRoundTrip(row[..n]);
      PixelRoundTrip(row[n]);
      assert s[..|s| - 3] == Pixels(row[..n]);
      assert s[|s| - 3] == Rgb(row[n])[0] && s[|s| - 2] == Rgb(row[n])[1] && s[|s| - 1] == Rgb(row[n])[2];
    }
  }

  lemma {:induction false} RowsRoundTrip(rows: seq<Row>, w: nat)
    requires forall y :: 0 <= y < |rows| ==> |rows[y]| == w
    ensures RowsOf(Raw(rows), w, |rows|) == Some(rows)
    decreases |rows|
  {
    hide RowOf, Pixels;
    if rows != [] {
      var k := |rows| - 1;
      var s := Raw(rows);
      var n := |s| - 3 * w - 1;
      RowsRoundTrip(rows[..k], w);
      RowRoundTrip(rows[k]);
      assert s == Raw(rows[..k]) + [0] + Pixels(rows[k]);
      assert s[..n] == Raw(rows[..k]) && s[n] == 0 && s[n + 1..] == Pixels(rows[k]);
      assert rows == rows[..k] + [rows[k]];
    }
  }

  lemma HeaderReads(k: nat, final: bool)
    requires k <= BLOCK
    ensures var s := Header(k, final);
      && s[0] / 2 % 4 == 0 && (s[0] % 2 == 1 <==> final)
      && s[1] as int + 0x100 * (s[2] as int) == k
      && (s[1] as int + 0x100 * (s[2] as int)) + (s[3] as int + 0x100 * (s[4] as int)) == BLOCK
  {
  }

  lemma AfterHeader(head: seq<u8>, data: seq<u8>, rest: seq<u8>)
    requires |head| == 5
    ensures var s := head + data + rest;
      && s[0] == head[0] && s[1] == head[1] && s[2] == head[2] && s[3] == head[3] && s[4] == head[4]
      && s[5..5 + |data|] == data && s[5 + |data|..] == rest
  {
    var s := head + data + rest;
    assert s == head + (data + rest);
    assert s[5..] == data + rest;
    assert s[5 + |data|..] == s[5..][|data|..];
  }

  /** The blocks decode to the data, and decoding stops at the last of them: only it is final. */
  lemma {:induction false} InflateBlocks(raw: seq<u8>, tail: seq<u8>)
    requires |raw| > 0
    ensures Inflate(Blocks(raw) + tail) == Some((raw, tail))
    decreases |raw|
  {
    hide Header;
    var k := if |raw| > BLOCK then BLOCK else |raw|;
    HeaderReads(k, k == |raw|);
    var rest := if k < |raw| then Blocks(raw[k..]) else [];
    var s := Blocks(raw) + tail;
    var head := Header(k, k == |raw|);
    assert s == head + raw[..k] + (rest + tail);
    AfterHeader(head, raw[..k], rest + tail);
    if k < |raw| {
      InflateBlocks(raw[k..], tail);
      assert raw[..k] + raw[k..] == raw;
    } else {
      assert rest + tail == tail && raw[..k] == raw;
    }
  }

  lemma ZlibRoundTrip(raw: seq<u8>)
    requires |raw| > 0
    ensures Unzlib(Zlib(raw)) == Some(raw)
  {
    hide Inflate, Blocks, Adler;
    var s := Zlib(raw);
    assert s[2..] == Blocks(raw) + Be32(Adler(raw));
    InflateBlocks(raw, Be32(Adler(raw)));
  }

  lemma ChunkRoundTrip(kind: seq<u8>, data: seq<u8>, rest: seq<u8>)
    requires |kind| == 4 && |data| < 0x1_0000_0000
    ensures ReadChunk(Chunk(kind, data) + rest, kind) == Some((data, rest))
  {
    hide Be32, FromBe32, Crc;
    var s := Chunk(kind, data) + rest;
    Be32RoundTrip(|data|);
    assert s[..4] == Be32(|data|) && s[4..8] == kind;
    assert s[8..8 + |data|] == data;
    assert s[8 + |data|..12 + |data|] == Be32(Crc(kind + data)) && s[12 + |data|..] == rest;
  }

  /** Every image whose data length fits the chunk's 32-bit length field is decoded to itself: the
      stream is well formed and no pixel is changed. */
  lemma PngRoundTrip(rows: seq<Row>, w: nat, h: nat)
    requires Image(rows, w, h) && IdatLength(RawLength(w, h)) < 0x1_0000_0000
    ensures |Raw(rows)| > 0 && |Zlib(Raw(rows))| < 0x1_0000_0000
    ensures Decode(Png(rows, w, h)) == Some((w, h, rows))
  {
    hide Raw, Zlib, Chunk, ReadChunk, Unzlib, RowsOf, Be32, FromBe32, IdatLength;
    SizesExact(rows, w, h);
    var raw := Raw(rows);
    var s := Png(rows, w, h);
    var head, body, end := Chunk(IHDR, ImageHeader(w, h)), Chunk(IDAT, Zlib(raw)), Chunk(IEND, []);
    assert s[..8] == SIGNATURE && s[8..] == head + (body + end);
    ChunkRoundTrip(IHDR, ImageHeader(w, h), body + end);
    ChunkRoundTrip(IDAT, Zlib(raw), end);
    ChunkRoundTrip(IEND, [], []);
    assert end + [] == end;
    HeaderFields(w, h);
    ZlibRoundTrip(raw);
    RowsRoundTrip(rows, w);
  }

  lemma HeaderFields(w: u32, h: u32)
    ensures var s := ImageHeader(w, h); FromBe32(s[..4]) == w && FromBe32(s[4..8]) == h && s[8..] == [8, 2, 0, 0, 0]
  {
    hide Be32, FromBe32;
    var s := ImageHeader(w, h);
    Be32RoundTrip(w);
    Be32RoundTrip(h);
    assert s[..4] == Be32(w) && s[4..8] == Be32(h);
  }

  // ------------------------------------------------------------------
  // The code
  // ------------------------------------------------------------------

  // The eight shifts for one byte.
  method CrcStep(c0: bv32, b: u8) returns (c: bv32)
    ensures c == CrcByte(c0, b)
  {
    hide CrcBit;
    c := Xor(c0, Widened(b, 8));
    ghost var x := c;
    for k := 0 to 8
      invariant c == CrcBits(x, k)
    {
      c := CrcBit(c);
    }
  }

  /** `crc32_update` from a CRC of 0, over `buf[from..to]`. */
  method Crc32(buf: array<u8>, from: nat, to: nat) returns (crc: u32)
    requires from <= to <= buf.Length
    ensures crc == Crc(buf[from..to])
  {
    hide CrcByte, Inverted;
    var c: bv32 := 0xFFFF_FFFF;
    for i := from to to
      invariant c == CrcFrom(0xFFFF_FFFF, buf[from..i])
    {
      assert buf[from..i + 1][..i - from] == buf[from..i];
      c := CrcStep(c, buf[i]);
    }
    crc := Inverted(c);
  }

  /** `adler32`: the running sums, reduced at every byte. */
  method Adler32(data: array<u8>) returns (sum: u32)
    ensures sum == Adler(data[..])
  {
    var a: nat, b: nat := 1, 0;
    for i := 0 to data.Length
      invariant a == (1 + Sum(data[..i])) % ADLER && b == SumOfSums(data[..i]) % ADLER
    {
      hide Sum, SumOfSums;
      SumsNext(data[..i], data[i]);
      assert data[..i] + [data[i]] == data[..i + 1];
      ModSum(1 + Sum(data[..i]), data[i]);
      ModBoth(SumOfSums(data[..i]), 1 + Sum(data[..i + 1]));
      a := (a + data[i]) % ADLER;
      b := (b + a) % ADLER;
    }
    assert data[..data.Length] == data[..];
    sum := b * 0x1_0000 + a;
  }

  lemma SumsNext(s: seq<u8>, v: u8)
    ensures Sum(s + [v]) == Sum(s) + v && SumOfSums(s + [v]) == SumOfSums(s) + 1 + Sum(s + [v])
  {
    assert (s + [v])[..|s|] == s;
  }

  lemma ModSum(x: nat, v: nat)
    ensures (x % 65521 + v) % 65521 == (x + v) % 65521
  {
    var q, r := x / 65521, x % 65521;
    assert x + v == 65521 * q + (r + v);
    ModShift(q, r + v);
  }

  lemma ModBoth(x: nat, y: nat)
    ensures (x % 65521 + y % 65521) % 65521 == (x + y) % 65521
  {
    ModSum(x, y % 65521);
    ModSum(y, x);
  }

  lemma ModShift(q: nat, t: nat)
    ensures (65521 * q + t) % 65521 == t % 65521
  {
  }

  // `memcpy` of a byte string, and `put_be32`.
  method PutBytes(out: array<u8>, pos: nat, data: seq<u8>) returns (next: nat)
    requires pos + |data| <= out.Length
    modifies out
    ensures next == pos + |data| && out[..next] == old(out[..pos]) + data
  {
    for i := 0 to |data|
      invariant out[..pos + i] == old(out[..pos]) + data[..i]
    {
      out[pos + i] := data[i];
    }
    next := pos + |data|;
  }

  method PutArray(out: array<u8>, pos: nat, data: array<u8>, from: nat, to: nat) returns (next: nat)
    requires from <= to <= data.Length && pos + (to - from) <= out.Length && data != out
    modifies out
    ensures next == pos + (to - from) && out[..next] == old(out[..pos]) + data[from..to]
  {
    for i := from to to
      invariant out[..pos + (i - from)] == old(out[..pos]) + data[from..i]
    {
      out[pos + (i - from)] := data[i];
    }
    next := pos + (to - from);
  }

  /** `put_chunk` */
  method PutChunk(out: array<u8>, pos: nat, kind: seq<u8>, data: seq<u8>) returns (next: nat)
    requires |kind| == 4 && |data| < 0x1_0000_0000 && pos + 12 + |data| <= out.Length
    modifies out
    ensures next == pos + 12 + |data| && out[..next] == old(out[..pos]) + Chunk(kind, data)
  {
    hide Be32, Crc;
    next := PutBytes(out, pos, Be32(|data|));
    var start := next;
    next := PutBytes(out, next, kind);
    next := PutBytes(out, next, data);
    assert out[start..next] == kind + data;
    var crc := Crc32(out, start, start + 4 + |data|);
    next := PutBytes(out, next, Be32(crc));
  }

  /** The rows of an image in a buffer, `stride` pixels apart. */
  function RowsIn(src: seq<u16>, w: nat, h: nat, stride: nat): (rows: seq<Row>)
    requires h > 0 ==> (h - 1) * stride + w <= |src|
    ensures |rows| == h && forall y :: 0 <= y < h ==> |rows[y]| == w
  {
    seq(h, y requires 0 <= y < h => RowAt(src, w, h, stride, y))
  }

  function RowAt(src: seq<u16>, w: nat, h: nat, stride: nat, y: nat): (row: Row)
    requires y < h && (h - 1) * stride + w <= |src|
    ensures |row| == w
  {
    RowInside(y, h, stride);
    src[y * stride..y * stride + w]
  }

  lemma RowInside(y: nat, h: nat, stride: nat)
    requires y < h
    ensures 0 <= y * stride <= (h - 1) * stride
  {
  }

  // One scanline: filter byte and pixels.
  lemma NoPixels()
    ensures Pixels([]) == []
  {
  }

  lemma PixelsNext(line: Row, x: nat)
    requires x < |line|
    ensures Pixels(line[..x + 1]) == Pixels(line[..x]) + Rgb(line[x])
  {
    hide Rgb;
    assert line[..x + 1][..x] == line[..x];
  }

  method WriteRow(raw: array<u8>, at: nat, line: Row) returns (next: nat)
    requires at + 1 + 3 * |line| <= raw.Length
    modifies raw
    ensures next == at + 1 + 3 * |line| && raw[..next] == old(raw[..at]) + [0] + Pixels(line)
  {
    hide Rgb, Pixels;
    NoPixels();
    raw[at] := 0;
    ghost var head := old(raw[..at]) + [0];
    assert raw[..at + 1] == head;
    next := at + 1;
    for x := 0 to |line|
      invariant next == at + 1 + 3 * x && raw[..next] == head + Pixels(line[..x])
    {
      var c := Rgb(line[x]);
      PixelsNext(line, x);
      ghost var before := raw[..next];
      raw[next], raw[next + 1], raw[next + 2] := c[0], c[1], c[2];
      assert raw[..next + 3] == before + c;
      next := next + 3;
    }
    assert line[..|line|] == line;
  }

  method BuildRaw(src: seq<u16>, w: nat, h: nat, stride: nat) returns (raw: array<u8>)
    requires w > 0 && h > 0 && (h - 1) * stride + w <= |src|
    ensures fresh(raw) && raw[..] == Raw(RowsIn(src, w, h, stride))
  {
    hide RowsIn, Raw, RowAt, RawLength;
    ghost var rows := RowsIn(src, w, h, stride);
    var rowBytes := 1 + w * 3;
    RawLengthIs(w, h);
    raw := new u8[rowBytes * h];
    var rp := 0;
    NoRows(w);
    for y := 0 to h
      invariant rp == RawLength(w, y) <= raw.Length == RawLength(w, h) && raw[..rp] == Raw(rows[..y])
    {
      RowInside(y, h, stride);
      RowFits(w, y, h);
      RowIs(src, w, h, stride, y);
      rp := WriteRow(raw, rp, src[y * stride..y * stride + w]);
      RawNext(rows, y);
    }
    assert rows[..h] == rows && raw[..rp] == raw[..];
  }

  lemma {:induction false} RawLengthIs(w: nat, h: nat)
    ensures RawLength(w, h) == (1 + w * 3) * h
    decreases h
  {
    if h > 0 {
      RawLengthIs(w, h - 1);
      assert (1 + w * 3) * h == (1 + w * 3) * (h - 1) + (1 + w * 3);
    }
  }

  lemma {:induction false} RowFits(w: nat, y: nat, h: nat)
    requires y < h
    ensures RawLength(w, y + 1) == RawLength(w, y) + (1 + 3 * w) <= RawLength(w, h)
    decreases h
  {
    if y + 1 < h { RowFits(w, y, h - 1); }
  }

  lemma RowIs(src: seq<u16>, w: nat, h: nat, stride: nat, y: nat)
    requires h > 0 && (h - 1) * stride + w <= |src| && y < h
    ensures 0 <= y * stride && y * stride + w <= |src|
    ensures RowsIn(src, w, h, stride)[y] == src[y * stride..y * stride + w]
  {
    RowInside(y, h, stride);
  }

  lemma NoRows(w: nat)
    ensures Raw([]) == [] && RawLength(w, 0) == 0
  {
  }

  lemma RawNext(rows: seq<Row>, y: nat)
    requires y < |rows|
    ensures Raw(rows[..y + 1]) == Raw(rows[..y]) + [0] + Pixels(rows[y])
  {
    assert rows[..y + 1][..y] == rows[..y];
  }

  // One stored block: header and data.
  method PutBlock(out: array<u8>, pos: nat, raw: array<u8>, off: nat, k: nat, final: bool) returns (next: nat)
    requires k <= BLOCK && off + k <= raw.Length && raw != out && pos + 5 + k <= out.Length
    modifies out
    ensures next == pos + 5 + k && out[..next] == old(out[..pos]) + (Header(k, final) + raw[off..off + k])
  {
    hide Header;
    next := PutBytes(out, pos, Header(k, final));
    next := PutArray(out, next, raw, off, off + k);
  }

  // The block loop.
  method PutBlocks(out: array<u8>, pos: nat, raw: array<u8>) returns (next: nat)
    requires raw.Length > 0 && raw != out && pos + |Blocks(raw[..])| <= out.Length
    modifies out
    ensures next == pos + |Blocks(raw[..])| && out[..next] == old(out[..pos]) + Blocks(raw[..])
  {
    hide Blocks, Header;
    ghost var all, data := Blocks(raw[..]), raw[..];
    next := pos;
    var off: nat, remaining: nat := 0, raw.Length;
    assert raw[..][0..] == raw[..];
    while remaining > 0
      invariant off + remaining == raw.Length && raw[..] == data && pos <= next <= pos + |all|
      invariant out[..next] + (if remaining > 0 then Blocks(data[off..]) else []) == old(out[..pos]) + all
      decreases remaining
    {
      var k := if remaining > BLOCK then BLOCK else remaining;
      BlocksStep(data[off..]);
      next := PutBlock(out, next, raw, off, k, k == remaining);
      assert data[off..][..k] == raw[off..off + k];
      assert data[off..][k..] == data[off + k..];
      off := off + k;
      remaining := remaining - k;
    }
  }

  lemma BlocksStep(raw: seq<u8>)
    requires |raw| > 0
    ensures var k := if |raw| > BLOCK then BLOCK else |raw|;
      Blocks(raw) == Header(k, k == |raw|) + raw[..k] + (if k < |raw| then Blocks(raw[k..]) else [])
  {
  }

  method PutZlib(out: array<u8>, pos: nat, raw: array<u8>) returns (next: nat)
    requires raw.Length > 0 && raw != out && pos + |Zlib(raw[..])| <= out.Length
    modifies out
    ensures next == pos + |Zlib(raw[..])| && out[..next] == old(out[..pos]) + Zlib(raw[..])
  {
    hide Blocks, Be32, Adler;
    ghost var data := raw[..];
    next := PutBytes(out, pos, [0x78, 0x01]);
    next := PutBlocks(out, next, raw);
    assert raw[..] == data;
    var sum := Adler32(raw);
    next := PutBytes(out, next, Be32(sum));
  }

  // The IDAT chunk, assembled in place; its CRC is taken over what was written.
  method PutImageData(out: array<u8>, pos: nat, raw: array<u8>) returns (next: nat)
    requires raw.Length > 0 && raw != out && |Zlib(raw[..])| < 0x1_0000_0000
    requires |Zlib(raw[..])| == IdatLength(raw.Length) && pos + 12 + IdatLength(raw.Length) <= out.Length
    modifies out
    ensures next == pos + 12 + IdatLength(raw.Length) && out[..next] == old(out[..pos]) + Chunk(IDAT, Zlib(raw[..]))
    ensures raw[..] == old(raw[..])
  {
    hide Zlib, Be32, Crc, IdatLength;
    ghost var data, was := raw[..], out[..pos];
    var idatLength := IdatLength(raw.Length);
    next := PutBytes(out, pos, Be32(idatLength));
    var start := next;
    next := PutBytes(out, next, IDAT);
    next := PutZlib(out, next, raw);
    assert out[start..next] == IDAT + Zlib(data);
    var crc := Crc32(out, start, start + 4 + idatLength);
    next := PutBytes(out, next, Be32(crc));
    assert out[..next] == was + Chunk(IDAT, Zlib(data));
  }

  function Number(s: seq<u8>, at: nat): nat
    requires at + 4 <= |s|
  {
    0x100_0000 * (s[at] as int) + 0x1_0000 * (s[at + 1] as int) + 0x100 * (s[at + 2] as int) + s[at + 3]
  }

  function Letters(t: string): seq<int> { seq(|t|, i requires 0 <= i < |t| => t[i] as int) }

  /** Where a reader of section 5 of the PNG specification finds things: the signature; 13 bytes of header with
      width, height (high byte first), eight bits a sample, truecolour, nothing else; the image data; the empty
      end chunk last. */
  lemma PngLayout(rows: seq<Row>, w: nat, h: nat)
    requires Image(rows, w, h) && |Raw(rows)| > 0 && |Zlib(Raw(rows))| < 0x1_0000_0000
    ensures var s := Png(rows, w, h);
      && |s| == 57 + |Zlib(Raw(rows))|
      && s[..8] == [0x89] + Letters("PNG") + [13, 10, 26, 10]
      && Number(s, 8) == 13 && s[12..16] == Letters("IHDR") && Number(s, 16) == w && Number(s, 20) == h
      && s[24..29] == [8, 2, 0, 0, 0]
      && Number(s, 33) == |Zlib(Raw(rows))| && s[37..41] == Letters("IDAT")
      && Number(s, |s| - 12) == 0 && s[|s| - 8..|s| - 4] == Letters("IEND")
  {
    hide Raw, Zlib, Crc, Be32, Chunk, ImageHeader, Number, Letters;
    var z, hd := Zlib(Raw(rows)), ImageHeader(w, h);
    var a, b, c := Chunk(IHDR, hd), Chunk(IDAT, z), Chunk(IEND, []);
    ChunkParts(IHDR, hd);
    ChunkParts(IDAT, z);
    ChunkParts(IEND, []);
    Names();
    var s := Png(rows, w, h);
    Slices(s, SIGNATURE, a, b, c);
    HeaderParts(w, h);
    NumberIn(s, 8, a, 0); NumberIn(s, 8, a, 8); NumberIn(s, 8, a, 12);
    NumberIn(a, 8, hd, 0); NumberIn(a, 8, hd, 4);
    NumberIn(s, 33, b, 0); NumberIn(s, |s| - 12, c, 0);
    Inner(s, 8, a, 4, 8); Inner(s, 8, a, 16, 21); Inner(a, 8, hd, 8, 13);
    Inner(s, 33, b, 4, 8); Inner(s, |s| - 12, c, 4, 8);
  }

  lemma Slices(s: seq<u8>, sig: seq<u8>, a: seq<u8>, b: seq<u8>, c: seq<u8>)
    requires s == sig + a + b + c && |sig| == 8 && |a| == 25 && |c| == 12
    ensures |s| == 45 + |b| && s[..8] == sig && s[8..33] == a && s[33..33 + |b|] == b && s[|s| - 12..|s|] == c
  {
  }

  lemma Inner(s: seq<u8>, off: nat, t: seq<u8>, i: nat, j: nat)
    requires i <= j <= |t| && off + |t| <= |s| && s[off..off + |t|] == t
    ensures s[off + i..off + j] == t[i..j]
  {
    forall k | 0 <= k < j - i
      ensures s[off + i..off + j][k] == t[i..j][k]
    {
      assert t[i + k] == s[off..off + |t|][i + k];
    }
  }

  lemma NumberIn(s: seq<u8>, off: nat, t: seq<u8>, at: nat)
    requires at + 4 <= |t| && off + |t| <= |s| && s[off..off + |t|] == t
    ensures Number(s, off + at) == Number(t, at)
  {
  }

  lemma Big(v: u32)
    ensures Number(Be32(v), 0) == v
  {
    Be32RoundTrip(v);
  }

  lemma ChunkParts(kind: seq<u8>, data: seq<u8>)
    requires |kind| == 4 && |data| < 0x1_0000_0000
    ensures var c := Chunk(kind, data);
      |c| == 12 + |data| && c[4..8] == kind && c[8..8 + |data|] == data && Number(c, 0) == |data|
  {
    hide Crc, Be32;
    var c := Chunk(kind, data);
    Big(|data|);
    assert c[..4] == Be32(|data|);
    NumberIn(c, 0, Be32(|data|), 0);
  }

  lemma HeaderParts(w: u32, h: u32)
    ensures var s := ImageHeader(w, h); Number(s, 0) == w && Number(s, 4) == h && s[8..13] == [8, 2, 0, 0, 0]
  {
    hide Be32;
    var s := ImageHeader(w, h);
    Big(w);
    Big(h);
    assert s[0..4] == Be32(w) && s[4..8] == Be32(h);
    NumberIn(s, 0, Be32(w), 0);
    NumberIn(s, 4, Be32(h), 0);
  }

  lemma Names()
    ensures SIGNATURE == [0x89] + Letters("PNG") + [13, 10, 26, 10]
    ensures IHDR == Letters("IHDR") && IDAT == Letters("IDAT") && IEND == Letters("IEND")
  {
  }

  predicate LengthFits(w: nat, h: nat) { IdatLength(RawLength(w, h)) < 0x1_0000_0000 }

  // The buffer holds `h` rows of `w` pixels, and the data length fits its 32-bit field.
  predicate Fits(src: seq<u16>, w: nat, h: nat, stride: nat) {
    && 0 < w < 0x1_0000_0000 && 0 < h < 0x1_0000_0000
    && (h - 1) * stride + w <= |src| && LengthFits(w, h)
  }

  /** `s` is the PNG of the rows. */
  ghost predicate Encodes(s: seq<u8>, rows: seq<Row>, w: nat, h: nat) {
    && Image(rows, w, h) && |Raw(rows)| > 0 && |Zlib(Raw(rows))| < 0x1_0000_0000 && s == Png(rows, w, h)
  }

  /** What the encoder writes is decoded to the rows of the buffer. */
  lemma EncodedDecodes(s: seq<u8>, rows: seq<Row>, w: nat, h: nat)
    requires LengthFits(w, h) && Encodes(s, rows, w, h)
    ensures Decode(s) == Some((w, h, rows))
  {
    hide Raw, Zlib, Png, Decode, IdatLength;
    PngRoundTrip(rows, w, h);
  }

  /** `png_encode_rgb565`: nothing for an empty image or when memory runs out; else the stream for the
      buffer's rows, in a buffer of the capacity worked out beforehand. */
  method Encode(src: seq<u16>, w: int, h: int, stride: nat, memory: bool) returns (out: array?<u8>, length: nat)
    requires w > 0 && h > 0 ==> Fits(src, w, h, stride)
    ensures (out != null) == (w > 0 && h > 0 && memory)
    ensures out != null ==>
              fresh(out) && length + 16 == out.Length && Encodes(out[..length], RowsIn(src, w, h, stride), w, h)
  {
    if w <= 0 || h <= 0 || !memory { return null, 0; }
    hide Raw, Zlib, Chunk, IdatLength, ImageHeader, RowsIn, Png, Capacity;
    ghost var rows := RowsIn(src, w, h, stride);
    SizesExact(rows, w, h);
    var raw := BuildRaw(src, w, h, stride);
    out, length := Assemble(raw, w, h, rows);
  }

  method Assemble(raw: array<u8>, w: nat, h: nat, ghost rows: seq<Row>) returns (out: array<u8>, length: nat)
    requires Image(rows, w, h) && raw[..] == Raw(rows) && raw.Length > 0
    requires IdatLength(raw.Length) < 0x1_0000_0000 && |Zlib(Raw(rows))| == IdatLength(raw.Length)
    requires |Png(rows, w, h)| == Capacity(raw.Length) - 16
    ensures fresh(out) && length + 16 == out.Length && out[..length] == Png(rows, w, h)
  {
    hide Raw, Zlib, Chunk, IdatLength, ImageHeader;
    ghost var r := raw[..];
    out := new u8[Capacity(raw.Length)];
    length := PutBytes(out, 0, SIGNATURE);
    length := PutChunk(out, length, IHDR, ImageHeader(w, h));
    assert out[..length] == SIGNATURE + Chunk(IHDR, ImageHeader(w, h));
    length := PutImageData(out, length, raw);
    length := PutChunk(out, length, IEND, []);
    assert out[..length] == SIGNATURE + Chunk(IHDR, ImageHeader(w, h)) + Chunk(IDAT, Zlib(r)) + Chunk(IEND, []);
  }
}
