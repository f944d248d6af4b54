/** The WD1793 write paths (src/supervisor/sv_disk.cpp): where a sector lies in the cache, WRITE
    SECTOR, and WRITE TRACK, whose byte stream is parsed by a small state machine. A printer of format
    streams is the parser's inverse: what it prints is stored, sector by sector. */
module TrackFormat {
  import opened Arithmetic
  import opened Words
  import DiskCache

  const SECTOR := 256
  const TRACK_BYTES := 6250

  // ------------------------------------------------------------------
  // Where a sector lies
  // ------------------------------------------------------------------

  datatype Geometry = Geometry(tracks: u8, sides: u8, perTrack: u8)

  function Size(g: Geometry): nat { g.tracks * g.sides * g.perTrack * SECTOR }

  /** `sector_offset`: sides interleaved track by track, sectors numbered from 1. */
  function Offset(g: Geometry, track: u8, side: u8, sector: u8): Option<nat> {
    if sector < 1 || sector > g.perTrack || track >= g.tracks || side >= g.sides then None
    else
      var linear := Product(track, g.sides) + side;
      Some(Product(linear, g.perTrack) * SECTOR + (sector - 1) * SECTOR)
  }

  function Product(a: nat, b: nat): nat { a * b }

  // Position in mixed radix: below the product, and one-to-one.
  lemma Mixed(a: nat, b: nat, m: nat, n: nat)
    requires a < m && b < n
    ensures a * n + b < m * n
  {
    StepUp(n, a, m);
  }

  lemma MixedUnique(a: nat, b: nat, c: nat, d: nat, n: nat)
    requires b < n && d < n && a * n + b == c * n + d
    ensures a == c && b == d
  {
    if a < c { StepUp(n, a, c); }
    if c < a { StepUp(n, c, a); }
  }

  // Number of a sector counted over the whole image.
  function Linear(g: Geometry, track: u8, side: u8, sector: u8): int {
    (track * g.sides + side) * g.perTrack + (sector - 1)
  }

  lemma OffsetIsLinear(g: Geometry, track: u8, side: u8, sector: u8)
    requires Offset(g, track, side, sector).Some?
    ensures Offset(g, track, side, sector) == Some(SECTOR * Linear(g, track, side, sector))
    ensures 0 <= Linear(g, track, side, sector) < g.tracks * g.sides * g.perTrack
  {
    var t := track * g.sides + side;
    Mixed(track, side, g.tracks, g.sides);
    Mixed(t, sector - 1, g.tracks * g.sides, g.perTrack);
    Scaled(t, g.perTrack, sector - 1);
  }

  lemma Scaled(t: nat, p: nat, s: int)
    ensures t * p * 256 + s * 256 == 256 * (t * p + s)
  {
  }

  /** A valid sector lies on a sector boundary inside the image. */
  lemma OffsetInside(g: Geometry, track: u8, side: u8, sector: u8)
    requires Offset(g, track, side, sector).Some?
    ensures var off := Offset(g, track, side, sector).value; off % SECTOR == 0 && off + SECTOR <= Size(g)
  {
    hide Offset, Linear;
    OffsetIsLinear(g, track, side, sector);
    Aligned(Linear(g, track, side, sector), g.tracks * g.sides * g.perTrack);
  }

  lemma Aligned(l: nat, n: nat)
    requires l < n
    ensures 256 * l % 256 == 0 && 256 * l + 256 <= n * 256
  {
  }

  /** Distinct sectors never overlap. */
  lemma SectorsDisjoint(g: Geometry, t1: u8, s1: u8, n1: u8, t2: u8, s2: u8, n2: u8)
    requires Offset(g, t1, s1, n1).Some? && Offset(g, t2, s2, n2).Some? && (t1, s1, n1) != (t2, s2, n2)
    ensures var a, b := Offset(g, t1, s1, n1).value, Offset(g, t2, s2, n2).value; a + SECTOR <= b || b + SECTOR <= a
  {
    OffsetIsLinear(g, t1, s1, n1);
    OffsetIsLinear(g, t2, s2, n2);
    if Linear(g, t1, s1, n1) == Linear(g, t2, s2, n2) {
      MixedUnique(t1 * g.sides + s1, n1 - 1, t2 * g.sides + s2, n2 - 1, g.perTrack);
      MixedUnique(t1, s1, t2, s2, g.sides);
      assert false;
    }
  }

  /** The order of the sectors in the image, from its first byte on: by number, then side, then track, 256 bytes each;
      numbers begin at 1. */
  lemma SectorOrder(g: Geometry, track: u8, side: u8, sector: u8)
    ensures Offset(g, track, side, sector).Some? <==> 1 <= sector <= g.perTrack && side < g.sides && track < g.tracks
    ensures Offset(g, 0, 0, 1).Some? ==> Offset(g, 0, 0, 1).value == 0
    ensures Offset(g, track, side, sector).Some? ==>
      var next := Offset(g, track, side, sector).value + 256;
      && (sector < g.perTrack ==> Offset(g, track, side, sector + 1) == Some(next))
      && (sector == g.perTrack && side + 1 < g.sides ==> Offset(g, track, side + 1, 1) == Some(next))
      && (sector == g.perTrack && side + 1 == g.sides && track + 1 < g.tracks ==>
            Offset(g, track + 1, 0, 1) == Some(next))
  {
    if Offset(g, track, side, sector).Some? {
      hide Offset, Linear;
      OffsetIsLinear(g, track, side, sector);
      Valid(g, track, side, sector);
      if sector < g.perTrack {
        Valid(g, track, side, sector + 1);
        OffsetIsLinear(g, track, side, sector + 1);
        Following(g, track, side, sector);
      } else if side + 1 < g.sides {
        Valid(g, track, side + 1, 1);
        OffsetIsLinear(g, track, side + 1, 1);
        Following(g, track, side, sector);
      } else if track + 1 < g.tracks {
        Valid(g, track + 1, 0, 1);
        OffsetIsLinear(g, track + 1, 0, 1);
        Following(g, track, side, sector);
      }
    }
  }

  lemma Valid(g: Geometry, track: u8, side: u8, sector: u8)
    ensures Offset(g, track, side, sector).Some? <==> 1 <= sector <= g.perTrack && side < g.sides && track < g.tracks
  {
  }

  lemma Following(g: Geometry, track: u8, side: u8, sector: u8)
    requires 1 <= sector <= g.perTrack && side < g.sides && track < g.tracks
    ensures sector < g.perTrack ==> Linear(g, track, side, sector + 1) == Linear(g, track, side, sector) + 1
    ensures sector == g.perTrack && side + 1 < g.sides ==>
              Linear(g, track, side + 1, 1) == Linear(g, track, side, sector) + 1
    ensures sector == g.perTrack && side + 1 == g.sides && track + 1 < g.tracks ==>
              Linear(g, track + 1, 0, 1) == Linear(g, track, side, sector) + 1
  {
    var t := track * g.sides + side;
    assert (t + 1) * g.perTrack == t * g.perTrack + g.perTrack;
    assert (track + 1) * g.sides == track * g.sides + g.sides;
  }

  // ------------------------------------------------------------------
  // The parser of the format stream
  // ------------------------------------------------------------------

  datatype Mode = Idle | IdField | WaitDam | DataField

  /** `stored`: the sectors completed so far, by the number in their ID field. */
  datatype Parser = Parser(mode: Mode, f5: u8, idPos: nat, idSector: u8, data: seq<u8>, count: nat,
      stored: seq<(u8, seq<u8>)>)

  const FRESH := Parser(Idle, 0, 0, 1, [], 0, [])

  /** One byte of `fdc_write_track_byte`. */
  function Parse(p: Parser, v: u8): Parser {
    if p.count >= TRACK_BYTES then p
    else
      var q := p.(count := p.count + 1);
      if v == 0xF5 then q.(f5 := W8(p.f5 + 1))
      else
        var r := q.(f5 := 0);
        match p.mode
        case IdField =>
          r.(idSector := if p.idPos == 2 then v else p.idSector, idPos := p.idPos + 1,
             mode := if p.idPos + 1 >= 4 then WaitDam else IdField)
        case DataField =>
          DataParsed(r, v)
        case _ =>
          if p.f5 >= 3 && v == 0xFE then r.(mode := IdField, idPos := 0)
          else if p.f5 >= 3 && v == 0xFB then r.(mode := DataField, data := [])
          else r
  }

  function ParseAll(p: Parser, s: seq<u8>): Parser
    decreases s
  {
    if s == [] then p else ParseAll(Parse(p, s[0]), s[1..])
  }

  lemma {:induction false} ParseConcat(p: Parser, a: seq<u8>, b: seq<u8>)
    ensures ParseAll(p, a + b) == ParseAll(ParseAll(p, a), b)
    decreases a
  {
    if a == [] {
      assert a + b == b;
    } else {
      assert (a + b)[1..] == a[1..] + b;
      ParseConcat(Parse(p, a[0]), a[1..], b);
    }
  }

  // ------------------------------------------------------------------
  // The printer
  // ------------------------------------------------------------------

  /** A sector in a format stream: a gap, the mark bytes and ID field, another gap, mark bytes and data.
      `idMarks` and `dataMarks` count the $F5 bytes in front of the address marks. */
  datatype Item = Item(gap: seq<u8>, idMarks: nat, id: seq<u8>, gap2: seq<u8>, dataMarks: nat, data: seq<u8>)

  predicate NoF5(s: seq<u8>) { forall i :: 0 <= i < |s| ==> s[i] != 0xF5 }

  // The count of $F5 bytes is kept in a byte.
  predicate MarksOk(k: nat) { k % 256 >= 3 }

  predicate ItemOk(i: Item) {
    && NoF5(i.gap) && NoF5(i.gap2) && MarksOk(i.idMarks) && MarksOk(i.dataMarks)
    && |i.id| == 4 && NoF5(i.id) && |i.data| == SECTOR && NoF5(i.data)
  }

  function Marks(k: nat): seq<u8> { seq(k, _ => 0xF5) }

  function PrintItem(i: Item): seq<u8> {
    i.gap + Marks(i.idMarks) + [0xFE] + i.id + i.gap2 + Marks(i.dataMarks) + [0xFB] + i.data
  }

  function Print(items: seq<Item>, tail: seq<u8>): seq<u8>
    decreases items
  {
    if items == [] then tail else PrintItem(items[0]) + Print(items[1..], tail)
  }

  function Expected(items: seq<Item>): seq<(u8, seq<u8>)>
    requires forall k :: 0 <= k < |items| ==> ItemOk(items[k])
    decreases items
  {
    if items == [] then [] else assert ItemOk(items[0]); [(items[0].id[2], items[0].data)] + Expected(items[1..])
  }

  // ------------------------------------------------------------------
  // Parsing what was printed
  // ------------------------------------------------------------------

  predicate Waiting(p: Parser) { p.mode == Idle || p.mode == WaitDam }

  lemma {:induction false} ParseGap(p: Parser, s: seq<u8>)
    requires Waiting(p) && p.f5 == 0 && NoF5(s) && p.count + |s| <= TRACK_BYTES
    ensures ParseAll(p, s) == p.(count := p.count + |s|)
    decreases s
  {
    if s != [] {
      ParseGap(Parse(p, s[0]), s[1..]);
    }
  }

  lemma {:induction false} ParseMarks(p: Parser, k: nat)
    requires p.count + k <= TRACK_BYTES
    ensures ParseAll(p, Marks(k)) == p.(count := p.count + k, f5 := W8(p.f5 + k))
    decreases k
  {
    if k > 0 {
      assert Marks(k)[1..] == Marks(k - 1);
      ParseMarks(Parse(p, 0xF5), k - 1);
      WrapSum(p.f5, k);
    } else {
      assert Marks(k) == [];
    }
  }

  lemma WrapSum(f: u8, k: nat)
    requires k > 0
    ensures W8(W8(f + 1) + (k - 1)) == W8(f + k)
  {
  }

  lemma {:induction false} ParseData(p: Parser, s: seq<u8>)
    requires p.mode == DataField && p.f5 == 0 && NoF5(s) && |s| > 0 && |p.data| + |s| == SECTOR &&
        p.count + |s| <= TRACK_BYTES
    ensures ParseAll(p, s) == p.(count := p.count + |s|, mode := Idle, data := p.data + s,
        stored := p.stored + [(p.idSector, p.data + s)])
    decreases s
  {
    var q := Parse(p, s[0]);
    assert p.data + [s[0]] + s[1..] == p.data + s;
    if |s| > 1 {
      assert q == p.(count := p.count + 1, data := p.data + [s[0]]);
      ParseData(q, s[1..]);
    } else {
      assert s == [s[0]];
      ParseOne(p, s[0]);
    }
  }

  lemma ParseId(p: Parser, id: seq<u8>)
    requires p.mode == IdField && p.idPos == 0 && p.f5 == 0 && |id| == 4 && NoF5(id) && p.count + 4 <= TRACK_BYTES
    ensures ParseAll(p, id) == p.(count := p.count + 4, mode := WaitDam, idPos := 4, idSector := id[2])
  {
    var a := Parse(p, id[0]);
    var b := Parse(a, id[1]);
    var c := Parse(b, id[2]);
    var d := Parse(c, id[3]);
    assert id[1..][1..] == id[2..] && id[2..][1..] == id[3..] && id[3..][1..] == [];
    assert ParseAll(p, id) == ParseAll(a, id[1..]) == ParseAll(b, id[2..]) == ParseAll(c, id[3..]) == ParseAll(d, []);
  }

  lemma ParseOne(p: Parser, v: u8)
    ensures ParseAll(p, [v]) == Parse(p, v)
  {
    assert [v][1..] == [];
  }

  // Mark bytes and an address mark.
  lemma ParseMark(p: Parser, k: nat, v: u8)
    requires Waiting(p) && p.f5 == 0 && MarksOk(k) && (v == 0xFE || v == 0xFB) && p.count + k + 1 <= TRACK_BYTES
    ensures ParseAll(p, Marks(k) + [v]) ==
      (var q := p.(count := p.count + k + 1);
       if v == 0xFE then q.(mode := IdField, idPos := 0) else q.(mode := DataField, data := []))
  {
    ParseConcat(p, Marks(k), [v]);
    ParseMarks(p, k);
    ParseOne(ParseAll(p, Marks(k)), v);
  }

  function HeadPart(i: Item): seq<u8> { i.gap + (Marks(i.idMarks) + [0xFE]) + i.id }

  function DataPart(i: Item): seq<u8> { i.gap2 + (Marks(i.dataMarks) + [0xFB]) + i.data }

  lemma Parts(i: Item)
    ensures PrintItem(i) == HeadPart(i) + DataPart(i)
  {
  }

  lemma ParseHead(p: Parser, i: Item)
    requires Waiting(p) && p.f5 == 0 && ItemOk(i) && p.count + |HeadPart(i)| <= TRACK_BYTES
    ensures ParseAll(p, HeadPart(i)) == p.(count := p.count + |HeadPart(i)|, mode := WaitDam, idPos := 4,
        idSector := i.id[2])
  {
    hide Parse, NoF5, MarksOk;
    var m := Marks(i.idMarks) + [0xFE];
    ParseConcat(p, i.gap + m, i.id);
    ParseConcat(p, i.gap, m);
    ParseGap(p, i.gap);
    ParseMark(p.(count := p.count + |i.gap|), i.idMarks, 0xFE);
    ParseId(ParseAll(p, i.gap + m), i.id);
  }

  lemma ParseBody(p: Parser, i: Item)
    requires Waiting(p) && p.f5 == 0 && ItemOk(i) && p.count + |DataPart(i)| <= TRACK_BYTES
    ensures ParseAll(p, DataPart(i)) ==
      p.(count := p.count + |DataPart(i)|, mode := Idle, data := i.data, stored := p.stored + [(p.idSector, i.data)])
  {
    hide Parse, NoF5, MarksOk;
    var m := Marks(i.dataMarks) + [0xFB];
    ParseConcat(p, i.gap2 + m, i.data);
    ParseConcat(p, i.gap2, m);
    ParseGap(p, i.gap2);
    ParseMark(p.(count := p.count + |i.gap2|), i.dataMarks, 0xFB);
    ParseData(ParseAll(p, i.gap2 + m), i.data);
    assert [] + i.data == i.data;
  }

  lemma ParseItem(p: Parser, i: Item)
    requires p.mode == Idle && p.f5 == 0 && ItemOk(i) && p.count + |PrintItem(i)| <= TRACK_BYTES
    ensures var q := ParseAll(p, PrintItem(i));
      && q.mode == Idle && q.f5 == 0 && q.count == p.count + |PrintItem(i)|
      && q.stored == p.stored + [(i.id[2], i.data)]
  {
    hide Parse, ItemOk;
    Parts(i);
    ParseConcat(p, HeadPart(i), DataPart(i));
    ParseHead(p, i);
    ParseBody(ParseAll(p, HeadPart(i)), i);
    FourBytes(i);
  }

  lemma FourBytes(i: Item)
    requires ItemOk(i)
    ensures |i.id| == 4
  {
  }

  // The first item of a stream; `q` is where it leaves the parser.
  lemma ParseFirst(p: Parser, items: seq<Item>, tail: seq<u8>) returns (q: Parser)
    requires items != [] && p.mode == Idle && p.f5 == 0 && ItemOk(items[0])
    requires p.count + |Print(items, tail)| <= TRACK_BYTES
    ensures ParseAll(p, Print(items, tail)) == ParseAll(q, Print(items[1..], tail))
    ensures q.mode == Idle && q.f5 == 0 && q.count + |Print(items[1..], tail)| <= TRACK_BYTES
    ensures |items[0].id| == 4 && q.stored == p.stored + [(items[0].id[2], items[0].data)]
  {
    hide Parse, ParseAll, ItemOk, PrintItem;
    q := ParseAll(p, PrintItem(items[0]));
    ParseConcat(p, PrintItem(items[0]), Print(items[1..], tail));
    ParseItem(p, items[0]);
    FourBytes(items[0]);
  }

  lemma {:induction false} ParsePrinted(p: Parser, items: seq<Item>, tail: seq<u8>)
    requires p.mode == Idle && p.f5 == 0 && NoF5(tail) && (forall k :: 0 <= k < |items| ==> ItemOk(items[k]))
    requires p.count + |Print(items, tail)| <= TRACK_BYTES
    ensures ParseAll(p, Print(items, tail)).stored == p.stored + Expected(items)
    decreases items
  {
    hide Parse, ParseAll, ItemOk, NoF5;
    if items == [] {
      ParseGap(p, tail);
    } else {
      hide Print;
      var q := ParseFirst(p, items, tail);
      ParsePrinted(q, items[1..], tail);
      var first := [(items[0].id[2], items[0].data)];
      assert p.stored + first + Expected(items[1..]) == p.stored + (first + Expected(items[1..]));
    }
  }

  /** WRITE TRACK inverts the printer: for any sectors whose bytes are not $F5, printed with any gaps
      free of $F5 and any mark bytes, ending by byte 6250, exactly those sectors are stored, in order. */
  lemma FormatRoundTrip(items: seq<Item>, tail: seq<u8>)
    requires NoF5(tail) && (forall k :: 0 <= k < |items| ==> ItemOk(items[k])) && |Print(items, tail)| <= TRACK_BYTES
    ensures ParseAll(FRESH, Print(items, tail)).stored == Expected(items)
  {
    ParsePrinted(FRESH, items, tail);
  }

  // ------------------------------------------------------------------
  // What the stored sectors make of the cache
  // ------------------------------------------------------------------

  /** A completed sector goes to its place on the controller's track and side, if it has one. */
  function Place(g: Geometry, track: u8, side: u8, cache: seq<u8>, s: (u8, seq<u8>)): (r: seq<u8>)
    ensures |r| == |cache|
  {
    match Offset(g, track, side, s.0)
    case None => cache
    case Some(off) =>
      if off + SECTOR > |cache| || |s.1| != SECTOR then cache else cache[..off] + s.1 + cache[off + SECTOR..]
  }

  function PlaceAll(g: Geometry, track: u8, side: u8, cache: seq<u8>, ss: seq<(u8, seq<u8>)>): (r: seq<u8>)
    ensures |r| == |cache|
    decreases ss
  {
    if ss == [] then cache else PlaceAll(g, track, side, Place(g, track, side, cache, ss[0]), ss[1..])
  }

  predicate Covers(off: nat, i: nat) { off <= i < off + SECTOR }

  lemma PlaceAt(g: Geometry, track: u8, side: u8, cache: seq<u8>, s: (u8, seq<u8>), i: nat)
    requires |cache| == Size(g) && i < |cache| && |s.1| == SECTOR
    ensures Place(g, track, side, cache, s)[i] ==
      match Offset(g, track, side, s.0)
      case None => cache[i]
      case Some(off) => if Covers(off, i) then s.1[i - off] else cache[i]
  {
    hide Offset, Size;
    if Offset(g, track, side, s.0).Some? { OffsetInside(g, track, side, s.0); }
  }

  /** Bytes that belong to none of the stored sectors keep their value. */
  lemma {:induction false} PlaceElsewhere(g: Geometry, track: u8, side: u8, cache: seq<u8>, ss: seq<(u8, seq<u8>)>,
                                          i: nat)
    requires |cache| == Size(g) && i < |cache| && (forall k :: 0 <= k < |ss| ==> |ss[k].1| == SECTOR)
    requires forall k :: 0 <= k < |ss| ==>
               Offset(g, track, side, ss[k].0).None? || !Covers(Offset(g, track, side, ss[k].0).value, i)
    ensures PlaceAll(g, track, side, cache, ss)[i] == cache[i]
    decreases ss
  {
    hide Offset, Size, Covers, Place;
    if ss != [] {
      PlaceAt(g, track, side, cache, ss[0], i);
      PlaceElsewhere(g, track, side, Place(g, track, side, cache, ss[0]), ss[1..], i);
    }
  }

  /** Of stored sectors with distinct numbers each valid one is in the cache, byte for byte, at its
      offset. */
  lemma {:induction false} PlaceEach(g: Geometry, track: u8, side: u8, cache: seq<u8>, ss: seq<(u8, seq<u8>)>,
                                     k: nat, j: nat)
    requires |cache| == Size(g) && (forall l :: 0 <= l < |ss| ==> |ss[l].1| == SECTOR)
    requires forall l, m :: 0 <= l < m < |ss| ==> ss[l].0 != ss[m].0
    requires k < |ss| && j < SECTOR && Offset(g, track, side, ss[k].0).Some?
    ensures var off := Offset(g, track, side, ss[k].0).value;
      off + SECTOR <= |cache| && PlaceAll(g, track, side, cache, ss)[off + j] == ss[k].1[j]
    decreases ss
  {
    hide Offset, Size, Place;
    OffsetInside(g, track, side, ss[k].0);
    var i := Offset(g, track, side, ss[k].0).value + j;
    var next := Place(g, track, side, cache, ss[0]);
    PlaceAt(g, track, side, cache, ss[0], i);
    if k > 0 {
      PlaceEach(g, track, side, next, ss[1..], k - 1, j);
    } else {
      forall l | 0 <= l < |ss[1..]|
        ensures Offset(g, track, side, ss[1..][l].0).None? || !Covers(Offset(g, track, side, ss[1..][l].0).value, i)
      {
        assert ss[0].0 != ss[l + 1].0;
        if Offset(g, track, side, ss[l + 1].0).Some? {
          SectorsDisjoint(g, track, side, ss[0].0, track, side, ss[l + 1].0);
        }
      }
      PlaceElsewhere(g, track, side, next, ss[1..], i);
    }
  }

  lemma {:induction false} ExpectedAt(items: seq<Item>, k: nat)
    requires (forall l :: 0 <= l < |items| ==> ItemOk(items[l])) && k < |items|
    ensures |Expected(items)| == |items| && |items[k].id| == 4
    ensures Expected(items)[k] == (items[k].id[2], items[k].data)
    decreases items
  {
    ExpectedLength(items);
    assert ItemOk(items[k]);
    if k > 0 { ExpectedAt(items[1..], k - 1); }
  }

  lemma {:induction false} ExpectedLength(items: seq<Item>)
    requires forall l :: 0 <= l < |items| ==> ItemOk(items[l])
    ensures |Expected(items)| == |items|
    decreases items
  {
    if items != [] { ExpectedLength(items[1..]); }
  }

  /** The whole format: after WRITE TRACK of a printed stream with distinct sector numbers, every valid
      sector's data is at its offset and no byte outside the printed sectors has changed. */
  lemma FormatFillsTrack(g: Geometry, track: u8, side: u8, cache: seq<u8>, items: seq<Item>, tail: seq<u8>, k: nat,
                         j: nat, i: nat)
    requires |cache| == Size(g) && i < |cache| && k < |items| && j < SECTOR
    requires NoF5(tail) && (forall l :: 0 <= l < |items| ==> ItemOk(items[l])) && |Print(items, tail)| <= TRACK_BYTES
    requires forall l, m :: 0 <= l < m < |items| ==> NumberOf(items[l]) != NumberOf(items[m])
    ensures var after := PlaceAll(g, track, side, cache, ParseAll(FRESH, Print(items, tail)).stored);
      && (match Offset(g, track, side, NumberOf(items[k]))
          case Some(off) => off + SECTOR <= |after| && |items[k].data| == SECTOR && after[off + j] == items[k].data[j]
          case None => true)
      && ((forall l :: 0 <= l < |items| ==> Outside(g, track, side, NumberOf(items[l]), i)) ==> after[i] == cache[i])
  {
    hide Offset, Size, Parse, Print, Covers, PlaceAll, ItemOk;
    FormatRoundTrip(items, tail);
    var ss := Expected(items);
    ExpectedLength(items);
    forall l | 0 <= l < |items|
      ensures ss[l] == (NumberOf(items[l]), items[l].data) && |ss[l].1| == SECTOR
    {
      ExpectedAt(items, l);
      DataSize(items[l]);
    }
    if Offset(g, track, side, NumberOf(items[k])).Some? { PlaceEach(g, track, side, cache, ss, k, j); }
    if forall l :: 0 <= l < |items| ==> Outside(g, track, side, NumberOf(items[l]), i) {
      forall l | 0 <= l < |ss|
        ensures Offset(g, track, side, ss[l].0).None? || !Covers(Offset(g, track, side, ss[l].0).value, i)
      {
        assert Outside(g, track, side, NumberOf(items[l]), i);
      }
      PlaceElsewhere(g, track, side, cache, ss, i);
    }
  }

  // The sector number in an item's ID field.
  function NumberOf(i: Item): u8 { if |i.id| == 4 then i.id[2] else 0 }

  predicate Outside(g: Geometry, track: u8, side: u8, sector: u8, i: nat) {
    match Offset(g, track, side, sector)
    case None => true
    case Some(off) => !Covers(off, i)
  }

  lemma DataSize(i: Item)
    requires ItemOk(i)
    ensures |i.data| == SECTOR
  {
  }

  // ------------------------------------------------------------------
  // The controller
  // ------------------------------------------------------------------

  class Controller {
    const disk: DiskCache.Image
    const geometry: Geometry
    var track: u8
    var side: u8
    var sector: u8
    const sectorBuf: array<u8>
    var bufPos: nat
    var writing: bool
    var writeTrack: bool
    var wtState: Mode
    var wtF5: u8
    var wtIdPos: nat
    var wtIdSector: u8
    var wtDataPos: nat
    var wtCount: nat
    var busy: bool
    var drq: bool
    var status: u8
    ghost var stored: seq<(u8, seq<u8>)>

    ghost predicate Shaped() {
      && sectorBuf.Length == SECTOR && sectorBuf != disk.cache && sectorBuf != disk.file
      && sectorBuf as object != disk.bitmap
    }

    ghost predicate Own()
      reads this
    {
      && Shaped() && wtDataPos <= SECTOR && (wtState == DataField ==> wtDataPos < SECTOR) && wtIdPos <= 4
      && (wtState == IdField ==> wtIdPos < 4) && bufPos <= SECTOR && (writing ==> bufPos < SECTOR) &&
          (writeTrack ==> wtCount < TRACK_BYTES)
    }

    ghost predicate Valid()
      reads this, disk, disk.bitmap, disk.cache, disk.file
    {
      Own() && disk.Valid()
    }

    ghost function State(): Parser
      requires wtDataPos <= sectorBuf.Length
      reads this, sectorBuf
    {
      Parser(wtState, wtF5, wtIdPos, wtIdSector, sectorBuf[..wtDataPos], wtCount, stored)
    }

    constructor (disk: DiskCache.Image, geometry: Geometry)
      requires disk.Valid()
      ensures Valid() && this.disk == disk && this.geometry == geometry && fresh(sectorBuf)
      ensures !writing && !writeTrack
    {
      this.disk, this.geometry := disk, geometry;
      sectorBuf := new u8[SECTOR](_ => 0);
      track, side, sector, bufPos, writing, writeTrack := 0, 0, 1, 0, false, false;
      wtState, wtF5, wtIdPos, wtIdSector, wtDataPos, wtCount := Idle, 0, 0, 1, 0, 0;
      busy, drq, status := false, false, 0;
      stored := [];
    }

    /** The WRITE TRACK command. */
    method StartWriteTrack()
      requires Valid()
      modifies this`writeTrack, this`wtState, this`wtF5, this`wtIdPos, this`wtIdSector, this`wtDataPos, this`wtCount
      modifies this`drq, this`status, this`stored
      ensures Valid() && writeTrack && State() == FRESH
    {
      hide DiskCache.Image.Valid;
      ResetParser();
      writeTrack, drq, status := true, true, 0x03;
    }

    method ResetParser()
      requires Own()
      modifies this`wtState, this`wtF5, this`wtIdPos, this`wtIdSector, this`wtDataPos, this`wtCount, this`stored
      ensures Own() && State() == FRESH
    {
      wtState, wtF5, wtIdPos, wtIdSector, wtDataPos, wtCount := Idle, 0, 0, 1, 0, 0;
      stored := [];
      assert sectorBuf[..0] == [];
    }

    // Put the full sector buffer where a sector lies; false when it lies nowhere.
    method Store(n: u8) returns (found: bool)
      requires Shaped() && disk.Valid()
      modifies disk.cache, disk.bitmap, disk`dirty
      ensures disk.Valid() && found == Offset(geometry, track, side, n).Some?
      ensures sectorBuf[..] == old(sectorBuf[..])
      ensures disk.cache[..] == Place(geometry, track, side, old(disk.cache[..]), (n, old(sectorBuf[..])))
    {
      hide Offset, DiskCache.Image.Valid;
      CacheAndSize();
      var off := Offset(geometry, track, side, n);
      found := off.Some?;
      if off.Some? && off.value + SECTOR <= disk.cache.Length {
        OffsetInside(geometry, track, side, n);
        ghost var c := disk.cache[..];
        disk.StoreSector(off.value, sectorBuf);
        assert c[..off.value] == old(disk.cache[..off.value]) &&
            c[off.value + SECTOR..] == old(disk.cache[off.value + SECTOR..]);
      }
    }

    lemma CacheAndSize()
      requires disk.Valid()
      ensures disk.cache != disk.file
    {
    }

    // A byte of the data field; the last one stores the sector.
    method DataByte(v: u8)
      requires Shaped() && disk.Valid() && wtDataPos < SECTOR && wtState == DataField
      modifies this`wtDataPos, this`wtState, this`stored, sectorBuf, disk.cache, disk.bitmap, disk`dirty
      ensures disk.Valid() && wtDataPos <= SECTOR && (wtState == DataField ==> wtDataPos < SECTOR)
      ensures State() == DataParsed(old(State()), v)
      ensures disk.cache[..] == Placed(geometry, track, side, old(disk.cache[..]), old(stored), stored)
    {
      hide Place, DiskCache.Image.Valid;
      sectorBuf[wtDataPos] := v;
      wtDataPos := wtDataPos + 1;
      assert sectorBuf[..wtDataPos] == old(sectorBuf[..wtDataPos]) + [v];
      if wtDataPos >= SECTOR {
        wtState := Idle;
        assert sectorBuf[..] == sectorBuf[..wtDataPos];
        ghost var full := sectorBuf[..];
        var found := Store(wtIdSector);
        assert sectorBuf[..wtDataPos] == full;
        stored := stored + [(wtIdSector, full)];
      }
    }

    // A byte while an address mark is awaited.
    method MarkByte(v: u8, f5: u8)
      requires wtState != DataField && wtState != IdField
      modifies this`wtState, this`wtIdPos, this`wtDataPos
      ensures f5 >= 3 && v == 0xFE ==> wtState == IdField && wtIdPos == 0 && wtDataPos == old(wtDataPos)
      ensures f5 >= 3 && v == 0xFB ==> wtState == DataField && wtIdPos == old(wtIdPos) && wtDataPos == 0
      ensures !(f5 >= 3 && (v == 0xFE || v == 0xFB)) ==>
                wtState == old(wtState) && wtIdPos == old(wtIdPos) && wtDataPos == old(wtDataPos)
    {
      if f5 >= 3 && v == 0xFE {
        wtState := IdField;
        wtIdPos := 0;
      } else if f5 >= 3 && v == 0xFB {
        wtState := DataField;
        wtDataPos := 0;
      }
    }

    // One byte through the state machine.
    method ParseByte(v: u8)
      requires Shaped() && disk.Valid() && wtDataPos <= SECTOR && (wtState == DataField ==> wtDataPos < SECTOR) &&
          wtIdPos <= 4
      requires wtCount < TRACK_BYTES && (wtState == IdField ==> wtIdPos < 4)
      modifies this`wtDataPos, this`wtState, this`stored, this`wtF5, this`wtIdPos, this`wtIdSector, this`wtCount
      modifies sectorBuf, disk.cache, disk.bitmap, disk`dirty
      ensures disk.Valid() && wtDataPos <= SECTOR && (wtState == DataField ==> wtDataPos < SECTOR) && wtIdPos <= 4
      ensures wtState == IdField ==> wtIdPos < 4
      ensures State() == Parse(old(State()), v)
      ensures disk.cache[..] == Placed(geometry, track, side, old(disk.cache[..]), old(stored), stored)
    {
      hide Place, DiskCache.Image.Valid;
      wtCount := wtCount + 1;
      var f5 := wtF5;
      if v == 0xF5 {
        wtF5 := W8(wtF5 + 1);
        return;
      }
      wtF5 := 0;
      match wtState {
        case IdField =>
          if wtIdPos == 2 { wtIdSector := v; }
          wtIdPos := wtIdPos + 1;
          if wtIdPos >= 4 { wtState := WaitDam; }
        case DataField => DataByte(v);
        case _ => MarkByte(v, f5);
      }
    }

    /** `fdc_write_track_byte`: one step of the parser, a completed sector going to the cache; the track
        is complete after 6250 bytes. */
    method WriteTrackByte(v: u8)
      requires Valid() && writeTrack
      modifies this, sectorBuf, disk.cache, disk.bitmap, disk`dirty
      ensures Valid() && State() == Parse(old(State()), v) && track == old(track) && side == old(side)
      ensures disk.cache[..] == Placed(geometry, track, side, old(disk.cache[..]), old(stored), stored)
      ensures writeTrack == (wtCount < TRACK_BYTES) && drq == writeTrack
    {
      hide Placed, Parse, DiskCache.Image.Valid;
      ghost var before := State();
      ParseByte(v);
      ParseCounts(before, v);
      AfterByte();
    }

    // The end of the track, or a request for the next byte.
    method AfterByte()
      modifies this`writeTrack, this`drq, this`busy, this`status
      ensures writeTrack == (old(writeTrack) && wtCount < TRACK_BYTES) && drq == (wtCount < TRACK_BYTES)
    {
      if wtCount >= TRACK_BYTES {
        writeTrack, drq, busy, status := false, false, false, 0;
      } else {
        drq := true;
      }
    }

    /** `fdc_write_data` during WRITE SECTOR: the last byte of the buffer writes the sector. */
    method WriteData(v: u8)
      requires Valid() && !writeTrack
      modifies this, sectorBuf, disk.cache, disk.bitmap, disk`dirty
      ensures Valid()
      ensures !old(writing) ==> disk.cache[..] == old(disk.cache[..]) && sectorBuf[..] == old(sectorBuf[..])
      ensures old(writing) ==> sectorBuf[..] == old(sectorBuf[..])[old(bufPos) := v] && bufPos == old(bufPos) + 1
      ensures old(writing) ==> writing == (bufPos < SECTOR)
      ensures old(writing) && !writing ==>
                disk.cache[..] == Place(geometry, track, side, old(disk.cache[..]), (sector, sectorBuf[..]))
                && status == (if Offset(geometry, track, side, sector).None? then 0x10 else 0x00)
      ensures old(writing) && writing ==> disk.cache[..] == old(disk.cache[..])
    {
      hide Place, Offset, DiskCache.Image.Valid;
      if !writing { return; }
      sectorBuf[bufPos] := v;
      bufPos := bufPos + 1;
      assert sectorBuf[..] == old(sectorBuf[..])[old(bufPos) := v];
      if bufPos >= SECTOR {
        writing, drq, busy := false, false, false;
        var found := Store(sector);
        status := if found then 0x00 else 0x10;
      } else {
        drq := true;
      }
    }
  }

  lemma ParseCounts(p: Parser, v: u8)
    ensures Parse(p, v).count == if p.count >= TRACK_BYTES then p.count else p.count + 1
  {
  }

  /** The cache after the bytes `s`, one step of the controller after the other. */
  function CacheAfter(g: Geometry, track: u8, side: u8, cache: seq<u8>, p: Parser, s: seq<u8>): seq<u8>
    decreases s
  {
    if s == [] then cache
    else
      var q := Parse(p, s[0]);
      CacheAfter(g, track, side, Placed(g, track, side, cache, p.stored, q.stored), q, s[1..])
  }

  lemma StoredGrows(p: Parser, v: u8)
    ensures var q := Parse(p, v);
      q.stored == p.stored || (|q.stored| == |p.stored| + 1 && q.stored[..|p.stored|] == p.stored)
  {
  }

  /** Step by step or all at once: the bytes put into the cache are the stored sectors, in order. */
  lemma {:induction false} CacheAfterIsPlaceAll(g: Geometry, track: u8, side: u8, cache: seq<u8>, p: Parser, s: seq<u8>)
    ensures p.stored <= ParseAll(p, s).stored
    ensures CacheAfter(g, track, side, cache, p, s) ==
              PlaceAll(g, track, side, cache, ParseAll(p, s).stored[|p.stored|..])
    decreases s
  {
    hide Parse, Place;
    if s == [] {
      assert p.stored[|p.stored|..] == [];
    } else {
      var q := Parse(p, s[0]);
      StoredGrows(p, s[0]);
      CacheAfterIsPlaceAll(g, track, side, Placed(g, track, side, cache, p.stored, q.stored), q, s[1..]);
      var all := ParseAll(p, s).stored;
      if q.stored != p.stored {
        assert all[|p.stored|..][0] == q.stored[|p.stored|];
        assert all[|p.stored|..][1..] == all[|q.stored|..];
      }
    }
  }

  // The parser's step in the data field.
  function DataParsed(p: Parser, v: u8): Parser {
    if |p.data| + 1 >= SECTOR then
      p.(data := p.data + [v], mode := Idle, stored := p.stored + [(p.idSector, p.data + [v])])
    else p.(data := p.data + [v])
  }

  // The cache after a step that went from `before` stored sectors to `after`.
  function Placed(g: Geometry, track: u8, side: u8, cache: seq<u8>, before: seq<(u8, seq<u8>)>,
                  after: seq<(u8, seq<u8>)>): seq<u8> {
    if |after| > |before| then Place(g, track, side, cache, after[|after| - 1]) else cache
  }
}
