/** A file mounted as a block device (src/core/blockfile.cpp). Sequential accesses of the same kind
    skip the seek; the handle is closed when idle. Every transfer is proved to be the one a seek
    before it would have made. */
module BlockFile {
  import opened Words

  const UNKNOWN: u32 := 0xFFFF_FFFF
  const IDLE_MS := 3000
  const BOUNCE := 512
  const LONGEST := 0xFFFF_FFFF      // a FAT file's greatest length

  datatype Direction = Fresh | Reading | Writing

  /** What the file system leaves between the old end of a file and bytes written past it. */
  type Gap = nat -> u8

  /** An open file as the C library has it: a read must not follow a write, nor a write a read, without
      a seek between. How much a call transfers is up to the card. A seek past the end changes nothing
      until something is written there. */
  class File {
    var bytes: seq<u8>
    var at: nat
    var dir: Direction
    var open: bool
    const gap: Gap

    constructor (bytes: seq<u8>, gap: Gap)
      ensures this.bytes == bytes && this.gap == gap && !open
    {
      this.bytes, this.gap, at, dir, open := bytes, gap, 0, Fresh, false;
    }

    method Open()
      modifies this`at, this`dir, this`open
      ensures open && at == 0 && dir == Fresh
    {
      at, dir, open := 0, Fresh, true;
    }

    method Close()
      modifies this`open
      ensures !open
    {
      open := false;
    }

    method Seek(to: nat, works: bool) returns (ok: bool)
      requires open
      modifies this`at, this`dir
      ensures ok == works && (if ok then at == to && dir == Fresh else at == old(at) && dir == old(dir))
    {
      if works { at, dir := to, Fresh; }
      ok := works;
    }

    method Read(n: nat, most: nat) returns (got: seq<u8>)
      requires open && at <= |bytes| && dir != Writing
      modifies this`at, this`dir
      ensures |got| <= n && |got| <= most && old(at) + |got| <= |bytes| && got == bytes[old(at)..old(at) + |got|]
      ensures at == old(at) + |got| && dir == Reading
      ensures |got| == n || |got| == most || at == |bytes|
    {
      var k := if most < n then most else n;
      if at + k > |bytes| { k := |bytes| - at; }
      got := bytes[at..at + k];
      at, dir := at + k, Reading;
    }

    // `sought`: the caller has made sure of position and direction.
    method Write(data: seq<u8>, most: nat, ghost sought: bool) returns (n: nat)
      requires open && at <= LONGEST && (sought ==> dir != Reading)
      modifies this`bytes, this`at, this`dir
      ensures n <= |data| && (n == |data| || n == most || at == LONGEST)
      ensures bytes == Overlay(old(bytes), old(at), data[..n], gap)
      ensures at == old(at) + n <= LONGEST && dir == Writing
    {
      n := if most < |data| then most else |data|;
      if at + n > LONGEST { n := LONGEST - at; }
      bytes := Overlay(bytes, at, data[..n], gap);
      at, dir := at + n, Writing;
    }
  }

  /** A file after `data` is written at `at`, extended where it runs past the end. */
  function Overlay(bytes: seq<u8>, at: nat, data: seq<u8>, gap: Gap): (r: seq<u8>)
    ensures |r| == if data != [] && at + |data| > |bytes| then at + |data| else |bytes|
  {
    if data == [] then bytes
    else
      var padded := if at <= |bytes| then bytes else bytes + Padding(|bytes|, at, gap);
      padded[..at] + data + (if at + |data| < |bytes| then bytes[at + |data|..] else [])
  }

  function Padding(from: nat, to: nat, gap: Gap): (r: seq<u8>)
    requires from <= to
    ensures |r| == to - from
  {
    seq(to - from, i requires i >= 0 => gap(from + i))
  }

  lemma OverlayMore(bytes: seq<u8>, at: nat, a: seq<u8>, b: seq<u8>, gap: Gap)
    ensures Overlay(Overlay(bytes, at, a, gap), at + |a|, b, gap) == Overlay(bytes, at, a + b, gap)
  {
    hide Padding;
    if a == [] {
      assert a + b == b;
    } else if b == [] {
      assert a + b == a;
    } else {
      var padded := if at <= |bytes| then bytes else bytes + Padding(|bytes|, at, gap);
      var once := Overlay(bytes, at, a, gap);
      var end := at + |a| + |b|;
      assert once[..at + |a|] == padded[..at] + a;
      if end < |bytes| {
        assert once[end..] == bytes[end..];
      }
      assert padded[..at] + (a + b) == padded[..at] + a + b;
    }
  }

  lemma PieceMore(bytes: seq<u8>, at: nat, data: seq<u8>, done: nat, chunk: nat, n: nat, gap: Gap)
    requires done + chunk <= |data| && n <= chunk
    ensures Overlay(Overlay(bytes, at, data[..done], gap), at + done, data[done..done + chunk][..n], gap)
         == Overlay(bytes, at, data[..done + n], gap)
  {
    hide Overlay;
    assert data[..done] + data[done..done + chunk][..n] == data[..done + n];
    OverlayMore(bytes, at, data[..done], data[done..done + chunk][..n], gap);
  }

  /** The condition of `position`. */
  predicate Skips(pos: u32, lastWrite: bool, offset: u32, write: bool) { pos == offset && lastWrite == write }

  // The seek is skipped although the position is unknown: the offset is the mark for that itself.
  predicate Missed(pos: u32, lastWrite: bool, offset: u32, write: bool) {
    Skips(pos, lastWrite, offset, write) && pos == UNKNOWN
  }

  class BlockFile {
    const file: File
    var mounted: bool
    var size: u32
    var readOnly: bool
    var dirty: bool
    var lastMs: u32
    var pos: u32
    var lastWrite: bool
    ghost var seeks: nat      // seeks made so far

    /** `size` is the file's length; a known position is where the handle is, last used as recorded. */
    ghost predicate Valid()
      reads this, file
    {
      && (mounted ==> |file.bytes| <= LONGEST && size == |file.bytes|)
      && (file.open ==> mounted && file.at <= LONGEST)
      && (file.open && pos != UNKNOWN ==>
            file.at == pos && (file.dir == Fresh || file.dir == if lastWrite then Writing else Reading))
    }

    /** `blockfile_open`, the path naming a file. */
    constructor (bytes: seq<u8>, gap: Gap, readOnly: bool, now: u32)
      requires |bytes| <= LONGEST
      ensures Valid() && mounted && file.bytes == bytes && this.readOnly == readOnly && fresh(file)
    {
      file := new File(bytes, gap);
      mounted, size, this.readOnly, dirty, lastMs, pos, lastWrite, seeks :=
        true, |bytes|, readOnly, false, now, UNKNOWN, false, 0;
    }

    method EnsureOpen(now: u32, opens: bool) returns (ok: bool)
      requires Valid()
      modifies this`lastMs, this`pos, file`at, file`dir, file`open
      ensures Valid() && ok == (mounted && (old(file.open) || opens)) && (ok ==> file.open)
      ensures old(file.open) ==> pos == old(pos) && file.at == old(file.at) && file.dir == old(file.dir)
      ensures !old(file.open) && ok ==> pos == UNKNOWN && file.at == 0 && file.dir == Fresh
    {
      if !mounted { return false; }
      lastMs := now;
      if file.open { return true; }
      if !opens { return false; }
      file.Open();
      pos := UNKNOWN;
      return true;
    }

    /** `position`: afterwards the handle is at `offset`, free to be used in this direction. The one
        exception is 0xFFFFFFFF when the position is unknown and the direction unchanged: then nothing
        moves, and the handle stays wherever it is. */
    method Position(offset: u32, write: bool, works: bool) returns (ok: bool)
      requires Valid() && file.open
      modifies this`pos, this`lastWrite, this`seeks, file`at, file`dir
      ensures Valid() && ok == (works || Skips(old(pos), old(lastWrite), offset, write))
      ensures ok ==> pos == offset && lastWrite == write
      ensures ok && !Missed(old(pos), old(lastWrite), offset, write) ==>
                file.at == offset && file.dir != (if write then Reading else Writing)
      ensures Missed(old(pos), old(lastWrite), offset, write) ==> file.at == old(file.at) && file.dir == old(file.dir)
      ensures seeks == old(seeks) + if Skips(old(pos), old(lastWrite), offset, write) then 0 else 1
      ensures old(lastWrite) != write ==> seeks == old(seeks) + 1
    {
      if pos == offset && lastWrite == write { return true; }
      lastWrite := write;
      seeks := seeks + 1;
      ok := file.Seek(offset, works);
      pos := if ok then offset else UNKNOWN;
    }

    /** `blockfile_read`: the bytes at `offset`, as many as there are and the card delivers; the position
        kept or not, they are the file's bytes from `offset` on. */
    method Read(offset: u32, n0: nat, now: u32, opens: bool, works: bool, most: nat -> nat) returns (data: seq<u8>)
      requires Valid()
      modifies this`lastMs, this`pos, this`lastWrite, this`seeks, file`at, file`dir, file`open
      ensures Valid() && (data != [] ==> mounted)
      ensures data != [] ==> offset + |data| <= |file.bytes| && data == file.bytes[offset..offset + |data|]
      ensures mounted && (old(file.open) || opens) && works && offset < size && (forall k: nat :: most(k) >= BOUNCE) ==>
                |data| == if n0 <= size - offset then n0 else size - offset
    {
      data := [];
      if !mounted || offset >= size { return; }
      var ok := EnsureOpen(now, opens);
      if !ok { return; }
      var n := if n0 > size - offset then size - offset else n0;
      ok := Position(offset, false, works);
      if !ok { return; }
      data := Transfer(offset, n, most);
      pos := if |data| == n then offset + |data| else UNKNOWN;
    }

    // The read loop, in pieces of at most 512 bytes, until a piece comes back empty.
    method Transfer(offset: u32, n: nat, most: nat -> nat) returns (data: seq<u8>)
      requires file.open && file.at == offset && offset + n <= |file.bytes| && file.dir != Writing
      modifies file`at, file`dir
      ensures |data| <= n && data == file.bytes[offset..offset + |data|] && file.at == offset + |data|
      ensures n > 0 ==> file.dir == Reading
      ensures n == 0 ==> file.dir == old(file.dir)
      ensures (forall k: nat :: most(k) >= BOUNCE) ==> |data| == n
    {
      data := [];
      var call := 0;
      while |data| < n
        invariant |data| <= n && data == file.bytes[offset..offset + |data|] && file.at == offset + |data|
        invariant file.dir != Writing && (|data| > 0 ==> file.dir == Reading) &&
            (|data| == 0 ==> file.dir == old(file.dir))
        decreases n - |data|
      {
        var chunk := n - |data|;
        if chunk > BOUNCE { chunk := BOUNCE; }
        var got := file.Read(chunk, most(call));
        call := call + 1;
        if |got| == 0 { break; }
        data := data + got;
      }
    }

    // The seek of a write at `offset` will be missed.
    predicate WriteMisses(offset: u32)
      reads this`pos, this`lastWrite, file`open
    {
      Missed(if file.open then pos else UNKNOWN, lastWrite, offset, true)
    }

    // Where a write at `offset` goes: there, or with the seek missed wherever the handle is.
    function Landing(offset: u32): nat
      reads this`pos, this`lastWrite, file`open, file`at
    {
      if !WriteMisses(offset) then offset else if file.open then file.at else 0
    }

    /** `blockfile_write`: the bytes go to `offset`, position kept or not, and the file and `size` grow
        together; unless the seek is missed. Then they go to where the handle happens to be, and the
        position recorded for the next access is wrong. */
    method Write(offset: u32, data: seq<u8>, now: u32, opens: bool, works: bool, most: nat -> nat) returns (done: nat)
      requires Valid() && |data| < 0x1_0000_0000
      modifies this`lastMs, this`pos, this`lastWrite, this`seeks, this`dirty, this`size
      modifies file`at, file`dir, file`open, file`bytes
      ensures !old(WriteMisses(offset)) || done == 0 ==> Valid()
      ensures old(WriteMisses(offset)) && 0 < done == |data| ==> !Valid()
      ensures done <= |data| && (done > 0 ==> mounted && !readOnly && dirty)
      ensures file.bytes == Overlay(old(file.bytes), old(Landing(offset)), data[..done], file.gap)
      ensures mounted && !readOnly && (old(file.open) || opens) && works && (forall k: nat :: most(k) >= BOUNCE) ==>
                done == |data| || old(Landing(offset)) + done == LONGEST
    {
      hide Overlay;
      done := 0;
      NothingWritten(file.bytes, Landing(offset), data, file.gap);
      if readOnly { return; }
      var ok := EnsureOpen(now, opens);
      if !ok { return; }
      done := WriteOpen(offset, data, works, most);
    }

    // The rest of it, the handle being open.
    method WriteOpen(offset: u32, data: seq<u8>, works: bool, most: nat -> nat) returns (done: nat)
      requires Valid() && file.open && |data| < 0x1_0000_0000
      modifies this`pos, this`lastWrite, this`seeks, this`dirty, this`size, file`at, file`dir, file`bytes
      ensures !old(WriteMisses(offset)) || done == 0 ==> Valid()
      ensures old(WriteMisses(offset)) && 0 < done == |data| ==> !Valid()
      ensures done <= |data| && (done > 0 ==> dirty)
      ensures file.bytes == Overlay(old(file.bytes), old(Landing(offset)), data[..done], file.gap)
      ensures works && (forall k: nat :: most(k) >= BOUNCE) ==>
                done == |data| || old(Landing(offset)) + done == LONGEST
    {
      hide Overlay;
      done := 0;
      NothingWritten(file.bytes, Landing(offset), data, file.gap);
      ghost var missed, to, bytes := WriteMisses(offset), Landing(offset), file.bytes;
      var ok := Position(offset, true, works);
      if !ok { return; }
      done := Store(data, most, !missed);
      pos := if done == |data| then W32(offset + done) else UNKNOWN;
      if done > 0 {
        dirty := true;
        if W32(offset + done) > size { size := W32(offset + done); }
      }
    }

    method Store(data: seq<u8>, most: nat -> nat, ghost sought: bool) returns (done: nat)
      requires file.open && file.at <= LONGEST && (sought ==> file.dir != Reading)
      modifies file`at, file`dir, file`bytes
      ensures done <= |data| && file.bytes == Overlay(old(file.bytes), old(file.at), data[..done], file.gap)
      ensures file.at == old(file.at) + done <= LONGEST
      ensures done == 0 ==> file.dir == old(file.dir) || file.dir == Writing
      ensures done > 0 ==> file.dir == Writing
      ensures (forall k: nat :: most(k) >= BOUNCE) ==> done == |data| || file.at == LONGEST
    {
      hide Overlay;
      done := 0;
      ghost var before, at := file.bytes, file.at;
      NothingWritten(before, at, data, file.gap);
      var call := 0;
      while done < |data|
        invariant done <= |data| && file.bytes == Overlay(before, at, data[..done], file.gap)
        invariant file.at == at + done <= LONGEST
        invariant (sought ==> file.dir != Reading) && (done > 0 ==> file.dir == Writing)
        invariant done == 0 ==> file.dir == old(file.dir) || file.dir == Writing
        decreases |data| - done
      {
        var chunk := |data| - done;
        if chunk > BOUNCE { chunk := BOUNCE; }
        var piece := data[done..done + chunk];
        var n := file.Write(piece, most(call), sought);
        PieceMore(before, at, data, done, chunk, n, file.gap);
        call := call + 1;
        if n == 0 { break; }
        done := done + n;
      }
    }

    /** `blockfile_flush` */
    method Flush()
      requires Valid()
      modifies this`dirty
      ensures Valid() && (file.open ==> !dirty)
    {
      if file.open && dirty { dirty := false; }
    }

    /** `blockfile_tick`: closes the handle when it has been idle for three seconds, wraparound of the
        millisecond counter included. */
    method Tick(now: u32)
      requires Valid()
      modifies this`dirty, file`open
      ensures Valid()
      ensures file.open == (old(file.open) && W32(now - lastMs) < IDLE_MS)
      ensures old(file.open) && !file.open ==> !dirty
    {
      if !file.open { return; }
      if W32(now - lastMs) < IDLE_MS { return; }
      Flush();
      file.Close();
    }

    method Close()
      requires Valid()
      modifies this`mounted, this`size, this`readOnly, this`dirty, file`open
      ensures Valid() && !mounted && !file.open && file.bytes == old(file.bytes)
    {
      if file.open { file.Close(); }
      mounted, size, readOnly, dirty := false, 0, false, false;
    }
  }

  lemma NothingWritten(bytes: seq<u8>, at: nat, data: seq<u8>, gap: Gap)
    ensures Overlay(bytes, at, data[..0], gap) == bytes
  {
  }
}
