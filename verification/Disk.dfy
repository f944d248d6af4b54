/** The write-back cache of a mounted disk image (src/supervisor/sv_disk.cpp): writes go to the cache
    and mark 256-byte sectors dirty in a bitmap; a flush writes each maximal run of dirty sectors to
    the image file, which keeps its header and whatever follows the data. */
module DiskCache {
  import opened Bits
  import opened Words

  const SECTOR := 256

  // ------------------------------------------------------------------
  // Runs of dirty sectors
  // ------------------------------------------------------------------

  // First clear sector from `s` on.
  function RunEnd(dirty: seq<bool>, s: nat): (e: nat)
    requires s <= |dirty|
    ensures s <= e <= |dirty| && (e < |dirty| ==> !dirty[e])
    ensures forall i :: s <= i < e ==> dirty[i]
    decreases |dirty| - s
  {
    if s < |dirty| && dirty[s] then RunEnd(dirty, s + 1) else s
  }

  /** The runs a flush writes, from sector `s` on: first sector and length. */
  function Runs(dirty: seq<bool>, s: nat): seq<(nat, nat)>
    requires s <= |dirty|
    decreases |dirty| - s
  {
    if s == |dirty| then []
    else if !dirty[s] then Runs(dirty, s + 1)
    else var e := RunEnd(dirty, s); [(s, e - s)] + Runs(dirty, e)
  }

  predicate InRun(r: (nat, nat), i: nat) { r.0 <= i < r.0 + r.1 }

  // A run of dirty sectors that cannot be extended.
  predicate Maximal(dirty: seq<bool>, r: (nat, nat)) {
    && r.1 > 0 && r.0 + r.1 <= |dirty|
    && (forall i :: r.0 <= i < r.0 + r.1 ==> dirty[i])
    && (r.0 > 0 ==> !dirty[r.0 - 1]) && (r.0 + r.1 < |dirty| ==> !dirty[r.0 + r.1])
  }

  lemma {:induction false} RunsFrom(dirty: seq<bool>, s: nat)
    requires s <= |dirty| && (s > 0 && s < |dirty| ==> !dirty[s - 1] || !dirty[s])
    ensures forall k :: 0 <= k < |Runs(dirty, s)| ==> Maximal(dirty, Runs(dirty, s)[k]) && Runs(dirty, s)[k].0 >= s
    ensures forall k, l :: 0 <= k < l < |Runs(dirty, s)| ==>
              Runs(dirty, s)[k].0 + Runs(dirty, s)[k].1 < Runs(dirty, s)[l].0
    decreases |dirty| - s
  {
    if s < |dirty| {
      if !dirty[s] {
        RunsFrom(dirty, s + 1);
      } else {
        var e := RunEnd(dirty, s);
        RunsFrom(dirty, e);
        AfterRun(dirty, e);
      }
    }
  }

  // No run starts at a clear sector.
  lemma AfterRun(dirty: seq<bool>, e: nat)
    requires e <= |dirty| && (e < |dirty| ==> !dirty[e])
    requires forall k :: 0 <= k < |Runs(dirty, e)| ==> Maximal(dirty, Runs(dirty, e)[k]) && Runs(dirty, e)[k].0 >= e
    ensures forall k :: 0 <= k < |Runs(dirty, e)| ==> Runs(dirty, e)[k].0 > e
  {
    forall k | 0 <= k < |Runs(dirty, e)|
      ensures Runs(dirty, e)[k].0 > e
    {
      var r := Runs(dirty, e)[k];
      assert Maximal(dirty, r);
      assert dirty[r.0];
    }
  }

  lemma {:induction false} RunsCover(dirty: seq<bool>, s: nat, i: nat)
    requires s <= i < |dirty| && dirty[i]
    ensures exists k :: 0 <= k < |Runs(dirty, s)| && InRun(Runs(dirty, s)[k], i)
    decreases |dirty| - s
  {
    if !dirty[s] {
      RunsCover(dirty, s + 1, i);
      var k :| 0 <= k < |Runs(dirty, s + 1)| && InRun(Runs(dirty, s + 1)[k], i);
      assert Runs(dirty, s)[k] == Runs(dirty, s + 1)[k];
    } else {
      var e := RunEnd(dirty, s);
      if i < e {
        assert InRun(Runs(dirty, s)[0], i);
      } else {
        RunsCover(dirty, e, i);
        var k :| 0 <= k < |Runs(dirty, e)| && InRun(Runs(dirty, e)[k], i);
        assert Runs(dirty, s)[k + 1] == Runs(dirty, e)[k];
      }
    }
  }

  /** A flush writes maximal runs, in ascending order and never adjacent, and every dirty sector lies
      in exactly one of them. */
  lemma EachDirtySectorOnce(dirty: seq<bool>, i: nat)
    requires i < |dirty|
    ensures forall k :: 0 <= k < |Runs(dirty, 0)| ==> Maximal(dirty, Runs(dirty, 0)[k])
    ensures dirty[i] <==> exists k :: 0 <= k < |Runs(dirty, 0)| && InRun(Runs(dirty, 0)[k], i)
    ensures forall k, l :: 0 <= k < l < |Runs(dirty, 0)| ==>
        !(InRun(Runs(dirty, 0)[k], i) && InRun(Runs(dirty, 0)[l], i))
  {
    RunsFrom(dirty, 0);
    if dirty[i] { RunsCover(dirty, 0, i); }
  }

  // ------------------------------------------------------------------
  // Cache and file
  // ------------------------------------------------------------------

  /** A sector whose dirty bit is clear is the same in the cache and in the file. */
  ghost predicate Synced(cache: seq<u8>, file: seq<u8>, header: nat, dirty: seq<bool>) {
    && |cache| == SECTOR * |dirty| && header + |cache| <= |file|
    && forall i :: 0 <= i < |cache| && !dirty[i / SECTOR] ==> file[header + i] == cache[i]
  }

  /** The file after a flush that went through: dirty sectors from the cache, every other byte as it was. */
  ghost predicate Flushed(before: seq<u8>, after: seq<u8>, cache: seq<u8>, header: nat, dirty: seq<bool>)
    requires |cache| == SECTOR * |dirty| && header + |cache| <= |before|
  {
    && |after| == |before|
    && (forall j :: 0 <= j < |before| && !(header <= j < header + |cache|) ==> after[j] == before[j])
    && (forall i :: 0 <= i < |cache| ==>
          after[header + i] == if dirty[i / SECTOR] then cache[i] else before[header + i])
  }

  /** After it the data region is the cache, header and trailing bytes are untouched. */
  lemma FlushMakesEqual(before: seq<u8>, after: seq<u8>, cache: seq<u8>, header: nat, dirty: seq<bool>)
    requires Synced(cache, before, header, dirty) && Flushed(before, after, cache, header, dirty)
    ensures after[header..header + |cache|] == cache
    ensures after[..header] == before[..header] && after[header + |cache|..] == before[header + |cache|..]
  {
    forall i | 0 <= i < |cache|
      ensures after[header + i] == cache[i]
    {
    }
  }

  // ------------------------------------------------------------------
  // A card that may take less than it is given
  // ------------------------------------------------------------------

  /** What the card takes at each write; once the list is used up, everything. */
  type Card = seq<nat>

  function Takes(card: Card, call: nat): nat { if call < |card| then card[call] else 512 }

  // Bytes taken by the card, and the number of the next write.
  datatype Progress = Progress(taken: nat, next: nat)

  /** How much of `remaining` bytes reaches the card, `Takes(card, call)` at most at the write numbered
      `call`, until a write takes nothing; `done` have before. */
  function RunWrites(card: Card, call: nat, remaining: nat, done: nat): (r: Progress)
    ensures done <= r.taken <= done + remaining && r.next >= call
    decreases remaining
  {
    if remaining == 0 then Progress(done, call)
    else
      var wrote := OneWrite(card, call, remaining);
      if wrote == 0 then Progress(done, call + 1)
      else RunWrites(card, call + 1, remaining - wrote, done + wrote)
  }

  // What one write takes of `remaining` bytes.
  function OneWrite(card: Card, call: nat, remaining: nat): (n: nat)
    ensures n <= remaining && (remaining > 0 ==> (n == 0 <==> Takes(card, call) == 0))
  {
    var chunk := if remaining > 512 then 512 else remaining;
    if Takes(card, call) < chunk then Takes(card, call) else chunk
  }

  // Writes made for a list of runs, and what the card takes of run `k`.
  function Calls(runs: seq<(nat, nat)>, card: Card): nat {
    if runs == [] then 0
    else RunWrites(card, Calls(runs[..|runs| - 1], card), SECTOR * runs[|runs| - 1].1, 0).next
  }

  function Took(runs: seq<(nat, nat)>, k: nat, card: Card): nat
    requires k < |runs|
  {
    RunWrites(card, Calls(runs[..k], card), SECTOR * runs[k].1, 0).taken
  }

  // The file with `n` bytes of the cache from `pos` on written to it.
  function Overwritten(file: seq<u8>, cache: seq<u8>, header: nat, pos: nat, n: nat): (r: seq<u8>)
    requires pos + n <= |cache| && header + |cache| <= |file|
    ensures |r| == |file|
  {
    file[..header + pos] + cache[pos..pos + n] + file[header + pos + n..]
  }

  predicate Inside(runs: seq<(nat, nat)>, size: nat) {
    forall k :: 0 <= k < |runs| ==> SECTOR * (runs[k].0 + runs[k].1) <= size
  }

  function AfterRuns(file: seq<u8>, cache: seq<u8>, header: nat, runs: seq<(nat, nat)>, card: Card): (r: seq<u8>)
    requires Inside(runs, |cache|) && header + |cache| <= |file|
    ensures |r| == |file|
  {
    if runs == [] then file
    else
      var k := |runs| - 1;
      assert Inside(runs[..k], |cache|);
      Overwritten(AfterRuns(file, cache, header, runs[..k], card), cache, header, SECTOR * runs[k].0,
                  Took(runs, k, card))
  }

  lemma RunsInside(dirty: seq<bool>, size: nat)
    requires size == SECTOR * |dirty|
    ensures Inside(Runs(dirty, 0), size)
  {
    RunsFrom(dirty, 0);
    forall k | 0 <= k < |Runs(dirty, 0)|
      ensures SECTOR * (Runs(dirty, 0)[k].0 + Runs(dirty, 0)[k].1) <= size
    {
      assert Maximal(dirty, Runs(dirty, 0)[k]);
    }
  }

  /** The file after a flush on such a card. */
  function AfterFlush(file: seq<u8>, cache: seq<u8>, header: nat, dirty: seq<bool>, card: Card): (r: seq<u8>)
    requires |cache| == SECTOR * |dirty| && header + |cache| <= |file|
    ensures |r| == |file|
  {
    RunsInside(dirty, |cache|);
    AfterRuns(file, cache, header, Runs(dirty, 0), card)
  }

  // Byte `i` of the cache is among what the card took.
  ghost predicate Written(runs: seq<(nat, nat)>, card: Card, i: nat) {
    exists k :: 0 <= k < |runs| && WrittenIn(runs, k, card, i)
  }

  predicate WrittenIn(runs: seq<(nat, nat)>, k: nat, card: Card, i: nat)
    requires k < |runs|
  {
    SECTOR * runs[k].0 <= i < SECTOR * runs[k].0 + Took(runs, k, card)
  }

  lemma WrittenLast(runs: seq<(nat, nat)>, card: Card, i: nat)
    requires runs != []
    ensures Written(runs, card, i) <==>
              Written(runs[..|runs| - 1], card, i) || WrittenIn(runs, |runs| - 1, card, i)
  {
    hide Took;
    var n := |runs| - 1;
    forall k: nat | k < n
      ensures WrittenIn(runs, k, card, i) == WrittenIn(runs[..n], k, card, i)
    {
      TookPrefix(runs, n, k, card);
    }
  }

  lemma TookPrefix(runs: seq<(nat, nat)>, n: nat, k: nat, card: Card)
    requires k < n <= |runs|
    ensures Took(runs[..n], k, card) == Took(runs, k, card)
  {
    assert runs[..n][..k] == runs[..k];
  }

  /** Byte by byte: what the card took comes from the cache, every other byte is as it was. */
  lemma {:induction false} AfterRunsAt(file: seq<u8>, cache: seq<u8>, header: nat, runs: seq<(nat, nat)>,
                                       card: Card, j: nat)
    requires Inside(runs, |cache|) && header + |cache| <= |file| && j < |file|
    ensures AfterRuns(file, cache, header, runs, card)[j] ==
            if header <= j < header + |cache| && Written(runs, card, j - header) then cache[j - header] else file[j]
    decreases |runs|
  {
    hide Written, WrittenIn, Took;
    if runs != [] {
      var k := |runs| - 1;
      assert Inside(runs[..k], |cache|);
      AfterRunsAt(file, cache, header, runs[..k], card, j);
      LastRunAt(AfterRuns(file, cache, header, runs[..k], card), cache, header, runs, card, j);
      if header <= j { WrittenLast(runs, card, j - header); }
    } else {
      NoneWritten(card, j - header);
    }
  }

  lemma NoneWritten(card: Card, i: int)
    ensures i >= 0 ==> !Written([], card, i)
  {
  }

  lemma LastRunAt(file: seq<u8>, cache: seq<u8>, header: nat, runs: seq<(nat, nat)>, card: Card, j: nat)
    requires runs != [] && Inside(runs, |cache|) && header + |cache| <= |file| && j < |file|
    ensures var k := |runs| - 1;
      Overwritten(file, cache, header, SECTOR * runs[k].0, Took(runs, k, card))[j] ==
      if header <= j < header + |cache| && WrittenIn(runs, k, card, j - header) then cache[j - header] else file[j]
  {
    hide Calls, RunWrites;
  }

  // Only bytes of dirty sectors are written.
  lemma WrittenIsDirty(dirty: seq<bool>, card: Card, i: nat)
    requires Written(Runs(dirty, 0), card, i)
    ensures i / SECTOR < |dirty| && dirty[i / SECTOR]
  {
    hide Calls, RunWrites;
    var runs := Runs(dirty, 0);
    var k :| 0 <= k < |runs| && WrittenIn(runs, k, card, i);
    RunsFrom(dirty, 0);
    assert Maximal(dirty, runs[k]);
    InSectors(i, runs[k].0, runs[k].0 + runs[k].1);
  }

  /** A flush, stalling or not, touches only dirty sectors: header, trailing bytes and clean sectors
      stay. */
  lemma FlushTouchesDirtyOnly(file: seq<u8>, cache: seq<u8>, header: nat, dirty: seq<bool>, card: Card, j: nat)
    requires |cache| == SECTOR * |dirty| && header + |cache| <= |file| && j < |file|
    requires header <= j < header + |cache| ==> !dirty[(j - header) / SECTOR]
    ensures AfterFlush(file, cache, header, dirty, card)[j] == file[j]
  {
    hide Written, AfterRuns, Runs;
    RunsInside(dirty, |cache|);
    AfterRunsAt(file, cache, header, Runs(dirty, 0), card, j);
    if header <= j < header + |cache| && Written(Runs(dirty, 0), card, j - header) {
      WrittenIsDirty(dirty, card, j - header);
    }
  }

  // Every dirty byte the card does not take is right in the file already.
  ghost predicate AgreesUnwritten(file: seq<u8>, cache: seq<u8>, header: nat, dirty: seq<bool>, card: Card)
    requires |cache| == SECTOR * |dirty| && header + |cache| <= |file|
  {
    forall i | 0 <= i < |cache| && dirty[i / SECTOR] && !Written(Runs(dirty, 0), card, i) ::
      file[header + i] == cache[i]
  }

  /** Whether a flush makes the file's data region equal the cache: exactly when every dirty byte the
      card did not take was right in the file already. All dirty bits being clear afterwards, that is
      also exactly when the invariant survives. */
  lemma FlushKeepsIff(file: seq<u8>, cache: seq<u8>, header: nat, dirty: seq<bool>, card: Card)
    requires Synced(cache, file, header, dirty)
    ensures Synced(cache, AfterFlush(file, cache, header, dirty, card), header, seq(|dirty|, _ => false)) <==>
            AgreesUnwritten(file, cache, header, dirty, card)
  {
    hide Written, AfterRuns, Runs;
    RunsInside(dirty, |cache|);
    var after := AfterFlush(file, cache, header, dirty, card);
    forall i | 0 <= i < |cache|
      ensures after[header + i] == if Written(Runs(dirty, 0), card, i) then cache[i] else file[header + i]
    {
      AfterRunsAt(file, cache, header, Runs(dirty, 0), card, header + i);
    }
    forall i | 0 <= i < |cache|
      ensures i / SECTOR < |dirty|
    {
      LastSector(i, |dirty|);
    }
    EqualIff(file, after, cache, header, dirty, card);
  }

  lemma EqualIff(file: seq<u8>, after: seq<u8>, cache: seq<u8>, header: nat, dirty: seq<bool>, card: Card)
    requires Synced(cache, file, header, dirty) && |after| == |file|
    requires forall i :: 0 <= i < |cache| ==> i / SECTOR < |dirty|
    requires forall i :: 0 <= i < |cache| ==>
               after[header + i] == if Written(Runs(dirty, 0), card, i) then cache[i] else file[header + i]
    ensures Synced(cache, after, header, seq(|dirty|, _ => false)) <==>
            AgreesUnwritten(file, cache, header, dirty, card)
  {
    hide Written, Runs;
    var clean := seq(|dirty|, _ => false);
    if AgreesUnwritten(file, cache, header, dirty, card) {
      forall i | 0 <= i < |cache|
        ensures after[header + i] == cache[i]
      {
      }
    }
    if Synced(cache, after, header, clean) {
      forall i | 0 <= i < |cache| && dirty[i / SECTOR] && !Written(Runs(dirty, 0), card, i)
        ensures file[header + i] == cache[i]
      {
        assert !clean[i / SECTOR];
        assert after[header + i] == cache[i];
      }
    }
  }

  /** Every write of the calls `from..to` takes something. */
  ghost predicate Steady(card: Card, from: nat, to: nat) {
    forall k: nat | from <= k < to :: Takes(card, k) > 0
  }

  /** A run is written to its end exactly when none of its writes stalls. */
  lemma {:induction false} RunStallsIff(card: Card, call: nat, remaining: nat, done: nat)
    ensures var r := RunWrites(card, call, remaining, done); r.taken == done + remaining <==> Steady(card, call, r.next)
    decreases remaining
  {
    if remaining > 0 {
      var wrote := OneWrite(card, call, remaining);
      if wrote > 0 {
        RunStallsIff(card, call + 1, remaining - wrote, done + wrote);
        var r := RunWrites(card, call + 1, remaining - wrote, done + wrote);
        assert Steady(card, call, r.next) <==> Steady(card, call + 1, r.next);
      } else {
        assert Takes(card, call) == 0;
      }
    }
  }

  /** A flush writes all of every run exactly when none of its writes stalls. */
  lemma {:induction false} AllTakenIff(runs: seq<(nat, nat)>, card: Card)
    ensures (forall k: nat | k < |runs| :: Took(runs, k, card) == SECTOR * runs[k].1) <==>
            Steady(card, 0, Calls(runs, card))
    decreases |runs|
  {
    if runs != [] {
      hide RunWrites, Steady, Took;
      var n := |runs| - 1;
      var p := runs[..n];
      AllTakenIff(p, card);
      RunStallsIff(card, Calls(p, card), SECTOR * runs[n].1, 0);
      SteadySplit(card, Calls(p, card), Calls(runs, card));
      assert Took(runs, n, card) == RunWrites(card, Calls(p, card), SECTOR * runs[n].1, 0).taken by {
        TookLast(runs, card);
      }
      forall k: nat | k < n
        ensures Took(runs, k, card) == Took(p, k, card)
      {
        TookPrefix(runs, n, k, card);
      }
      AllOrLast(runs, card);
    }
  }

  lemma TookLast(runs: seq<(nat, nat)>, card: Card)
    requires runs != []
    ensures var n := |runs| - 1;
      Took(runs, n, card) == RunWrites(card, Calls(runs[..n], card), SECTOR * runs[n].1, 0).taken
  {
  }

  lemma AllOrLast(runs: seq<(nat, nat)>, card: Card)
    requires runs != []
    requires forall k: nat | k < |runs| - 1 :: Took(runs, k, card) == Took(runs[..|runs| - 1], k, card)
    ensures var n := |runs| - 1; var p := runs[..n];
      (forall k: nat | k < |runs| :: Took(runs, k, card) == SECTOR * runs[k].1) <==>
      (forall k: nat | k < n :: Took(p, k, card) == SECTOR * p[k].1) && Took(runs, n, card) == SECTOR * runs[n].1
  {
    hide Took;
    var n := |runs| - 1;
    if forall k: nat | k < |runs| :: Took(runs, k, card) == SECTOR * runs[k].1 {
      forall k: nat | k < n
        ensures Took(runs[..n], k, card) == SECTOR * runs[..n][k].1
      {
        assert Took(runs, k, card) == SECTOR * runs[k].1;
      }
    }
  }

  lemma SteadySplit(card: Card, a: nat, b: nat)
    requires a <= b
    ensures Steady(card, 0, b) <==> Steady(card, 0, a) && Steady(card, a, b)
  {
  }

  /** When no write stalls, every dirty sector is in the file, and nothing else has changed. */
  lemma SteadyFlush(file: seq<u8>, cache: seq<u8>, header: nat, dirty: seq<bool>, card: Card)
    requires |cache| == SECTOR * |dirty| && header + |cache| <= |file|
    requires Steady(card, 0, Calls(Runs(dirty, 0), card))
    ensures Flushed(file, AfterFlush(file, cache, header, dirty, card), cache, header, dirty)
  {
    hide Written, AfterRuns, Runs, AfterFlush;
    var after := AfterFlush(file, cache, header, dirty, card);
    forall i | 0 <= i < |cache|
      ensures i / SECTOR < |dirty| && after[header + i] == if dirty[i / SECTOR] then cache[i] else file[header + i]
    {
      LastSector(i, |dirty|);
      if dirty[i / SECTOR] {
        SteadyAt(file, cache, header, dirty, card, i);
      } else {
        FlushTouchesDirtyOnly(file, cache, header, dirty, card, header + i);
      }
    }
    forall j | 0 <= j < |file| && !(header <= j < header + |cache|)
      ensures after[j] == file[j]
    {
      FlushTouchesDirtyOnly(file, cache, header, dirty, card, j);
    }
  }

  lemma SteadyAt(file: seq<u8>, cache: seq<u8>, header: nat, dirty: seq<bool>, card: Card, i: nat)
    requires |cache| == SECTOR * |dirty| && header + |cache| <= |file| && i < |cache|
    requires Steady(card, 0, Calls(Runs(dirty, 0), card)) && i / SECTOR < |dirty| && dirty[i / SECTOR]
    ensures AfterFlush(file, cache, header, dirty, card)[header + i] == cache[i]
  {
    hide AfterRuns, Runs, Took, Calls;
    var runs := Runs(dirty, 0);
    RunsInside(dirty, |cache|);
    AfterRunsAt(file, cache, header, runs, card, header + i);
    RunsCover(dirty, 0, i / SECTOR);
    var k: nat :| k < |runs| && InRun(runs[k], i / SECTOR);
    AllTakenIff(runs, card);
    assert Took(runs, k, card) == SECTOR * runs[k].1;
    InSectors(i, runs[k].0, runs[k].0 + runs[k].1);
    assert WrittenIn(runs, k, card, i);
  }

  /** When a write stalls, some run is not written to its end. */
  lemma StalledRun(runs: seq<(nat, nat)>, card: Card) returns (k: nat)
    requires !Steady(card, 0, Calls(runs, card))
    ensures k < |runs| && Took(runs, k, card) < SECTOR * runs[k].1
  {
    hide Took, Calls, Steady;
    AllTakenIff(runs, card);
    k :| k < |runs| && Took(runs, k, card) != SECTOR * runs[k].1;
    TookAtMost(runs, k, card);
  }

  /** From where a run stops to its end, the file keeps the bytes it had, all of dirty sectors. */
  lemma StallLeavesBytes(file: seq<u8>, cache: seq<u8>, header: nat, dirty: seq<bool>, card: Card, k: nat, i: nat)
    requires |cache| == SECTOR * |dirty| && header + |cache| <= |file| && k < |Runs(dirty, 0)|
    requires var r := Runs(dirty, 0)[k];
      SECTOR * r.0 + Took(Runs(dirty, 0), k, card) <= i < SECTOR * (r.0 + r.1)
    ensures i < |cache| && AfterFlush(file, cache, header, dirty, card)[header + i] == file[header + i]
    ensures i / SECTOR < |dirty| && dirty[i / SECTOR] && !Written(Runs(dirty, 0), card, i)
  {
    hide AfterRuns, Runs, Took, Written;
    var runs := Runs(dirty, 0);
    RunsInside(dirty, |cache|);
    RunsFrom(dirty, 0);
    assert Maximal(dirty, runs[k]);
    InSectors(i, runs[k].0, runs[k].0 + runs[k].1);
    AfterRunsAt(file, cache, header, runs, card, header + i);
    if Written(runs, card, i) {
      WrittenOnlyIn(dirty, card, k, i);
      assert false;
    }
  }

  lemma TookAtMost(runs: seq<(nat, nat)>, k: nat, card: Card)
    requires k < |runs|
    ensures Took(runs, k, card) <= SECTOR * runs[k].1
  {
  }

  // Runs are apart, so a byte of run `k` can be written only with run `k`.
  lemma WrittenOnlyIn(dirty: seq<bool>, card: Card, k: nat, i: nat)
    requires k < |Runs(dirty, 0)| && Written(Runs(dirty, 0), card, i)
    requires var r := Runs(dirty, 0)[k]; SECTOR * r.0 <= i < SECTOR * (r.0 + r.1)
    ensures WrittenIn(Runs(dirty, 0), k, card, i)
  {
    hide Took, Maximal;
    var runs := Runs(dirty, 0);
    RunsFrom(dirty, 0);
    var l: nat :| l < |runs| && WrittenIn(runs, l, card, i);
    TookAtMost(runs, l, card);
    assert l == k;
  }

  /** A card that takes nothing at all: the flush of a dirty sector leaves the file as it was, and the
      sector, now marked clean, differs from it. */
  lemma StalledFlushLosesData(cache: seq<u8>, file: seq<u8>)
    requires |cache| == SECTOR && |file| == SECTOR && cache[0] != file[0]
    ensures Synced(cache, file, 0, [true])
    ensures var after := AfterFlush(file, cache, 0, [true], [0]);
      after == file && !Synced(cache, after, 0, [false])
  {
    var card: Card := [0];
    forall i | 0 <= i < |cache|
      ensures i / SECTOR == 0
    {
    }
    AllDirty([true]);
    var runs := [(0, 1)];
    assert runs[..0] == [];
    assert Took(runs, 0, card) == 0;
    assert AfterRuns(file, cache, 0, runs[..0], card) == file;
    assert Overwritten(file, cache, 0, 0, 0) == file;
    assert 0 / SECTOR == 0;
  }

  // ------------------------------------------------------------------
  // The code
  // ------------------------------------------------------------------

  // The first `n` bits of a bitmap, eight to a byte.
  function BitsOf(m: seq<bv8>, n: nat): (d: seq<bool>)
    requires n <= 8 * |m|
    ensures |d| == n && forall s: nat | s < n :: d[s] == IsSet(m[s / 8], s % 8)
  {
    seq(n, s requires 0 <= s < n => IsSet(m[s / 8], s % 8))
  }

  class Image {
    const cache: array<u8>
    const bitmap: array<bv8>
    const mapped: bool        // the bitmap could be allocated
    const file: array<u8>     // the image file's bytes
    const header: nat
    const nsec: nat
    const readOnly: bool
    var dirty: bool
    ghost var log: seq<(nat, nat)>   // runs the last flush wrote

    ghost predicate Shaped()
      reads this
    {
      && cache.Length == SECTOR * nsec && header + cache.Length <= file.Length && cache != file
      && bitmap.Length == (nsec + 7) / 8
    }

    function Bit(s: nat): bool
      requires s / 8 < bitmap.Length
      reads bitmap
    {
      IsSet(bitmap[s / 8], s % 8)
    }

    /** The dirty sectors; without a bitmap all of them once anything is. */
    ghost function Dirty(): (d: seq<bool>)
      requires Shaped()
      reads this, bitmap
      ensures |d| == nsec && forall s: nat | s < nsec :: d[s] == if mapped then Bit(s) else dirty
    {
      var all := dirty;
      if mapped then BitsOf(bitmap[..], nsec) else seq(nsec, _ => all)
    }

    ghost predicate Valid()
      reads this, bitmap, cache, file
    {
      && Shaped() && Synced(cache[..], file[..], header, Dirty())
      && (mapped && !dirty ==> forall s: nat | s < nsec :: !Bit(s))
    }

    /** `sv_disk_mark_dirty` for one sector's range. */
    method MarkDirty(off: nat, len: nat)
      requires Shaped() && off + len <= cache.Length
      modifies bitmap, this`dirty
      ensures dirty && Shaped()
      ensures mapped ==> forall s: nat | s < nsec ::
                Bit(s) == (old(Bit(s)) || (len > 0 && off / SECTOR <= s <= (off + len - 1) / SECTOR))
      ensures forall s: nat | s < nsec ::
                old(Dirty())[s] || (len > 0 && off / SECTOR <= s <= (off + len - 1) / SECTOR) ==> Dirty()[s]
    {
      hide IsSet, BitsOf;
      dirty := true;
      if !mapped || len == 0 { return; }
      LastSector(off + len - 1, nsec);
      var s := off / SECTOR;
      var last := (off + len - 1) / SECTOR;
      while s <= last
        invariant off / SECTOR <= s <= last + 1 && last < nsec
        invariant forall t: nat | t < nsec :: Bit(t) == (old(Bit(t)) || off / SECTOR <= t < s)
        modifies bitmap
      {
        SetBit(s);
        s := s + 1;
      }
    }

    method SetBit(s: nat)
      requires Shaped() && s < nsec
      modifies bitmap
      ensures forall t: nat | t < nsec :: Bit(t) == (old(Bit(t)) || t == s)
    {
      var b := bitmap[s / 8];
      bitmap[s / 8] := WithBit(b, s % 8, true);
      forall t: nat | t < nsec
        ensures Bit(t) == (old(Bit(t)) || t == s)
      {
        OneBit(b, s % 8, true, t % 8);
      }
    }

    method CopyIn(off: nat, data: array<u8>)
      requires off + SECTOR <= cache.Length && data.Length == SECTOR && data != cache
      modifies cache
      ensures cache[..] == old(cache[..off]) + old(data[..]) + old(cache[off + SECTOR..])
    {
      var i := 0;
      while i < SECTOR
        invariant i <= SECTOR && data[..] == old(data[..])
        invariant forall k :: 0 <= k < cache.Length ==>
                    cache[k] == if off <= k < off + i then data[k - off] else old(cache[k])
      {
        cache[off + i] := data[i];
        i := i + 1;
      }
    }

    /** A whole sector into the cache, as both write paths end. */
    method StoreSector(off: nat, data: array<u8>)
      requires Valid() && off % SECTOR == 0 && off + SECTOR <= cache.Length && data.Length == SECTOR &&
          data != cache && data != file
      modifies cache, bitmap, this`dirty
      ensures Valid() && dirty
      ensures cache[..] == old(cache[..off]) + old(data[..]) + old(cache[off + SECTOR..])
      ensures file[..] == old(file[..])
    {
      hide IsSet, Synced, BitsOf;
      ghost var before, c0, f := Dirty(), cache[..], file[..];
      CopyIn(off, data);
      ghost var c := cache[..];
      MarkDirty(off, SECTOR);
      assert cache[..] == c && file[..] == f;
      OneSector(off);
      StillSynced(c0, c, f, header, before, Dirty(), off);
    }

    // `n` bytes of the cache from `pos` on have been written to the file, which was `before`.
    ghost predicate Holds(before: seq<u8>, pos: nat, n: nat)
      reads file, cache
    {
      && pos + n <= cache.Length && header + cache.Length <= |before|
      && file[..] == Overwritten(before, cache[..], header, pos, n)
    }

    lemma Room(first: nat, count: nat)
      requires Shaped() && first + count <= nsec
      ensures SECTOR * first + SECTOR * count <= cache.Length && header + cache.Length <= file.Length
    {
    }

    lemma HoldsNone(pos: nat)
      requires pos <= cache.Length && header + cache.Length <= file.Length
      ensures Holds(file[..], pos, 0)
    {
    }

    /** `flush_run`: sectors `first..first + count` to the file, at most 512 bytes a write; `card`
        says how many bytes the card takes at each write. Stops at the first write that takes none. */
    method FlushRun(first: nat, count: nat, card: Card, call0: nat) returns (total: nat, call: nat)
      requires Shaped() && first + count <= nsec
      modifies file
      ensures Progress(total, call) == RunWrites(card, call0, SECTOR * count, 0) && total <= SECTOR * count
      ensures Holds(old(file[..]), SECTOR * first, total)
    {
      var pos: nat, remaining: nat := SECTOR * first, SECTOR * count;
      total := 0;
      call := call0;
      hide OneWrite, Holds, Shaped;
      Room(first, count);
      ghost var all, before, at := RunWrites(card, call0, remaining, 0), file[..], pos;
      HoldsNone(pos);
      while remaining > 0
        invariant pos == at + total && total + remaining == SECTOR * count && pos + remaining <= cache.Length
        invariant RunWrites(card, call, remaining, total) == all
        invariant Holds(before, at, total)
        decreases remaining
      {
        var wrote := OneWrite(card, call, remaining);
        call := call + 1;
        if wrote == 0 { break; }
        WriteNext(pos, wrote, before, total);
        pos := pos + wrote;
        total := total + wrote;
        remaining := remaining - wrote;
      }
      if remaining == 0 { NoWrites(card, call, total); }
    }

    // Another piece of a run of which `n0` bytes are written.
    method WriteNext(pos: nat, n: nat, ghost before: seq<u8>, ghost n0: nat)
      requires Shaped() && n0 <= pos && pos + n <= cache.Length && Holds(before, pos - n0, n0)
      modifies file
      ensures Holds(before, pos - n0, n0 + n)
    {
      hide Overwritten;
      ghost var mid := file[..];
      WriteFile(pos, n);
      OverwrittenMore(before, mid, file[..], cache[..], header, pos - n0, n0, n);
    }

    method WriteFile(pos: nat, n: nat)
      requires Shaped() && pos + n <= cache.Length
      modifies file
      ensures forall j :: 0 <= j < file.Length ==>
                file[j] == if header + pos <= j < header + pos + n then cache[j - header] else old(file[j])
    {
      var i := 0;
      while i < n
        invariant i <= n
        invariant forall j :: 0 <= j < file.Length ==>
                    file[j] == if header + pos <= j < header + pos + i then cache[j - header] else old(file[j])
      {
        file[header + pos + i] := cache[pos + i];
        i := i + 1;
      }
    }

    // The inner loop: past the dirty sectors from `s` on.
    method SkipDirty(s: nat) returns (e: nat)
      requires Shaped() && mapped && s <= nsec
      ensures e == RunEnd(Dirty(), s)
    {
      e := s;
      while e < nsec && Bit(e)
        invariant s <= e <= nsec && RunEnd(Dirty(), e) == RunEnd(Dirty(), s)
        decreases nsec - e
      {
        e := e + 1;
      }
    }

    // The runs in the log, and nothing else, have gone to the card.
    ghost predicate RunsHold(before: seq<u8>, card: Card, call: nat)
      reads this`log, file, cache
    {
      && Inside(log, cache.Length) && header + cache.Length <= |before| && call == Calls(log, card)
      && file[..] == AfterRuns(before, cache[..], header, log, card)
    }

    lemma NoRunsHold(card: Card)
      requires Shaped() && log == []
      ensures RunsHold(file[..], card, 0)
    {
    }

    // One run flushed.
    method OneRun(s: nat, e: nat, card: Card, call0: nat, ghost before: seq<u8>) returns (call: nat)
      requires Shaped() && s < e <= nsec && RunsHold(before, card, call0)
      modifies file, this`log
      ensures RunsHold(before, card, call) && log == old(log) + [(s, e - s)]
    {
      hide Overwritten, RunWrites, AfterRuns, Calls;
      var total: nat;
      total, call := FlushRun(s, e - s, card, call0);
      RunNext(before, cache[..], header, log, (s, e - s), card);
      log := log + [(s, e - s)];
    }

    // The loop of `sv_disk_flush` over the bitmap.
    method FlushRuns(card: Card, ghost before: seq<u8>) returns (call: nat)
      requires Shaped() && mapped && log == [] && RunsHold(before, card, 0)
      modifies file, this`log
      ensures log == Runs(old(Dirty()), 0) && RunsHold(before, card, call)
    {
      hide Runs, RunEnd, BitsOf, RunsHold;
      ghost var d := Dirty();
      ghost var all := Runs(d, 0);
      var s := 0;
      call := 0;
      RunsEnd(d);
      while s < nsec
        invariant s <= nsec && log + Runs(d, s) == all && bitmap[..] == old(bitmap[..])
        invariant RunsHold(before, card, call)
        decreases nsec - s
      {
        if !Bit(s) {
          ClearStep(d, s);
          s := s + 1;
        } else {
          var e := SkipDirty(s);
          Longer(d, s);
          DirtyStep(d, s, log);
          call := OneRun(s, e, card, call, before);
          s := e;
        }
      }
      assert log == all;
    }

    // Everything dirty to the file, and the dirty bits cleared.
    method WriteBack(card: Card)
      requires Shaped() && nsec > 0 && dirty
      modifies file, bitmap, this`dirty, this`log
      ensures !dirty && (mapped ==> forall s: nat | s < nsec :: !Bit(s))
      ensures log == Runs(old(Dirty()), 0)
      ensures file[..] == AfterFlush(old(file[..]), cache[..], header, old(Dirty()), card)
    {
      hide Runs, RunWrites, AfterRuns, Calls, Overwritten;
      ghost var d, before := Dirty(), file[..];
      log := [];
      NoRunsHold(card);
      var call: nat;
      if !mapped {
        AllDirty(d);
        call := OneRun(0, nsec, card, 0, before);
      } else {
        call := FlushRuns(card, before);
      }
      ghost var after := file[..];
      if mapped {
        forall k | 0 <= k < bitmap.Length { bitmap[k] := 0; }
      }
      dirty := false;
      assert file[..] == after && cache[..] == old(cache[..]);
    }

    /** `sv_disk_flush`; `opens` says whether the image file can be opened. Whatever the card takes, the
        dirty bits are cleared: the invariant then holds exactly when the data region is the cache. */
    method Flush(opens: bool, card: Card)
      requires Valid() && nsec > 0
      modifies file, bitmap, this`dirty, this`log
      ensures cache[..] == old(cache[..])
      ensures !(old(dirty) && !readOnly && opens) ==>
                Valid() && file[..] == old(file[..]) && dirty == old(dirty) && Dirty() == old(Dirty())
      ensures old(dirty) && !readOnly && opens ==>
                && !dirty && (forall s: nat | s < nsec :: !Dirty()[s]) && log == Runs(old(Dirty()), 0)
                && file[..] == AfterFlush(old(file[..]), cache[..], header, old(Dirty()), card)
                && (Valid() <==> forall i :: 0 <= i < cache.Length ==> file[header + i] == cache[i])
      ensures old(dirty) && !readOnly && opens && Steady(card, 0, Calls(log, card)) ==>
                Valid() && Flushed(old(file[..]), file[..], cache[..], header, old(Dirty()))
    {
      hide Runs, AfterFlush, Steady, Calls, Synced, Flushed, BitsOf;
      if !dirty || readOnly { return; }
      if !opens { return; }
      ghost var d, before := Dirty(), file[..];
      WriteBack(card);
      Concluded(before, d, card);
    }

    // After a flush: when the invariant holds.
    lemma Concluded(before: seq<u8>, d: seq<bool>, card: Card)
      requires Shaped() && !dirty && (mapped ==> forall s: nat | s < nsec :: !Bit(s))
      requires |d| == nsec && Synced(cache[..], before, header, d) && log == Runs(d, 0)
      requires file[..] == AfterFlush(before, cache[..], header, d, card)
      ensures forall s: nat | s < nsec :: !Dirty()[s]
      ensures Valid() <==> forall i :: 0 <= i < cache.Length ==> file[header + i] == cache[i]
      ensures Steady(card, 0, Calls(log, card)) ==> Valid() && Flushed(before, file[..], cache[..], header, d)
    {
      hide Runs, AfterFlush, Steady, Calls;
      CleanIff(cache[..], file[..], header, Dirty());
      if Steady(card, 0, Calls(log, card)) {
        SteadyFlush(before, cache[..], header, d, card);
        NowSynced(before, file[..], cache[..], header, d, Dirty());
      }
    }
  }

  // The file after one run more.
  lemma RunNext(file: seq<u8>, cache: seq<u8>, header: nat, runs: seq<(nat, nat)>, r: (nat, nat), card: Card)
    requires Inside(runs, |cache|) && SECTOR * (r.0 + r.1) <= |cache| && header + |cache| <= |file|
    ensures Inside(runs + [r], |cache|)
    ensures var w := RunWrites(card, Calls(runs, card), SECTOR * r.1, 0);
      && Calls(runs + [r], card) == w.next && SECTOR * r.0 + w.taken <= |cache|
      && AfterRuns(file, cache, header, runs + [r], card) ==
           Overwritten(AfterRuns(file, cache, header, runs, card), cache, header, SECTOR * r.0, w.taken)
  {
    hide RunWrites, Overwritten;
    assert (runs + [r])[..|runs|] == runs;
  }

  lemma NoWrites(card: Card, call: nat, done: nat)
    ensures RunWrites(card, call, 0, done) == Progress(done, call)
  {
  }

  // Bytes written right behind those written before.
  lemma OverwrittenMore(file: seq<u8>, mid: seq<u8>, after: seq<u8>, cache: seq<u8>, header: nat, pos: nat, n: nat,
                        m: nat)
    requires pos + n + m <= |cache| && header + |cache| <= |file|
    requires mid == Overwritten(file, cache, header, pos, n) && |after| == |file|
    requires forall j :: 0 <= j < |file| ==>
               after[j] == if header + pos + n <= j < header + pos + n + m then cache[j - header] else mid[j]
    ensures after == Overwritten(file, cache, header, pos, n + m)
  {
  }

  lemma CleanIff(cache: seq<u8>, file: seq<u8>, header: nat, dirty: seq<bool>)
    requires |cache| == SECTOR * |dirty| && header + |cache| <= |file| && forall s :: 0 <= s < |dirty| ==> !dirty[s]
    ensures Synced(cache, file, header, dirty) <==> forall i :: 0 <= i < |cache| ==> file[header + i] == cache[i]
  {
    forall i | 0 <= i < |cache|
      ensures !dirty[i / SECTOR]
    {
      LastSector(i, |dirty|);
    }
  }

  lemma ClearStep(dirty: seq<bool>, s: nat)
    requires s < |dirty| && !dirty[s]
    ensures Runs(dirty, s) == Runs(dirty, s + 1)
  {
  }

  lemma DirtyStep(dirty: seq<bool>, s: nat, log: seq<(nat, nat)>)
    requires s < |dirty| && dirty[s]
    ensures var e := RunEnd(dirty, s); log + [(s, e - s)] + Runs(dirty, e) == log + Runs(dirty, s)
  {
  }

  lemma Longer(dirty: seq<bool>, s: nat)
    requires s < |dirty| && dirty[s]
    ensures RunEnd(dirty, s) > s
  {
  }

  lemma RunsEnd(dirty: seq<bool>)
    ensures Runs(dirty, |dirty|) == []
  {
  }

  lemma InSectors(i: nat, s: nat, e: nat)
    ensures SECTOR * s <= i < SECTOR * e <==> s <= i / SECTOR < e
  {
  }

  lemma NowSynced(before: seq<u8>, after: seq<u8>, cache: seq<u8>, header: nat, dirty: seq<bool>, dirty': seq<bool>)
    requires Synced(cache, before, header, dirty) && Flushed(before, after, cache, header, dirty) && |dirty'| == |dirty|
    ensures Synced(cache, after, header, dirty')
  {
  }

  lemma {:induction false} AllDirtyEnd(dirty: seq<bool>, s: nat)
    requires s <= |dirty| && forall i :: 0 <= i < |dirty| ==> dirty[i]
    ensures RunEnd(dirty, s) == |dirty|
    decreases |dirty| - s
  {
    if s < |dirty| { AllDirtyEnd(dirty, s + 1); }
  }

  lemma AllDirty(dirty: seq<bool>)
    requires |dirty| > 0 && forall i :: 0 <= i < |dirty| ==> dirty[i]
    ensures Runs(dirty, 0) == [(0, |dirty|)]
  {
    AllDirtyEnd(dirty, 0);
    assert Runs(dirty, |dirty|) == [];
  }

  lemma LastSector(a: nat, nsec: nat)
    requires a < SECTOR * nsec
    ensures a / SECTOR < nsec
  {
  }

  lemma OneSector(off: nat)
    requires off % SECTOR == 0
    ensures (off + SECTOR - 1) / SECTOR == off / SECTOR && off == SECTOR * (off / SECTOR)
  {
  }

  lemma SameSector(off: nat, i: nat)
    requires off % SECTOR == 0 && off <= i < off + SECTOR
    ensures i / SECTOR == off / SECTOR
  {
  }

  lemma StillSynced(cache: seq<u8>, cache': seq<u8>, file: seq<u8>, header: nat, dirty: seq<bool>, dirty': seq<bool>,
                    off: nat)
    requires Synced(cache, file, header, dirty) && |cache'| == |cache| && |dirty'| == |dirty|
    requires off % SECTOR == 0 && off + SECTOR <= |cache|
    requires forall k :: 0 <= k < |cache| && !(off <= k < off + SECTOR) ==> cache'[k] == cache[k]
    requires forall s :: 0 <= s < |dirty| ==> (dirty[s] || s == off / SECTOR ==> dirty'[s])
    ensures Synced(cache', file, header, dirty')
  {
    forall i | 0 <= i < |cache| && !dirty'[i / SECTOR]
      ensures file[header + i] == cache'[i]
    {
      OneSector(off);
      if off <= i < off + SECTOR { SameSector(off, i); }
    }
  }
}
