/** What the rate control of the sample ring is for (src/hal/audio_feed.h): a fuller ring is played faster, an
    emptier one slower, a steady one at full speed, and the read position moves by exactly the stride.

    The laws are about one uninterrupted `audio_feed_steer` and the words after it, as `AudioFeed`
    describes them, in numbers. */
module AudioControl {
  import opened Words
  import opened AudioFeed

  function Fill(f: Feed): int { |f.sent| - f.rd }

  // ------------------------------------------------------------------
  // The stride
  // ------------------------------------------------------------------

  /** The stride to which the correction is added: full speed, or while the machine is slow one frame's samples
      in the averaged frame interval, and no less than 36044. */
  predicate IsBase(base: int, c: Control) {
    if !c.slow then base == 65536
    else if 36044 * c.dtAvg > 65536 * 16666 then base == 36044
    else base * c.dtAvg <= 65536 * 16666 < (base + 1) * c.dtAvg
  }

  lemma FloorIs(n: int, d: int, q: int)
    requires d > 0 && q == n / d
    ensures q * d <= n < (q + 1) * d
  {
    assert n == q * d + n % d;
    assert (q + 1) * d == q * d + d;
  }

  lemma BaseIs(c: Control)
    requires ControlOk(c)
    ensures IsBase(FeedForward(c), c)
  {
    if c.slow {
      var n := 65536 * 16666;
      var q := n / c.dtAvg;
      FloorIs(n, c.dtAvg, q);
      if q < 36044 { Grows(q + 1, 36044, c.dtAvg); } else { Grows(36044, q, c.dtAvg); }
    }
  }

  /** The averaged error, in samples; the correction is 7.5 times it, toward zero, and at most 1966. */
  predicate IsCorrection(trim: int, err: int) {
    if err >= 0 then trim == (if 15 * err < 2 * 1966 then 15 * err / 2 else 1966)
    else trim == -(if 15 * -err < 2 * 1966 then 15 * -err / 2 else 1966)
  }

  lemma CorrectionIs(e: int)
    ensures IsCorrection(Clamp(Halved(e / 16 * 15), 1966), e / 16)
  {
    var err := e / 16;
    assert err * 15 == 15 * err;
  }

  /** After a steer the stride is exactly 65536 unless the controller is correcting; then it lies above its base
      only for a positive averaged error, below only for a negative one, and on it for none. */
  lemma StrideFollowsError(f: Feed, dt: u32) returns (base: int, trim: int)
    requires Inv(f) && f.playing
    ensures var g := Steered(f, dt); var err := g.control.errQ4 / 16;
      && (!g.control.correcting ==> g.stride == 65536)
      && (g.control.correcting ==> g.stride == base + trim)
      && IsBase(base, g.control) && IsCorrection(trim, err)
      && (trim > 0 <==> err > 0) && (trim < 0 <==> err < 0)
  {
    hide Average, Judged, LogOk, RingHolds, FeedForward;
    AverageOk(f.control, dt);
    JudgedOk(Average(f.control, dt), Fill(f));
    var c := Steered(f, dt).control;
    BaseIs(c);
    CorrectionIs(c.errQ4);
    base, trim := FeedForward(c), Clamp(Halved(c.errQ4 / 16 * 15), 1966);
  }

  // ------------------------------------------------------------------
  // The averages
  // ------------------------------------------------------------------

  /** `after` is `before` moved 1/`n` of the way to `goal`, rounded down. */
  predicate Approaches(before: int, after: int, goal: int, n: int) {
    n * (after - before) <= goal - before < n * (after - before) + n
  }

  /** The error average moves 1/16 of the way to sixteen times the distance from the target level. Slowness
      begins above 102 % of a frame and ends below 101 %; correcting begins when slow or more than 128 samples
      off and ends, when not slow, within 32. */
  lemma Judges(f: Feed, dt: u32)
    requires Inv(f) && f.playing
    ensures var c, d := f.control, Steered(f, dt).control;
      var size := if d.errQ4 >= 0 then d.errQ4 / 16 else -(d.errQ4 / 16);
      && Approaches(c.errQ4, d.errQ4, (Fill(f) - 774) * 16, 16)
      && d.slow == (d.dtAvg > 16999 || (c.slow && d.dtAvg >= 16832))
      && d.correcting == (d.slow || size > 128 || (c.correcting && size > 32))
  {
    hide LogOk, RingHolds, ControlOk;
    AveragedOnly(f.control, dt);
    hide Average;
  }

  lemma AveragedOnly(c: Control, dt: u32)
    ensures var d := Average(c, dt); d.errQ4 == c.errQ4 && d.slow == c.slow && d.correcting == c.correcting
  {
  }

  /** An interval outside 8 to 60 ms counts for nothing; an ordinary one moves the average 1/32 of the way. */
  lemma Averages(c: Control, dt: u32)
    ensures dt < 8000 || dt > 60000 ==> Average(c, dt) == c
    ensures 8000 <= dt <= 20832 && 4 * (dt + 1) > 3 * c.dtAvg ==>
              Approaches(c.dtAvg, Average(c, dt).dtAvg, dt, 32) &&
              Average(c, dt).longRun == 0 && Average(c, dt).shortRun == 0
  {
  }

  function Least(a: int, b: int): int { if a < b then a else b }

  function Most(a: int, b: int): int { if a > b then a else b }

  predicate Long(dt: u32) { 20832 < dt <= 60000 }

  /** One long frame or two change nothing; the third takes the average to the shortest of the three, up only. */
  lemma ThreeLong(c: Control, d1: u32, d2: u32, d3: u32)
    requires c.longRun == 0 && Long(d1) && Long(d2) && Long(d3)
    ensures var a := Average(c, d1); var b := Average(a, d2);
      a.dtAvg == c.dtAvg && b.dtAvg == c.dtAvg &&
      Average(b, d3).dtAvg == Most(c.dtAvg, Least(d1, Least(d2, d3)))
  {
  }

  /** Further long frames leave it there. */
  lemma MoreLong(c: Control, dt: u32)
    requires c.longRun >= 3 && c.longMin <= c.dtAvg && Long(dt)
    ensures var d := Average(c, dt); d.dtAvg == c.dtAvg && d.longRun >= 3 && d.longMin <= d.dtAvg
  {
  }

  predicate Short(c: Control, dt: u32) { 8000 <= dt <= 20832 && 4 * (dt + 1) <= 3 * c.dtAvg }

  /** Three frames well under the average take it to the longest of them, or to a frame if that is longer, down
      only; each moves it 1/32 of the way besides. */
  lemma ThreeShort(c: Control, d1: u32, d2: u32, d3: u32)
    requires c.shortRun == 0 && Short(c, d1) && Short(Average(c, d1), d2)
    requires Short(Average(Average(c, d1), d2), d3)
    ensures var a := Average(c, d1); var b := Average(a, d2); var d := Average(b, d3);
      && Approaches(c.dtAvg, a.dtAvg, d1, 32) && Approaches(a.dtAvg, b.dtAvg, d2, 32)
      && Approaches(Least(b.dtAvg, Most(16666, Most(d1, Most(d2, d3)))), d.dtAvg, d3, 32)
  {
    ShortOne(c, d1);
    ShortOne(Average(c, d1), d2);
    ShortOne(Average(Average(c, d1), d2), d3);
  }

  lemma ShortOne(c: Control, dt: u32)
    requires Short(c, dt)
    ensures var d := Average(c, dt);
      && d.shortRun == Bump(c.shortRun)
      && d.shortMax == (if c.shortRun == 0 then dt else Most(dt, c.shortMax))
      && Approaches(if d.shortRun >= 3 then Least(c.dtAvg, Most(16666, d.shortMax)) else c.dtAvg, d.dtAvg, dt, 32)
  {
  }

  // ------------------------------------------------------------------
  // Larger fill, larger stride
  // ------------------------------------------------------------------

  lemma TrimGrows(a: int, b: int)
    requires a <= b
    ensures Clamp(Halved(a / 16 * 15), 1966) <= Clamp(Halved(b / 16 * 15), 1966)
  {
    assert a / 16 <= b / 16;
  }

  lemma ErrorGrows(c: Control, n: nat, m: nat)
    requires n <= m
    ensures Judged(c, n).errQ4 <= Judged(c, m).errQ4 && Judged(c, n).slow == Judged(c, m).slow
    ensures Judged(c, n).dtAvg == Judged(c, m).dtAvg == c.dtAvg
  {
  }

  /** Of two feeds alike but for the fill, the fuller never gets the smaller stride. */
  lemma StrideFollowsFill(f: Feed, g: Feed, dt: u32)
    requires Inv(f) && f.playing && Inv(g) && g.playing && f.control == g.control && Fill(f) <= Fill(g)
    ensures Steered(f, dt).stride <= Steered(g, dt).stride
  {
    hide LogOk, RingHolds, Average, Judged, Stride, ProducerOk, ConsumerOk;
    AverageOk(f.control, dt);
    var c := Average(f.control, dt);
    Monotone(c, Fill(f), Fill(g));
  }

  lemma Monotone(c: Control, n: nat, m: nat)
    requires n <= m && c.dtAvg > 0
    ensures Judged(c, n).dtAvg > 0 && Judged(c, m).dtAvg > 0
    ensures Stride(Judged(c, n)) <= Stride(Judged(c, m))
  {
    ErrorGrows(c, n, m);
    var j, k := Judged(c, n), Judged(c, m);
    TrimGrows(j.errQ4, k.errQ4);
    CorrectionIs(j.errQ4);
    CorrectionIs(k.errQ4);
    hide Clamp, Halved;
    assert FeedForward(j) == FeedForward(k);
  }

  // ------------------------------------------------------------------
  // The words
  // ------------------------------------------------------------------

  /** The read position in 65536ths of a sample. */
  function Position(f: Feed): int { f.rd * 65536 + f.frac }

  // There is something to play: one sample at full speed, two to interpolate between.
  predicate Ready(f: Feed) { Fill(f) >= 2 || (f.pace == 65536 && Fill(f) == 1) }

  /** A word moves the position by exactly the stride of its buffer. It is the input sample there at full speed,
      else the value nearest to the straight line between the two samples around it. */
  lemma WordPlays(f: Feed)
    requires Inv(f) && f.playing && f.cons.Top? && f.cons.left > 0 && Ready(f)
    ensures var g := Word(f); g.playing && g.cons == Top(f.cons.left - 1) && g.pace == f.pace && g.sent == f.sent
    ensures Position(Word(f)) == Position(f) + f.pace
    ensures f.pace == 65536 ==> Word(f).last == f.sent[f.rd]
    ensures f.pace != 65536 ==>
      var line := f.sent[f.rd] * (65536 - f.frac) + f.sent[f.rd + 1] * f.frac;
      -32768 <= 65536 * Word(f).last - line <= 32768
  {
    hide ControlOk, LogOk, Word;
    PlayedWord(f);
    assert f.ring[f.rd % RING] == f.sent[f.rd];
    if f.pace != 65536 {
      assert f.ring[(f.rd + 1) % RING] == f.sent[f.rd + 1];
      Nearest(f.sent[f.rd], f.sent[f.rd + 1], f.frac);
      Divided(f.frac + f.pace);
    }
  }

  lemma Divided(n: nat)
    ensures n == n / 0x1_0000 * 65536 + n % 0x1_0000
  {
  }

  lemma Nearest(s0: u8, s1: u8, frac: nat)
    requires frac < 65536
    ensures var line := s0 * (65536 - frac) + s1 * frac;
      -32768 <= 65536 * W8(Mix(s0, s1, frac)) - line <= 32768
  {
    var d := (s1 - s0) * frac;
    assert s0 * (65536 - frac) + s1 * frac == 65536 * s0 + d;
    var q := (d + 0x8000) / 0x1_0000;
    assert 0x1_0000 * q <= d + 0x8000 < 0x1_0000 * q + 0x1_0000;
    MixWithin(s0, s1, frac);
  }

  lemma MixWithin(s0: u8, s1: u8, frac: nat)
    requires frac < 65536
    ensures 0 <= Mix(s0, s1, frac) < 0x100
  {
    if s0 <= s1 { Grows(frac, 65536, s1 - s0 + 1); } else { Grows(frac, 65536, s0 - s1); }
    var d := (s1 - s0) * frac;
    if s0 <= s1 {
      assert 0 <= d <= (s1 - s0) * 65536 by { Scaled(s1 - s0, frac); }
    } else {
      assert -(s0 - s1) * 65536 <= d <= 0 by { Scaled(s0 - s1, frac); }
    }
  }

  lemma Scaled(k: nat, frac: nat)
    requires frac <= 65536
    ensures 0 <= k * frac <= k * 65536
  {
  }

  /** So do all the words of a buffer that does not run dry: `n` words, `n` strides. */
  lemma {:induction false} WordsAdvance(f: Feed, n: nat)
    requires Inv(f) && f.playing && f.cons.Top? && n <= f.cons.left
    requires Position(f) + (n + 1) * f.pace + 65536 <= |f.sent| * 65536
    ensures var g := AllWords(f, n); g.playing && Position(g) == Position(f) + n * f.pace
    decreases n
  {
    hide Inv, Word;
    if n > 0 {
      PositionOk(f);
      assert (n + 1) * f.pace == n * f.pace + f.pace;
      WordPlays(f);
      WordOk(f);
      WordsAdvance(Word(f), n - 1);
      assert n * f.pace == (n - 1) * f.pace + f.pace;
    }
  }

  lemma PositionOk(f: Feed)
    requires Inv(f)
    ensures f.pace > 0 && 0 <= f.frac < 65536
  {
  }
}
