/** The sample ring between the emulation loop and the DMA buffers (src/hal/audio_feed.h).

    Producer (core 1) and consumer (core 0) are two threads whose steps, each with at most one access
    to shared state, interleave in any order. `rd` belongs to the consumer while `playing` is set and
    to the producer while it is clear; the rate controller bounds the stride. Positions are unbounded
    here; the class below works with the 32-bit indices of the code. */
module AudioFeed {
  import opened Arithmetic
  import opened Words

  const RING := 2048
  const FILL_LIMIT := 1984
  const FRAME_US := 16666
  const ONE := 65536
  const FILL_TARGET := 774
  const SLOW_DT_US := 16999
  const FULL_DT_US := 16832
  const LONG_DT_US := 20832
  const FILL_BAND := 128
  const FILL_SETTLED := 32
  const TRIM_MAX := 1966
  const STRIDE_MIN := 36044
  const DT_MIN_US := 8000
  const DT_MAX_US := 60000

  // The macros these stand for.
  lemma Constants()
    ensures FILL_LIMIT == RING - 64 && FILL_TARGET == 262 + 512
    ensures SLOW_DT_US == FRAME_US * 102 / 100 && FULL_DT_US == FRAME_US * 101 / 100 && LONG_DT_US == FRAME_US * 5 / 4
    ensures TRIM_MAX == ONE * 3 / 100 && STRIDE_MIN == ONE * 55 / 100
  {
  }

  // ------------------------------------------------------------------
  // The rate controller (producer only)
  // ------------------------------------------------------------------

  datatype Control = Control(dtAvg: int, errQ4: int, correcting: bool, slow: bool,
                             longRun: nat, longMin: u32, shortRun: nat, shortMax: u32)

  const CALM := Control(FRAME_US, 0, false, false, 0, 0, 0, 0)

  function Bump(n: nat): nat { if n < 255 then n + 1 else 255 }

  /** The average frame interval: slow, but three long frames in a row, or three short ones, go
      straight to the mildest of them. */
  function Average(c: Control, dt: u32): Control {
    if dt < DT_MIN_US || dt > DT_MAX_US then c
    else if dt > LONG_DT_US then
      var run := Bump(c.longRun);
      var least := if run == 1 || dt < c.longMin then dt else c.longMin;
      c.(shortRun := 0, longRun := run, longMin := least,
         dtAvg := if run >= 3 && least > c.dtAvg then least else c.dtAvg)
    else if dt < c.dtAvg * 3 / 4 then
      var run := Bump(c.shortRun);
      var most := if run == 1 || dt > c.shortMax then dt else c.shortMax;
      var to := if most < FRAME_US then FRAME_US else most;
      var avg := if run >= 3 && to < c.dtAvg then to else c.dtAvg;
      c.(longRun := 0, shortRun := run, shortMax := most, dtAvg := avg + (dt - avg) / 32)
    else c.(longRun := 0, shortRun := 0, dtAvg := c.dtAvg + (dt - c.dtAvg) / 32)
  }

  // Division as in C, toward zero.
  function Halved(x: int): int { if x >= 0 then x / 2 else -(-x / 2) }

  function Clamp(x: int, most: int): int { if x > most then most else if x < -most then -most else x }

  function Judged(c: Control, fill: nat): Control {
    var errQ4 := c.errQ4 + ((fill - FILL_TARGET) * 16 - c.errQ4) / 16;
    var err := errQ4 / 16;
    var size := if err < 0 then -err else err;
    var slow := if c.dtAvg > SLOW_DT_US then true else if c.dtAvg < FULL_DT_US then false else c.slow;
    c.(errQ4 := errQ4, slow := slow,
       correcting := if slow || size > FILL_BAND then true else if size <= FILL_SETTLED then false else c.correcting)
  }

  function FeedForward(c: Control): int
    requires c.dtAvg > 0
  {
    var ff := if c.slow then ONE * FRAME_US / c.dtAvg else ONE;
    if ff < STRIDE_MIN then STRIDE_MIN else ff
  }

  function Stride(c: Control): int
    requires c.dtAvg > 0
  {
    if !c.correcting then ONE else FeedForward(c) + Clamp(Halved(c.errQ4 / 16 * 15), TRIM_MAX)
  }

  predicate ControlOk(c: Control) {
    && DT_MIN_US <= c.dtAvg <= DT_MAX_US && -12384 <= c.errQ4 <= 19360
    && (c.longRun > 0 ==> LONG_DT_US < c.longMin <= DT_MAX_US)
    && (c.shortRun > 0 ==> DT_MIN_US <= c.shortMax <= DT_MAX_US)
  }

  predicate Bounded(stride: int) { 34078 <= stride <= 67502 }

  lemma AverageOk(c: Control, dt: u32)
    requires ControlOk(c)
    ensures ControlOk(Average(c, dt))
  {
  }

  lemma Grows(a: int, b: int, d: int)
    requires a <= b && d > 0
    ensures a * d <= b * d
  {
  }

  lemma QuotientBelow(n: int, d: int, k: int)
    requires d > 0 && n < k * d && n >= 0 && k > 0
    ensures 0 <= n / d < k
  {
    var q, r := n / d, n % d;
    assert q * d + r == n;
    if q >= k { Grows(k, q, d); }
  }

  /** The stride never leaves [34078, 67502]: the emulator counts as slow only when its average
      frame is long enough for the feed-forward to stay below full speed. */
  lemma StrideBounded(c: Control, fill: nat)
    requires ControlOk(c) && fill <= FILL_LIMIT
    ensures ControlOk(Judged(c, fill)) && Bounded(Stride(Judged(c, fill)))
  {
    var j := Judged(c, fill);
    JudgedOk(c, fill);
    if j.slow {
      assert j.dtAvg >= FULL_DT_US;
      assert ONE * FRAME_US < ONE * 16832 <= ONE * j.dtAvg;
      QuotientBelow(ONE * FRAME_US, j.dtAvg, ONE);
    }
    hide Halved;
    var t := Clamp(Halved(j.errQ4 / 16 * 15), TRIM_MAX);
    assert -TRIM_MAX <= t <= TRIM_MAX;
  }

  lemma JudgedOk(c: Control, fill: nat)
    requires ControlOk(c) && fill <= FILL_LIMIT
    ensures ControlOk(Judged(c, fill)) && (Judged(c, fill).slow ==> c.dtAvg >= FULL_DT_US)
  {
  }

  // ------------------------------------------------------------------
  // The two threads
  // ------------------------------------------------------------------

  /** What the listener gets, and the producer's restarts. `p` is a position in the input. */
  datatype Event =
    | Played(p: nat, sample: u8)          // the input sample itself
    | Mixed(p: nat, n: nat, sample: u8)   // interpolated, moving `n` samples on
    | Held(sample: u8)                    // silence: the last sample again
    | Restart(p: nat)

  function Moved(at: nat, e: Event): nat {
    match e
    case Played(p, _) => p + 1
    case Mixed(p, n, _) => p + n
    case Held(_) => at
    case Restart(p) => p
  }

  // Where the events leave the read position.
  function Cursor(log: seq<Event>): nat {
    if log == [] then 0 else Moved(Cursor(log[..|log| - 1]), log[|log| - 1])
  }

  datatype Producer =
    | Idle
    | Checked(sample: u8)      // push: room seen
    | Stored(sample: u8)       // push: sample in its cell, not yet published
    | Filled(fill: nat)        // steer: fill read
    | Trimming(fill: nat)      // steer: playing, stride to be set
    | Restarting               // steer: not playing, level reached: `rd`, then the stride, then `playing`
    | Resetting
    | Starting

  datatype Consumer =
    | Out                                 // no buffer to fill
    | Top(left: nat)                      // `left` words to go
    | Going(left: nat)                    // `playing` was set
    | Measured(left: nat, have: nat)      // samples seen ready
    | Moving(left: nat, to: nat, e: Event)
    | Dry(left: nat)
    | Writing(left: nat, e: Event)        // the word itself

  type Cells = s: seq<u8> | |s| == RING witness seq(RING, _ => 0)

  datatype Feed = Feed(
    ring: Cells, sent: seq<u8>, rd: nat, stride: int, playing: bool, // shared
    prod: Producer, control: Control,
    cons: Consumer, pace: int, frac: nat, last: u8,                   // `pace`: stride for this buffer
    log: seq<Event>)

  function Mix(s0: u8, s1: u8, frac: nat): int { s0 + ((s1 - s0) * frac + 0x8000) / 0x1_0000 }

  datatype Step = Push(sample: u8) | Steer(dt: u32) | Produce | Fill(count: nat) | Consume

  function Produced(f: Feed): Feed
  {
    match f.prod
    case Idle => f
    case Checked(b) => f.(ring := f.ring[|f.sent| % RING := b], prod := Stored(b))
    case Stored(b) => f.(sent := f.sent + [b], prod := Idle)
    case Filled(n) =>
      f.(prod := if f.playing then Trimming(n) else if n >= FILL_TARGET then Restarting else Idle)
    case Trimming(n) =>
      var c := Judged(f.control, n);
      f.(control := c, stride := if c.dtAvg > 0 then Stride(c) else ONE, prod := Idle)
    case Restarting =>
      var to := if |f.sent| >= FILL_TARGET then |f.sent| - FILL_TARGET else 0;
      f.(rd := to, log := f.log + [Restart(to)], prod := Resetting)
    case Resetting => f.(control := f.control.(errQ4 := 0, correcting := false), stride := ONE, prod := Starting)
    case Starting => f.(playing := true, prod := Idle)
  }

  function Play(f: Feed, left: nat, have: nat): Feed
  {
    if f.pace == ONE && have != 0 then
      var b := f.ring[f.rd % RING];
      f.(last := b, cons := Moving(left, f.rd + 1, Played(f.rd, b)))
    else if f.pace != ONE && have >= 2 then
      var b := W8(Mix(f.ring[f.rd % RING], f.ring[(f.rd + 1) % RING], f.frac));
      var pos := f.frac + f.pace;
      var n := if pos >= 0 then pos / 0x1_0000 else 0;
      f.(last := b, frac := pos % 0x1_0000, cons := Moving(left, f.rd + n, Mixed(f.rd, n, b)))
    else f.(cons := Dry(left))
  }

  function Consumed(f: Feed): Feed
  {
    match f.cons
    case Out => f
    case Top(left) =>
      if left == 0 then f.(cons := Out)
      else f.(cons := if f.playing then Going(left) else Writing(left, Held(f.last)))
    case Going(left) => f.(cons := Measured(left, if f.rd <= |f.sent| then |f.sent| - f.rd else 0))
    case Measured(left, have) => Play(f, left, have)
    case Moving(left, to, e) => f.(rd := to, cons := Writing(left, e))
    case Dry(left) => f.(playing := false, cons := Writing(left, Held(f.last)))
    case Writing(left, e) => f.(log := f.log + [e], cons := if left == 0 then Out else Top(left - 1))
  }

  /** One step of one thread; a call starts only when its thread is free. */
  function Next(f: Feed, s: Step): Feed
  {
    match s
    case Push(b) =>
      if f.prod != Idle || |f.sent| - f.rd >= FILL_LIMIT then f else f.(prod := Checked(b))
    case Steer(dt) =>
      if f.prod != Idle then f
      else f.(control := Average(f.control, dt), prod := Filled(if f.rd <= |f.sent| then |f.sent| - f.rd else 0))
    case Produce => Produced(f)
    case Fill(n) =>
      if f.cons != Out then f
      else f.(cons := Top(n), pace := f.stride, frac := if f.stride == ONE then 0 else f.frac)
    case Consume => Consumed(f)
  }

  ghost predicate RingHolds(f: Feed) {
    && (forall p: nat :: p < |f.sent| < p + RING ==> f.ring[p % RING] == f.sent[p])
    && (f.prod.Stored? ==> f.ring[|f.sent| % RING] == f.prod.sample)
  }

  ghost predicate EventOk(f: Feed, e: Event, at: nat) {
    match e
    case Played(p, b) => p == at && p < |f.sent| && b == f.sent[p]
    case Mixed(p, n, b) =>
      && p == at && n <= 2 && p + 1 < |f.sent|
      && (f.sent[p] <= b <= f.sent[p + 1] || f.sent[p + 1] <= b <= f.sent[p])
    case _ => true
  }

  ghost predicate LogOk(f: Feed) {
    forall i :: 0 <= i < |f.log| ==> EventOk(f, f.log[i], Cursor(f.log[..i]))
  }

  predicate Restarts(p: Producer) { p.Restarting? || p.Resetting? || p.Starting? }

  ghost predicate ProducerOk(f: Feed) {
    match f.prod
    case Checked(_) => |f.sent| < f.rd + FILL_LIMIT
    case Stored(_) => |f.sent| < f.rd + FILL_LIMIT
    case Filled(n) => n <= |f.sent| && n <= FILL_LIMIT
    case Trimming(n) => n <= FILL_LIMIT
    case Restarting => !f.playing && |f.sent| >= FILL_TARGET
    case Resetting => !f.playing
    case Starting => !f.playing
    case Idle => true
  }

  ghost predicate ConsumerOk(f: Feed) {
    match f.cons
    case Going(_) => f.playing && f.rd == Cursor(f.log)
    case Measured(_, have) => f.playing && have <= |f.sent| - f.rd && f.rd == Cursor(f.log)
    case Moving(_, to, e) =>
      && f.playing && f.rd <= to <= |f.sent| && f.rd == Cursor(f.log) && !e.Restart? && !e.Held?
      && EventOk(f, e, Cursor(f.log)) && to == Moved(Cursor(f.log), e)
    case Dry(_) => f.playing && f.rd == Cursor(f.log)
    case Writing(_, e) =>
      && !e.Restart? && EventOk(f, e, Cursor(f.log)) && f.rd == Moved(Cursor(f.log), e)
      && (!e.Held? ==> f.playing)
    case _ => f.rd == Cursor(f.log)
  }

  /** What every step keeps. */
  ghost predicate Inv(f: Feed) {
    && RingHolds(f)
    && f.rd <= |f.sent| <= f.rd + FILL_LIMIT
    && Bounded(f.stride) && Bounded(f.pace) && f.frac < 0x1_0000
    && ControlOk(f.control) && ProducerOk(f) && ConsumerOk(f) && LogOk(f)
  }

  const START := Feed(seq(RING, _ => 0), [], 0, ONE, false, Idle, CALM, Out, ONE, 0, 0, [])

  lemma StartOk()
    ensures Inv(START)
  {
  }

  // ------------------------------------------------------------------
  // Every step keeps the invariant
  // ------------------------------------------------------------------

  lemma CursorAppend(log: seq<Event>, e: Event)
    ensures Cursor(log + [e]) == Moved(Cursor(log), e)
  {
    assert (log + [e])[..|log|] == log;
  }

  lemma LogAppend(f: Feed, g: Feed, e: Event)
    requires LogOk(f) && EventOk(f, e, Cursor(f.log)) && g.sent == f.sent && g.log == f.log + [e]
    ensures LogOk(g) && Cursor(g.log) == Moved(Cursor(f.log), e)
  {
    CursorAppend(f.log, e);
    forall i | 0 <= i < |g.log|
      ensures EventOk(g, g.log[i], Cursor(g.log[..i]))
    {
      assert g.log[..i] == f.log[..i];
      if i < |f.log| { assert EventOk(f, f.log[i], Cursor(f.log[..i])); } else { assert f.log[..i] == f.log; }
    }
  }

  lemma StoreOk(f: Feed)
    requires Inv(f) && f.prod.Checked?
    ensures Inv(Produced(f))
  {
    hide ControlOk, EventOk, Cursor;
    var g := Produced(f);
    forall p: nat | p < |f.sent| < p + RING
      ensures g.ring[p % RING] == f.sent[p]
    {
      Distinct(p, |f.sent|, RING);
    }
    SameLog(f, g);
  }

  // Events and what the consumer is about to log stay true when input is added.
  lemma SameLog(f: Feed, g: Feed)
    requires LogOk(f) && ConsumerOk(f) && f.rd <= |f.sent| && f.sent <= g.sent
    requires g.log == f.log && g.cons == f.cons && g.rd == f.rd && g.playing == f.playing
    ensures LogOk(g) && ConsumerOk(g)
  {
    hide Cursor, Moved;
    forall i | 0 <= i < |g.log|
      ensures EventOk(g, g.log[i], Cursor(g.log[..i]))
    {
      assert EventOk(f, f.log[i], Cursor(f.log[..i]));
    }
  }

  lemma PublishOk(f: Feed)
    requires Inv(f) && f.prod.Stored?
    ensures Inv(Produced(f))
  {
    hide ControlOk, EventOk, Cursor;
    var g := Produced(f);
    assert RingHolds(g);
    SameLog(f, g);
  }

  lemma RestartOk(f: Feed)
    requires Inv(f) && f.prod.Restarting?
    ensures Inv(Produced(f))
  {
    hide ControlOk, Cursor;
    var g := Produced(f);
    assert RingHolds(g) by { RingKept(f, g); }
    LogAppend(f, g, Restart(g.rd));
    if f.cons.Writing? { assert f.cons.e.Held?; }
  }

  lemma RingKept(f: Feed, g: Feed)
    requires RingHolds(f) && g.ring == f.ring && g.sent == f.sent && !g.prod.Stored?
    ensures RingHolds(g)
  {
  }

  lemma ProducedOk(f: Feed)
    requires Inv(f)
    ensures Inv(Produced(f))
  {
    hide Inv, Produced;
    match f.prod
    case Checked(_) => StoreOk(f);
    case Stored(_) => PublishOk(f);
    case Restarting => RestartOk(f);
    case Trimming(_) => TrimOk(f);
    case _ => QuietOk(f);
  }

  lemma TrimOk(f: Feed)
    requires Inv(f) && f.prod.Trimming?
    ensures Inv(Produced(f))
  {
    hide LogOk, Stride, Judged, Cursor, ControlOk;
    ControlFacts(f.control, f.prod.fill);
    StrideBounded(f.control, f.prod.fill);
    SameLog(f, Produced(f));
  }

  lemma QuietOk(f: Feed)
    requires Inv(f) && !f.prod.Checked? && !f.prod.Stored? && !f.prod.Restarting? && !f.prod.Trimming?
    ensures Inv(Produced(f))
  {
    hide LogOk, EventOk, Cursor;
    SameLogUnlessStarting(f);
  }

  lemma ControlFacts(c: Control, n: nat)
    requires ControlOk(c)
    ensures Judged(c, n).dtAvg > 0
  {
  }

  lemma SameLogUnlessStarting(f: Feed)
    requires Inv(f) && !f.prod.Checked? && !f.prod.Stored? && !f.prod.Restarting? && !f.prod.Trimming?
    ensures LogOk(Produced(f)) && ConsumerOk(Produced(f))
  {
    hide LogOk, Cursor, ControlOk, RingHolds, Moved;
    SameLogOk(f, Produced(f));
  }

  // An interpolated sample lies between its neighbours.
  lemma MixBetween(s0: u8, s1: u8, frac: nat)
    requires frac < 0x1_0000
    ensures s0 <= Mix(s0, s1, frac) <= s1 || s1 <= Mix(s0, s1, frac) <= s0
  {
    var d := s1 - s0;
    var v := d * frac + 0x8000;
    if d >= 0 {
      Grows2(d, 0, frac);
      Grows2(d, frac, 0xFFFF);
      assert 0 <= v < (d + 1) * 0x1_0000;
    } else {
      Grows2(-d, 0, frac);
      Grows2(-d, frac, 0xFFFF);
      assert v == -(-d * frac) + 0x8000;
      assert d * 0x1_0000 <= v < 0x1_0000;
    }
  }

  lemma Grows2(d: nat, a: int, b: int)
    requires a <= b
    ensures d * a <= d * b
  {
  }

  // At most two samples on, and two are there.
  lemma PlayOk(f: Feed)
    requires Inv(f) && f.cons.Measured?
    ensures Inv(Consumed(f))
  {
    hide ControlOk, Cursor, LogOk, Mix;
    var have, left := f.cons.have, f.cons.left;
    var g := Consumed(f);
    SameLogOk(f, g);
    if f.pace == ONE && have != 0 {
      assert f.ring[f.rd % RING] == f.sent[f.rd];
    } else if f.pace != ONE && have >= 2 {
      assert f.ring[f.rd % RING] == f.sent[f.rd];
      var next := f.rd + 1;
      assert f.ring[next % RING] == f.sent[next];
      MixBetween(f.sent[f.rd], f.sent[next], f.frac);
      assert (f.frac + f.pace) / 0x1_0000 <= 2;
    }
  }

  lemma SameLogOk(f: Feed, g: Feed)
    requires LogOk(f) && g.log == f.log && g.sent == f.sent
    ensures LogOk(g)
  {
    forall i | 0 <= i < |g.log|
      ensures EventOk(g, g.log[i], Cursor(g.log[..i]))
    {
      assert EventOk(f, f.log[i], Cursor(f.log[..i]));
    }
  }

  lemma WriteOk(f: Feed)
    requires Inv(f) && f.cons.Writing?
    ensures Inv(Consumed(f))
  {
    hide ControlOk, Cursor;
    var g := Consumed(f);
    LogAppend(f, g, f.cons.e);
    assert RingHolds(g) by { RingSame(f, g); }
  }

  lemma RingSame(f: Feed, g: Feed)
    requires RingHolds(f) && g.ring == f.ring && g.sent == f.sent && g.prod == f.prod
    ensures RingHolds(g)
  {
  }

  lemma MoveOk(f: Feed)
    requires Inv(f) && (f.cons.Moving? || f.cons.Dry?)
    ensures Inv(Consumed(f))
  {
    hide ControlOk, Cursor, LogOk;
    var g := Consumed(f);
    SameLogOk(f, g);
    assert RingHolds(g) by { RingSame(f, g); }
  }

  lemma ConsumedOk(f: Feed)
    requires Inv(f)
    ensures Inv(Consumed(f))
  {
    match f.cons
    case Measured(_, _) => PlayOk(f);
    case Writing(_, _) => WriteOk(f);
    case Moving(_, _, _) => MoveOk(f);
    case Dry(_) => MoveOk(f);
    case _ =>
      hide ControlOk, Cursor, RingHolds, LogOk;
      SameLogOk(f, Consumed(f));
      assert RingHolds(Consumed(f)) by { RingSame(f, Consumed(f)); }
  }

  lemma NextOk(f: Feed, s: Step)
    requires Inv(f)
    ensures Inv(Next(f, s))
  {
    match s
    case Produce => ProducedOk(f);
    case Consume => ConsumedOk(f);
    case Steer(dt) =>
      hide Cursor, LogOk, Average, ControlOk;
      AverageOk(f.control, dt);
      SameLogOk(f, Next(f, s));
      CallOk(f, s);
    case _ =>
      hide Cursor, LogOk, ControlOk;
      SameLogOk(f, Next(f, s));
      CallOk(f, s);
  }

  lemma CallOk(f: Feed, s: Step)
    requires Inv(f) && (s.Push? || s.Steer? || s.Fill?)
    ensures RingHolds(Next(f, s)) && ConsumerOk(Next(f, s)) && ProducerOk(Next(f, s))
  {
    hide ControlOk, Average, LogOk, Cursor;
  }

  // ------------------------------------------------------------------
  // Whole runs
  // ------------------------------------------------------------------

  function Run(f: Feed, steps: seq<Step>): (g: Feed)
    decreases steps
  {
    if steps == [] then f else
      Run(Next(f, steps[0]), steps[1..])
  }

  lemma {:induction false} RunOk(f: Feed, steps: seq<Step>)
    requires Inv(f)
    ensures Inv(Run(f, steps))
    decreases steps
  {
    if steps != [] {
      NextOk(f, steps[0]);
      RunOk(Next(f, steps[0]), steps[1..]);
    }
  }

  /** In every interleaving of the two threads: `rd` never passes `wr` nor falls more than 1984
      behind, the stride stays in [34078, 67502], and whenever the consumer may move `rd` the
      producer may not. */
  lemma Safety(steps: seq<Step>)
    ensures var f := Run(START, steps);
      && f.rd <= |f.sent| <= f.rd + FILL_LIMIT
      && 34078 <= f.stride <= 67502
      && (f.cons.Moving? ==> f.playing && f.cons.to <= |f.sent|)
      && !(Restarts(f.prod) && (f.cons.Going? || f.cons.Measured? || f.cons.Moving? || f.cons.Dry?))
  {
    hide Run, Inv;
    StartOk();
    RunOk(START, steps);
    InvSafe(Run(START, steps));
  }

  lemma InvSafe(f: Feed)
    requires Inv(f)
    ensures f.rd <= |f.sent| <= f.rd + FILL_LIMIT && Bounded(f.stride)
    ensures f.cons.Moving? ==> f.playing && f.cons.to <= |f.sent|
    ensures !(Restarts(f.prod) && (f.cons.Going? || f.cons.Measured? || f.cons.Moving? || f.cons.Dry?))
  {
    hide LogOk, ControlOk;
  }

  predicate AllPlayed(log: seq<Event>, i: nat, j: nat)
    requires i <= j <= |log|
  {
    forall k :: i <= k < j ==> log[k].Played?
  }

  lemma {:induction false} PlayedInOrder(f: Feed, i: nat, j: nat)
    requires LogOk(f) && i <= j <= |f.log| && AllPlayed(f.log, i, j)
    ensures Cursor(f.log[..j]) == Cursor(f.log[..i]) + (j - i)
    decreases j
  {
    if i < j {
      hide Cursor;
      var k := j - 1;
      PlayedInOrder(f, i, k);
      assert f.log[..j] == f.log[..k] + [f.log[k]];
      CursorAppend(f.log[..k], f.log[k]);
      assert EventOk(f, f.log[k], Cursor(f.log[..k]));
    }
  }

  // Event `k` is the input sample `k - i` past the read position before event `i`.
  predicate ShowsInput(f: Feed, i: nat, k: nat)
    requires i <= k < |f.log|
  {
    var at := Cursor(f.log[..i]) + (k - i);
    at < |f.sent| && f.log[k].Played? && f.log[k].p == at && f.log[k].sample == f.sent[at]
  }

  lemma PlayedSample(f: Feed, i: nat, k: nat, j: nat)
    requires LogOk(f) && i <= k < j <= |f.log| && AllPlayed(f.log, i, j)
    ensures ShowsInput(f, i, k)
  {
    hide Cursor;
    assert AllPlayed(f.log, i, k);
    PlayedInOrder(f, i, k);
    assert EventOk(f, f.log[k], Cursor(f.log[..k]));
  }

  /** While samples go out at full speed the output is the input: in every run, the samples of a
      stretch `i..j` of played events are the input samples from the read position on, each once. */
  lemma FullSpeedIsExact(steps: seq<Step>, i: nat, j: nat)
    requires i <= j <= |Run(START, steps).log| && AllPlayed(Run(START, steps).log, i, j)
    ensures var f := Run(START, steps); var at := Cursor(f.log[..i]);
      && at + (j - i) == Cursor(f.log[..j])
      && forall k :: i <= k < j ==> ShowsInput(f, i, k)
  {
    hide Run, Cursor, LogOk;
    StartOk();
    RunOk(START, steps);
    var f := Run(START, steps);
    PlayedInOrder(f, i, j);
    forall k | i <= k < j
      ensures ShowsInput(f, i, k)
    {
      PlayedSample(f, i, k, j);
    }
  }

  /** Interpolation in every run stays between the two input samples around the read position. */
  lemma MixedIsBetween(steps: seq<Step>, i: nat)
    requires i < |Run(START, steps).log| && Run(START, steps).log[i].Mixed?
    ensures var f := Run(START, steps); var e := f.log[i];
      && e.p == Cursor(f.log[..i]) && e.n <= 2 && e.p + 1 < |f.sent|
      && (f.sent[e.p] <= e.sample <= f.sent[e.p + 1] || f.sent[e.p + 1] <= e.sample <= f.sent[e.p])
  {
    hide Run;
    StartOk();
    RunOk(START, steps);
    var f := Run(START, steps);
    assert EventOk(f, f.log[i], Cursor(f.log[..i]));
  }

  // ------------------------------------------------------------------
  // The code, one call at a time
  // ------------------------------------------------------------------

  /** All steps of one output word, the producer being between steps. */
  function Word(f: Feed): (g: Feed)
  {
    var a := Consumed(f);
    if f.playing then Consumed(Consumed(Consumed(Consumed(a)))) else Consumed(a)
  }

  function AllWords(f: Feed, count: nat): (g: Feed)
    decreases count
  {
    if count == 0 then f else AllWords(Word(f), count - 1)
  }

  lemma {:induction false} WordsAreSteps(f: Feed, count: nat) returns (steps: seq<Step>)
    ensures forall i :: 0 <= i < |steps| ==> steps[i] == Consume
    ensures AllWords(f, count) == Run(f, steps)
    decreases count
  {
    if count == 0 {
      steps := [];
    } else {
      hide Consumed;
      var rest := WordsAreSteps(Word(f), count - 1);
      var one := WordIsSteps(f);
      RunTwice(f, one, rest);
      steps := one + rest;
    }
  }

  lemma RunOne(f: Feed, rest: seq<Step>)
    ensures Run(f, [Consume] + rest) == Run(Consumed(f), rest)
  {
    hide Consumed;
    assert ([Consume] + rest)[1..] == rest;
  }

  lemma WordIsSteps(f: Feed) returns (steps: seq<Step>)
    ensures forall i :: 0 <= i < |steps| ==> steps[i] == Consume
    ensures Word(f) == Run(f, steps)
  {
    hide Consumed;
    var a := Consumed(f);
    var b := Consumed(a);
    var c := Consumed(b);
    if f.playing {
      var d := Consumed(c);
      RunOne(d, []); RunOne(c, [Consume] + []); RunOne(b, [Consume] + ([Consume] + []));
      RunOne(a, [Consume] + ([Consume] + ([Consume] + [])));
      steps := [Consume] + ([Consume] + ([Consume] + ([Consume] + ([Consume] + []))));
      RunOne(f, steps[1..]);
      assert [Consume] + steps[1..] == steps;
    } else {
      RunOne(a, []);
      RunOne(f, [Consume] + []);
      steps := [Consume] + ([Consume] + []);
    }
  }

  lemma {:induction false} RunTwice(f: Feed, a: seq<Step>, b: seq<Step>)
    ensures Run(Run(f, a), b) == Run(f, a + b)
    decreases a
  {
    hide Next;
    if a == [] {
      assert a + b == b;
    } else {
      RunTwice(Next(f, a[0]), a[1..], b);
      assert (a + b)[1..] == a[1..] + b;
    }
  }

  lemma WordOk(f: Feed)
    requires Inv(f)
    ensures Inv(Word(f))
  {
    hide Run, Word;
    var steps := WordIsSteps(f);
    RunOk(f, steps);
  }

  function Push3(f: Feed, b: u8): Feed
  {
    Produced(Produced(Next(f, Push(b))))
  }

  function Steer5(f: Feed, dt: u32): Feed
  {
    Produced(Produced(Produced(Produced(Next(f, Steer(dt))))))
  }

  lemma PushSteps(f: Feed, b: u8)
    requires Inv(f) && f.prod == Idle
    ensures Inv(Push3(f, b))
    ensures Push3(f, b) == if |f.sent| - f.rd >= FILL_LIMIT then f
                           else f.(ring := f.ring[|f.sent| % RING := b], sent := f.sent + [b])
  {
    hide Inv;
    InvSafe(f);
    NextOk(f, Push(b));
    ProducedOk(Next(f, Push(b)));
    ProducedOk(Produced(Next(f, Push(b))));
  }

  // What one `audio_feed_steer` call amounts to when nothing interrupts it.
  function Steered(f: Feed, dt: u32): Feed {
    var c := Average(f.control, dt);
    if f.playing then
      var j := Judged(c, if f.rd <= |f.sent| then |f.sent| - f.rd else 0);
      f.(control := j, stride := if j.dtAvg > 0 then Stride(j) else ONE)
    else if |f.sent| - f.rd >= FILL_TARGET && |f.sent| >= FILL_TARGET then
      f.(rd := |f.sent| - FILL_TARGET, log := f.log + [Restart(|f.sent| - FILL_TARGET)],
         control := c.(errQ4 := 0, correcting := false), stride := ONE, playing := true)
    else f.(control := c)
  }

  lemma SteerSteps(f: Feed, dt: u32)
    requires Inv(f) && f.prod == Idle
    ensures Inv(Steer5(f, dt)) && Steer5(f, dt) == Steered(f, dt)
  {
    hide Inv, Average, Judged, Stride;
    InvSafe(f);
    var a := Next(f, Steer(dt));
    NextOk(f, Steer(dt));
    ProducedOk(a);
    ProducedOk(Produced(a));
    ProducedOk(Produced(Produced(a)));
    ProducedOk(Produced(Produced(Produced(a))));
    InvSafe(a);
  }

  // One word while playing: what `Word` amounts to.
  lemma PlayedWord(f: Feed)
    requires Inv(f) && f.playing && f.cons.Top? && f.cons.left > 0
    ensures var have, left := |f.sent| - f.rd, f.cons.left - 1;
      && 0 <= have <= FILL_LIMIT
      && Word(f) ==
          (if f.pace == ONE && have != 0 then
            var b := f.ring[f.rd % RING];
            f.(last := b, rd := f.rd + 1, log := f.log + [Played(f.rd, b)], cons := Top(left))
          else if f.pace != ONE && have >= 2 then
            var b := W8(Mix(f.ring[f.rd % RING], f.ring[(f.rd + 1) % RING], f.frac));
            var n := (f.frac + f.pace) / 0x1_0000;
            f.(last := b, frac := (f.frac + f.pace) % 0x1_0000, rd := f.rd + n,
               log := f.log + [Mixed(f.rd, n, b)], cons := Top(left))
          else f.(playing := false, log := f.log + [Held(f.last)], cons := Top(left)))
  {
    hide LogOk, ControlOk, Mix, RingHolds;
    InvSafe(f);
    assert f.frac + f.pace >= 0;
  }

  lemma HeldWord(f: Feed)
    requires Inv(f) && !f.playing && f.cons.Top? && f.cons.left > 0
    ensures Word(f) == f.(log := f.log + [Held(f.last)], cons := Top(f.cons.left - 1))
  {
    hide LogOk, ControlOk;
  }

  // ------------------------------------------------------------------
  // A restart on a stale level
  // ------------------------------------------------------------------

  /** Where a restart leaves `rd`, in every reachable state: at the target level behind `wr`, and so
      behind where it was exactly when the fill has dropped below that level since it was read. */
  lemma RestartMovesBackIff(steps: seq<Step>)
    requires Run(START, steps).prod == Restarting
    ensures var f := Run(START, steps); var g := Produced(f);
      && g.log == f.log + [Restart(g.rd)] && f.rd == Cursor(f.log)
      && g.rd == |f.sent| - FILL_TARGET && (g.rd < f.rd <==> |f.sent| - f.rd < FILL_TARGET)
  {
    hide Run, Cursor, LogOk, ControlOk, RingHolds;
    StartOk();
    RunOk(START, steps);
  }

  // `n` samples pushed into a feed whose consumer stands still.
  lemma {:induction false} Pushes(f: Feed, n: nat) returns (steps: seq<Step>)
    requires Inv(f) && f.prod == Idle && |f.sent| + n <= f.rd + FILL_LIMIT
    ensures forall s :: s in steps ==> !s.Fill?
    ensures var g := Run(f, steps);
      Inv(g) && |g.sent| == |f.sent| + n && g == f.(ring := g.ring, sent := g.sent)
    decreases n
  {
    if n == 0 {
      steps := [];
    } else {
      hide Inv, Next;
      PushSteps(f, 0);
      var rest := Pushes(Push3(f, 0), n - 1);
      var one := [Push(0), Produce, Produce];
      assert Run(f, one) == Push3(f, 0) by { ThreeSteps(f, Push(0)); }
      RunTwice(f, one, rest);
      steps := one + rest;
    }
  }

  lemma ThreeSteps(f: Feed, s: Step)
    ensures Run(f, [s, Produce, Produce]) == Produced(Produced(Next(f, s)))
  {
    hide Produced;
    var g := Next(f, s);
    assert [s, Produce, Produce][1..] == [Produce, Produce] && [Produce, Produce][1..] == [Produce];
    assert Run(g, [Produce, Produce]) == Run(Next(g, Produce), [Produce]);
    assert Next(g, Produce) == Produced(g) && Next(Produced(g), Produce) == Produced(Produced(g));
  }

  lemma OnePlayed(f: Feed)
    requires Inv(f) && f.playing && f.pace == ONE && f.cons.Top? && f.cons.left > 0 && f.rd < |f.sent|
    ensures var g := Word(f);
      && Inv(g) && g.rd == f.rd + 1 && g.cons == Top(f.cons.left - 1)
      && g.playing && g.pace == ONE && g.prod == f.prod && g.sent == f.sent
  {
    hide Inv, Word;
    PlayedWord(f);
    WordOk(f);
  }

  // `n` samples played at full speed.
  lemma {:induction false} Plays(f: Feed, n: nat)
    requires Inv(f) && f.playing && f.pace == ONE && f.cons.Top? && n <= f.cons.left && n <= |f.sent| - f.rd
    ensures var g := AllWords(f, n);
      && Inv(g) && g.rd == f.rd + n && g.cons == Top(f.cons.left - n)
      && g.playing && g.pace == ONE && g.prod == f.prod && g.sent == f.sent
    decreases n
  {
    hide Inv, Word, AllWords;
    if n > 0 {
      OnePlayed(f);
      AllWordsStep(f, n);
      Plays(Word(f), n - 1);
    } else {
      AllWordsNone(f);
    }
  }

  lemma FiveSteps(f: Feed, dt: u32)
    ensures Run(f, [Steer(dt), Produce, Produce] + [Produce, Produce]) == Steer5(f, dt)
  {
    hide Produced, Next, Run;
    RunTwice(f, [Steer(dt), Produce, Produce], [Produce, Produce]);
    ThreeSteps(f, Steer(dt));
    LastTwo(Produced(Produced(Next(f, Steer(dt)))));
  }

  lemma LastTwo(f: Feed)
    ensures Run(f, [Produce, Produce]) == Produced(Produced(f))
  {
    hide Produced;
    assert [Produce, Produce][1..] == [Produce];
    assert Run(Produced(f), [Produce]) == Run(Produced(Produced(f)), []);
  }

  lemma TwoCalls(f: Feed, n: nat)
    ensures Run(f, [Steer(0), Step.Fill(n)]) == Next(Next(f, Steer(0)), Step.Fill(n))
  {
    hide Next;
    assert [Steer(0), Step.Fill(n)][1..] == [Step.Fill(n)];
    assert Run(Next(f, Steer(0)), [Step.Fill(n)]) == Run(Next(Next(f, Steer(0)), Step.Fill(n)), []);
  }

  // `a`: level reached; `b`: playing; `c`: level read again, a buffer begun.
  lemma Stale(a: Feed, b: Feed, c: Feed)
    requires Inv(a) && |a.sent| == FILL_TARGET && a == START.(ring := a.ring, sent := a.sent)
    requires Inv(b) && b == Steered(a, 0) && c == Next(Next(b, Steer(0)), Step.Fill(FILL_TARGET + 2))
    ensures Inv(c) && c.playing && c.pace == ONE && c.cons == Top(FILL_TARGET + 2)
    ensures c.rd == 0 && |c.sent| == FILL_TARGET && c.prod == Filled(FILL_TARGET)
  {
    NextOk(b, Steer(0));
    NextOk(Next(b, Steer(0)), Step.Fill(FILL_TARGET + 2));
    hide Inv, Average;
  }

  lemma Dried(c: Feed, d: Feed)
    requires Inv(c) && c.playing && c.pace == ONE && c.cons == Top(FILL_TARGET + 2)
    requires c.rd == 0 && |c.sent| == FILL_TARGET && c.prod == Filled(FILL_TARGET)
    requires d == AllWords(c, FILL_TARGET + 2)
    ensures Inv(d) && !d.playing && d.cons == Top(0) && d.rd == |d.sent| == FILL_TARGET && d.prod == c.prod
  {
    hide Inv, Word, AllWords;
    Plays(c, FILL_TARGET);
    var e := AllWords(c, FILL_TARGET);
    PlayedWord(e);
    WordOk(e);
    LastWord(c, FILL_TARGET);
    HeldWord(Word(e));
    WordOk(Word(e));
    LastWord(c, FILL_TARGET + 1);
  }

  lemma {:induction false} LastWord(f: Feed, n: nat)
    ensures AllWords(f, n + 1) == Word(AllWords(f, n))
    decreases n
  {
    hide Word;
    if n > 0 { LastWord(Word(f), n - 1); }
  }

  // The last event takes the read position from the target level back to the start.
  predicate PlaysAgain(log: seq<Event>) {
    |log| > 0 && log[|log| - 1] == Restart(0) && Cursor(log[..|log| - 1]) == FILL_TARGET
  }

  lemma Replayed(d: Feed)
    requires Inv(d) && !d.playing && d.cons == Top(0) && d.rd == |d.sent| == FILL_TARGET &&
        d.prod == Filled(FILL_TARGET)
    ensures PlaysAgain(Produced(Produced(d)).log)
  {
    hide RingHolds, ControlOk, LogOk, Cursor;
    var log := Produced(Produced(d)).log;
    assert log[..|log| - 1] == d.log;
  }

  // Every buffer holds an even number of words.
  predicate EvenBuffers(steps: seq<Step>) { forall s :: s in steps && s.Fill? ==> s.count % 2 == 0 }

  /** That happens: the level is read, the consumer plays all of it and runs dry in one buffer of 776
      words, and the producer goes on to restart. The read position goes from 774 back to 0, and the same
      samples are played again. */
  lemma StaleRestart() returns (steps: seq<Step>)
    ensures EvenBuffers(steps) && PlaysAgain(Run(START, steps).log)
  {
    hide Run, Inv, Next, Produced, AllWords, Word;
    StartOk();
    var filled := Pushes(START, FILL_TARGET);
    var a := Run(START, filled);
    var b := Steer5(a, 0);
    SteerSteps(a, 0);
    var restart := [Steer(0), Produce, Produce] + [Produce, Produce];
    var stale := [Steer(0), Step.Fill(FILL_TARGET + 2)];
    var c := Next(Next(b, Steer(0)), Step.Fill(FILL_TARGET + 2));
    FiveSteps(a, 0);
    TwoCalls(b, FILL_TARGET + 2);
    Stale(a, b, c);
    var drain := WordsAreSteps(c, FILL_TARGET + 2);
    var d := AllWords(c, FILL_TARGET + 2);
    Dried(c, d);
    RunTwice(START, filled, restart);
    RunTwice(START, filled + restart, stale);
    RunTwice(START, filled + restart + stale, drain);
    steps := filled + restart + stale + drain + [Produce, Produce];
    RunTwice(START, filled + restart + stale + drain, [Produce, Produce]);
    LastTwo(d);
    Replayed(d);
  }

  function SampleOf(e: Event): u8 { if e.Restart? then 0 else e.sample }

  // The I2S FIFO takes the two halves of each 32-bit word in the other order: word i goes to i ^ 1.
  function Swap(i: nat): nat { if i % 2 == 0 then i + 1 else i - 1 }

  class AudioRing {
    const ring: array<u8>
    var wr: u32
    var rd: u32
    var frac: nat
    var stride: int
    var playing: bool
    var last: u8
    var control: Control
    ghost var g: Feed

    ghost predicate Matches()
      reads this, ring
    {
      && ring[..] == g.ring && wr == W32(|g.sent|) && rd == W32(g.rd)
      && frac == g.frac && stride == g.stride && playing == g.playing && last == g.last && control == g.control
    }

    // Between calls both threads are free.
    ghost predicate Valid()
      reads this, ring
    {
      Inv(g) && Matches() && g.prod == Idle && g.cons == Out
    }

    constructor ()
      ensures Valid() && g == START && fresh(ring)
    {
      ring := new u8[RING](_ => 0);
      wr, rd, frac, stride, playing, last, control := 0, 0, 0, ONE, false, 0, CALM;
      g := START;
      StartOk();
    }

    // Samples in the ring.
    method FillLevel() returns (n: u32)
      requires g.rd <= |g.sent| <= g.rd + FILL_LIMIT && wr == W32(|g.sent|) && rd == W32(g.rd)
      ensures n == |g.sent| - g.rd
    {
      Wraps(g.rd, |g.sent| - g.rd);
      n := W32(wr - rd);
    }

    /** `audio_feed_push`: all its steps, uninterrupted. */
    method Push(sample: u8)
      requires Valid()
      modifies ring, this`wr, this`g
      ensures Valid() && g == Push3(old(g), sample)
      ensures |g.sent| - |old(g).sent| == if |old(g).sent| - old(g).rd >= FILL_LIMIT then 0 else 1
    {
      hide Inv, Produced, Next;
      PushSteps(g, sample);
      InvSafe(g);
      var level := FillLevel();
      if level >= FILL_LIMIT { return; }
      WrapCell(|g.sent|);
      ring[wr % RING] := sample;
      Wraps(|g.sent|, 1);
      wr := W32(wr + 1);
      g := Push3(g, sample);
    }

    /** `audio_feed_steer`, uninterrupted. */
    method Steer(dt: u32)
      requires Valid()
      modifies this`rd, this`stride, this`playing, this`control, this`g
      ensures Valid() && g == Steer5(old(g), dt)
    {
      hide Inv, Produced, Next, Average, Judged, Stride;
      SteerSteps(g, dt);
      InvSafe(g);
      JudgeableNow(g, dt);
      control := Average(control, dt);
      var level := FillLevel();
      if !playing {
        if level >= FILL_TARGET {
          Retreats(|g.sent|, FILL_TARGET);
          rd := W32(wr - FILL_TARGET);
          control := control.(errQ4 := 0, correcting := false);
          stride := ONE;
          playing := true;
        }
      } else {
        control := Judged(control, level);
        stride := Stride(control);
      }
      g := Steer5(g, dt);
    }

    /** One output word; `pace` is the stride read when the buffer was begun. */
    method OneWord(pace: int) returns (word: u8)
      requires Inv(g) && Matches() && g.prod == Idle && g.cons.Top? && g.cons.left > 0 && pace == g.pace
      modifies this`rd, this`frac, this`last, this`playing, this`g
      ensures Inv(g) && Matches() && g == Word(old(g)) && g.prod == Idle && g.pace == pace
      ensures g.cons == Top(old(g).cons.left - 1)
      ensures |g.log| == |old(g).log| + 1 && g.log[..|old(g).log|] == old(g).log
      ensures word == SampleOf(g.log[|old(g).log|])
    {
      hide Inv, Word, Mix, W32, W8;
      WordOk(g);
      if playing {
        PlayedWord(g);
        InvSafe(g);
        WrapCell(g.rd);
        var have := FillLevel();
        if pace == ONE {
          if have != 0 {
            last := ring[rd % RING];
            Wraps(g.rd, 1);
            rd := W32(rd + 1);
          }
        } else if have >= 2 {
          Wraps(g.rd, 1);
          WrapCell(g.rd + 1);
          last := W8(Mix(ring[rd % RING], ring[W32(rd + 1) % RING], frac));
          var pos := frac + pace;
          PosOk(g);
          Wraps(g.rd, pos / 0x1_0000);
          frac := pos % 0x1_0000;
          rd := W32(rd + pos / 0x1_0000);
        }
        if have == 0 || (pace != ONE && have < 2) { playing := false; }
      } else {
        HeldWord(g);
      }
      g := Word(g);
      word := last;
    }

    // Begin a buffer: read the stride once, drop back to the sample grid at full speed.
    method Begin(count: nat) returns (pace: int)
      requires Valid()
      modifies this`frac, this`g
      ensures Inv(g) && Matches() && g == Next(old(g), Step.Fill(count))
      ensures g.prod == Idle && g.cons == Top(count) && pace == g.pace && g.log == old(g).log
    {
      hide Inv;
      NextOk(g, Step.Fill(count));
      pace := stride;
      if pace == ONE { frac := 0; }
      g := Next(g, Step.Fill(count));
    }

    /** `audio_feed_fill_words`: one DMA buffer, each word in its swapped place. */
    method FillWords(words: array<u16>, count: nat)
      requires Valid() && count <= words.Length && count % 2 == 0 && words as object != ring
      modifies words, this`rd, this`frac, this`last, this`playing, this`g
      ensures Valid() && g == BufferFilled(old(g), count)
      ensures Shown(words[..], g.log, |old(g).log|, count) && old(g).log <= g.log
    {
      hide Inv, AllWords, Word;
      var pace := Begin(count);
      ghost var f := g;
      var i := 0;
      while i < count
        invariant i <= count && Inv(g) && Matches() && g.prod == Idle && g.cons == Top(count - i) && g.pace == pace
        invariant AllWords(f, count) == AllWords(g, count - i)
        invariant |g.log| == |f.log| + i && f.log <= g.log && Shown(words[..], g.log, |f.log|, i)
      {
        ghost var h, ws := g, words[..];
        var sample := OneWord(pace);
        var high: nat := sample;
        words[Swap(i)] := 0x100 * high;
        AllWordsStep(h, count - i);
        ShownNext(ws, h.log, g.log, |f.log|, i, words[..]);
        i := i + 1;
      }
      AllWordsNone(g);
      ConsumedOk(g);
      g := Consumed(g);
    }
  }

  /** All steps of filling one buffer. */
  function BufferFilled(f: Feed, count: nat): Feed
  {
    Consumed(AllWords(Next(f, Step.Fill(count)), count))
  }

  // The words hold the samples of `n` events of the log from `base` on, in swapped places.
  ghost predicate Shown(words: seq<u16>, log: seq<Event>, base: nat, n: nat) {
    && base + n <= |log| && (n % 2 == 0 ==> n <= |words|) && (n % 2 == 1 ==> n < |words|)
    && forall i :: 0 <= i < n ==> words[Swap(i)] == 0x100 * SampleOf(log[base + i])
  }

  lemma ShownNext(words: seq<u16>, log: seq<Event>, log': seq<Event>, base: nat, n: nat, words': seq<u16>)
    requires Shown(words, log, base, n) && log <= log' && base + n < |log'| && Swap(n) < |words| && n + 1 <= |words|
    requires words' == words[Swap(n) := 0x100 * SampleOf(log'[base + n])]
    ensures Shown(words', log', base, n + 1)
  {
    forall i | 0 <= i < n + 1
      ensures words'[Swap(i)] == 0x100 * SampleOf(log'[base + i])
    {
      if i < n { assert Swap(i) != Swap(n); }
    }
  }

  lemma AllWordsStep(f: Feed, n: nat)
    requires n > 0
    ensures AllWords(f, n) == AllWords(Word(f), n - 1)
  {
  }

  lemma AllWordsNone(f: Feed)
    ensures AllWords(f, 0) == f
  {
  }

  lemma PosOk(f: Feed)
    requires Inv(f)
    ensures 0 <= f.frac + f.pace < 0x3_0000
  {
  }

  lemma JudgeableNow(f: Feed, dt: u32)
    requires Inv(f)
    ensures var n := |f.sent| - f.rd; 0 <= n && Judged(Average(f.control, dt), n).dtAvg > 0
  {
    AverageOk(f.control, dt);
  }

  // ------------------------------------------------------------------
  // The DMA buffers
  // ------------------------------------------------------------------

  // The link register runs two descriptors ahead of the buffer being fetched.
  function Fetching(dscr: nat, bufs: nat): (r: nat)
    requires dscr < bufs && bufs >= 2
    ensures r < bufs && (r + 2 == dscr || r + 2 == dscr + bufs)
  {
    if dscr >= 2 then
      assert (dscr - 2 + bufs) % bufs == dscr - 2 by {
        assert dscr - 2 + bufs == 1 * bufs + (dscr - 2);
        Remainder(1, dscr - 2, bufs);
      }
      (dscr - 2 + bufs) % bufs
    else (dscr - 2 + bufs) % bufs
  }

  lemma Remainder(k: nat, r: nat, m: nat)
    requires r < m && k <= 1
    ensures (k * m + r) % m == r
  {
    if k == 1 { assert (m + r) / m == 1; }
  }

  // Buffers from `a` up to, not including, `b`, going round.
  function Ahead(a: nat, b: nat, bufs: nat): nat
    requires a < bufs && b < bufs
  {
    if a <= b then b - a else b + bufs - a
  }

  function Round(i: nat, bufs: nat): nat { if i >= bufs then i - bufs else i }

  function After(i: nat, bufs: nat): (r: nat)
    requires i < bufs
    ensures r == if i + 1 == bufs then 0 else i + 1
  {
    (i + 1) % bufs
  }

  /** `audio_dma_refill`: the buffers the DMA has finished, in order, each once, never the one it is
      fetching; the next call continues there. */
  method Refill(next0: nat, dscr: nat, bufs: nat) returns (filled: seq<nat>, next: nat)
    requires next0 < bufs && dscr < bufs && bufs >= 2
    ensures next == Fetching(dscr, bufs) && next !in filled
    ensures |filled| == Ahead(next0, next, bufs)
    ensures forall i :: 0 <= i < |filled| ==> filled[i] == Round(next0 + i, bufs)
    ensures forall i, j :: 0 <= i < j < |filled| ==> filled[i] != filled[j]
  {
    hide Fetching, After;
    var fetching := Fetching(dscr, bufs);
    next := next0;
    filled := [];
    while next != fetching
      invariant next < bufs && next == Round(next0 + |filled|, bufs)
      invariant |filled| + Ahead(next, fetching, bufs) == Ahead(next0, fetching, bufs)
      invariant forall i :: 0 <= i < |filled| ==> filled[i] == Round(next0 + i, bufs)
      decreases Ahead(next, fetching, bufs)
    {
      filled := filled + [next];
      next := After(next, bufs);
    }
  }
}
