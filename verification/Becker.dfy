/** The Becker port: two single-producer, single-consumer byte rings between the CPU core and the
    DriveWire back end (src/core/becker.cpp).

    The indices of the code run freely modulo 2^32, and a flush asked for by one core is carried out
    later by the other. The specification gives every byte its absolute position in the stream and
    records which positions are delivered. Each call is one atomic step of the core that makes it;
    the methods refine the steps, and the theorems hold for every interleaving of steps. */
module Becker {
  import opened Arithmetic
  import opened Words

  const RX_SIZE := 4096
  const TX_SIZE := 1024

  // ------------------------------------------------------------------
  // One ring, in absolute positions
  // ------------------------------------------------------------------

  /** `sent`: every byte ever accepted; `taken`: the consumer's position; `mark` and `req`: the last
      flush request and whether it still waits; `log`: the positions delivered, in order;
      `horizon`: how much had been sent at the last flush of either kind. */
  datatype Ring = Ring(sent: seq<u8>, taken: nat, mark: nat, req: bool, log: seq<nat>, horizon: nat)

  const EMPTY := Ring([], 0, 0, false, [], 0)

  function Max(a: nat, b: nat): nat { if a < b then b else a }

  function Min(a: nat, b: nat): nat { if a < b then a else b }

  function Positions(from: nat, n: nat): (s: seq<nat>)
    ensures |s| == n && forall i :: 0 <= i < n ==> s[i] == from + i
  {
    seq(n, i requires i >= 0 => from + i)
  }

  function Skip(r: Ring): Ring { r.(taken := Max(r.taken, r.mark), req := false) }

  function Service(r: Ring): Ring { if r.req then Skip(r) else r }

  function Take(r: Ring, most: nat): Ring
    requires r.taken <= |r.sent|
  {
    var n := Min(|r.sent| - r.taken, most);
    r.(taken := r.taken + n, log := r.log + Positions(r.taken, n))
  }

  function Accept(r: Ring, size: nat, bytes: seq<u8>): Ring
    requires r.taken <= |r.sent| <= r.taken + size
  {
    r.(sent := r.sent + bytes[..Min(|bytes|, size - (|r.sent| - r.taken))])
  }

  function DropAll(r: Ring): Ring { r.(taken := |r.sent|, horizon := |r.sent|) }

  function Request(r: Ring): Ring { r.(mark := |r.sent|, req := true, horizon := |r.sent|) }

  ghost predicate Increasing(log: seq<nat>) { forall i, j :: 0 <= i < j < |log| ==> log[i] < log[j] }

  /** What every step keeps. The last three clauses say that delivery is in order and without
      duplicates, and that a byte is passed over only by a flush asked for after it was sent. */
  ghost predicate RingOk(r: Ring, size: nat) {
    && r.taken <= |r.sent| <= r.taken + size
    && r.mark <= r.horizon <= |r.sent| && (!r.req ==> r.mark <= r.taken)
    && Increasing(r.log)
    && (forall i :: 0 <= i < |r.log| ==> r.log[i] < r.taken)
    && (forall p: nat :: p < r.taken ==> p in r.log || p < r.horizon)
  }

  lemma SkipOk(r: Ring, size: nat)
    requires RingOk(r, size)
    ensures RingOk(Skip(r), size) && RingOk(Service(r), size)
  {
  }

  lemma TakeOk(r: Ring, size: nat, most: nat)
    requires RingOk(r, size)
    ensures RingOk(Take(r, most), size)
  {
    var n := Min(|r.sent| - r.taken, most);
    var t := Take(r, most);
    forall p: nat | p < t.taken
      ensures p in t.log || p < t.horizon
    {
      if p >= r.taken {
        assert t.log[|r.log| + (p - r.taken)] == p;
      } else if p in r.log {
        var i :| 0 <= i < |r.log| && r.log[i] == p;
        assert t.log[i] == p;
      }
    }
  }

  lemma AcceptOk(r: Ring, size: nat, bytes: seq<u8>)
    requires RingOk(r, size)
    ensures RingOk(Accept(r, size, bytes), size)
  {
  }

  lemma FlushOk(r: Ring, size: nat)
    requires RingOk(r, size)
    ensures RingOk(DropAll(r), size) && RingOk(Request(r), size)
  {
  }

  lemma {:induction false} LastDelivered(r: Ring, taken: nat, from: nat)
    requires Increasing(r.log) && from < taken
    requires forall i :: 0 <= i < |r.log| ==> r.log[i] < taken
    requires forall p: nat :: from <= p < taken ==> p in r.log
    ensures |r.log| > 0 && r.log[|r.log| - 1] == taken - 1
  {
    assert taken - 1 in r.log;
    var i :| 0 <= i < |r.log| && r.log[i] == taken - 1;
    var last := |r.log| - 1;
    assert r.log[last] <= taken - 1;
    assert i == last;
  }

  /** The end of the log is exactly the stretch from `from` to the consumer's position. */
  lemma {:induction false} ExactTail(r: Ring, taken: nat, from: nat)
    requires Increasing(r.log) && from <= taken
    requires forall i :: 0 <= i < |r.log| ==> r.log[i] < taken
    requires forall p: nat :: from <= p < taken ==> p in r.log
    ensures taken - from <= |r.log| && r.log[|r.log| - (taken - from)..] == Positions(from, taken - from)
    decreases taken - from
  {
    if from < taken {
      LastDelivered(r, taken, from);
      var n := |r.log| - 1;
      var s := r.(log := r.log[..n]);
      forall p: nat | from <= p < taken - 1
        ensures p in s.log
      {
        assert p in r.log;
        var i :| 0 <= i < |r.log| && r.log[i] == p;
        assert s.log[i] == p;
      }
      ExactTail(s, taken - 1, from);
      var k := n - (taken - 1 - from);
      assert r.log[k..] == s.log[k..] + [taken - 1];
      assert Positions(from, taken - from) == Positions(from, taken - 1 - from) + [taken - 1];
    }
  }

  // ------------------------------------------------------------------
  // The port and its steps
  // ------------------------------------------------------------------

  datatype Port = Port(rx: Ring, tx: Ring, resetReq: bool, linkUp: bool)

  const START := Port(EMPTY, EMPTY, false, false)

  datatype Op =
    | ReadStatus | ReadData | WriteData(b: u8) | Reset
    | TxPop(most: nat) | RxPush(bytes: seq<u8>) | ClearReset | SetLinkUp(up: bool)

  ghost predicate PortOk(p: Port) {
    && RingOk(p.rx, RX_SIZE) && RingOk(p.tx, TX_SIZE)
    && (p.tx.req ==> p.resetReq)
  }

  function Cleared(p: Port): Port { if p.resetReq then p.(tx := Skip(p.tx), resetReq := false) else p }

  ghost function Step(p: Port, op: Op): Port
    requires PortOk(p)
  {
    SkipOk(p.rx, RX_SIZE);
    SkipOk(p.tx, TX_SIZE);
    match op
    case ReadStatus => p.(rx := Service(p.rx))
    case ReadData => p.(rx := Take(Service(p.rx), 1))
    case WriteData(b) => p.(tx := Accept(p.tx, TX_SIZE, [b]))
    case Reset => p.(rx := DropAll(p.rx), tx := Request(p.tx), resetReq := true)
    case TxPop(most) => p.(tx := Take(Service(p.tx), most))
    case RxPush(bytes) => p.(rx := Accept(p.rx, RX_SIZE, bytes))
    case ClearReset => Cleared(p)
    case SetLinkUp(true) => p.(linkUp := true)
    case SetLinkUp(false) =>
      var q := if p.resetReq then Cleared(p) else p.(tx := DropAll(p.tx));
      q.(rx := Request(q.rx), linkUp := false)
  }

  lemma StepOk(p: Port, op: Op)
    requires PortOk(p)
    ensures PortOk(Step(p, op))
  {
    hide RingOk;
    SkipOk(p.rx, RX_SIZE);
    SkipOk(p.tx, TX_SIZE);
    match op
    case ReadData => TakeOk(Service(p.rx), RX_SIZE, 1);
    case TxPop(most) => TakeOk(Service(p.tx), TX_SIZE, most);
    case WriteData(b) => AcceptOk(p.tx, TX_SIZE, [b]);
    case RxPush(bytes) => AcceptOk(p.rx, RX_SIZE, bytes);
    case _ =>
      FlushOk(p.rx, RX_SIZE);
      FlushOk(p.tx, TX_SIZE);
      FlushOk(Skip(p.tx), TX_SIZE);
  }

  // ------------------------------------------------------------------
  // Whole runs
  // ------------------------------------------------------------------

  ghost function Run(p: Port, ops: seq<Op>): (q: Port)
    requires PortOk(p)
    ensures PortOk(q)
    decreases ops
  {
    if ops == [] then p else
      StepOk(p, ops[0]);
      Run(Step(p, ops[0]), ops[1..])
  }

  /** In every interleaving: both rings hold between 0 and SIZE bytes, deliver in order and without
      duplicates, and pass over only bytes that a later flush covers. */
  lemma Safety(ops: seq<Op>)
    ensures PortOk(START) && PortOk(Run(START, ops))
  {
  }

  /** Every byte sent after the last flush of a ring, up to the consumer's position, is delivered
      exactly once and in order, whatever interleaving led here. */
  lemma DeliveredExactly(ops: seq<Op>)
    ensures PortOk(START)
    ensures var r := Run(START, ops).rx; r.horizon <= r.taken ==>
      var n := r.taken - r.horizon; n <= |r.log| && r.log[|r.log| - n..] == Positions(r.horizon, n)
    ensures var r := Run(START, ops).tx; r.horizon <= r.taken ==>
      var n := r.taken - r.horizon; n <= |r.log| && r.log[|r.log| - n..] == Positions(r.horizon, n)
  {
    var p := Run(START, ops);
    if p.rx.horizon <= p.rx.taken { ExactTail(p.rx, p.rx.taken, p.rx.horizon); }
    if p.tx.horizon <= p.tx.taken { ExactTail(p.tx, p.tx.taken, p.tx.horizon); }
  }

  predicate Flushes(op: Op) { op == Reset || op == SetLinkUp(false) }

  lemma {:induction false} HorizonKept(p: Port, ops: seq<Op>)
    requires PortOk(p) && forall i :: 0 <= i < |ops| ==> !Flushes(ops[i])
    ensures var q := Run(p, ops); q.rx.horizon == p.rx.horizon && q.tx.horizon == p.tx.horizon
    decreases ops
  {
    if ops != [] {
      hide PortOk;
      StepOk(p, ops[0]);
      HorizonKept(Step(p, ops[0]), ops[1..]);
    }
  }

  /** Bytes sent after a flush survive it: with no further flush, the byte at every position from
      `|sent|` at the flush up to the consumer's is delivered, whenever the flush itself is served. */
  lemma LaterBytesSurvive(before: seq<Op>, flush: Op, after: seq<Op>, at: nat)
    requires Flushes(flush) && forall i :: 0 <= i < |after| ==> !Flushes(after[i])
    ensures PortOk(START)
    ensures var p := Run(START, before); var q := (StepOk(p, flush); Run(Step(p, flush), after));
      && (|p.rx.sent| <= at < q.rx.taken ==> at in q.rx.log)
      && (|p.tx.sent| <= at < q.tx.taken ==> at in q.tx.log)
  {
    var p := Run(START, before);
    StepOk(p, flush);
    HorizonKept(Step(p, flush), after);
  }

  // Nothing below `n` will be delivered any more.
  predicate Floor(r: Ring, n: nat) { n <= r.taken || (r.req && n <= r.mark) }

  predicate Extends(a: seq<nat>, b: seq<nat>, n: nat) {
    |a| <= |b| && a == b[..|a|] && forall i :: |a| <= i < |b| ==> n <= b[i]
  }

  lemma FloorTaken(r: Ring, size: nat, most: nat, n: nat)
    requires RingOk(r, size)
    ensures RingOk(Service(r), size)
    ensures var q := Take(Service(r), most); Floor(r, n) ==> Floor(q, n) && Extends(r.log, q.log, n)
  {
    SkipOk(r, size);
  }

  lemma FloorOther(r: Ring, size: nat, bytes: seq<u8>, n: nat)
    requires RingOk(r, size)
    ensures Extends(r.log, r.log, n)
    ensures Floor(r, n) ==> Floor(Service(r), n) && Floor(Skip(r), n) && Floor(Accept(r, size, bytes), n)
    ensures Floor(r, n) ==> Floor(DropAll(r), n) && Floor(Request(r), n)
  {
  }

  lemma FloorStep(p: Port, op: Op, n: nat)
    requires PortOk(p)
    ensures Floor(p.rx, n) ==> Floor(Step(p, op).rx, n) && Extends(p.rx.log, Step(p, op).rx.log, n)
    ensures Floor(p.tx, n) ==> Floor(Step(p, op).tx, n) && Extends(p.tx.log, Step(p, op).tx.log, n)
  {
    hide RingOk, Extends, Floor;
    FloorOther(p.rx, RX_SIZE, if op.RxPush? then op.bytes else [], n);
    FloorOther(p.tx, TX_SIZE, if op.WriteData? then [op.b] else [], n);
    match op
    case ReadData => FloorTaken(p.rx, RX_SIZE, 1, n);
    case TxPop(most) => FloorTaken(p.tx, TX_SIZE, most, n);
    case _ =>
  }

  lemma {:induction false} FloorRun(p: Port, ops: seq<Op>, n: nat)
    requires PortOk(p)
    ensures Floor(p.rx, n) ==> Extends(p.rx.log, Run(p, ops).rx.log, n)
    ensures Floor(p.tx, n) ==> Extends(p.tx.log, Run(p, ops).tx.log, n)
    decreases ops
  {
    if ops != [] {
      hide Step, PortOk, Floor, RingOk;
      StepOk(p, ops[0]);
      FloorStep(p, ops[0], n);
      FloorRun(Step(p, ops[0]), ops[1..], n);
    }
  }

  /** No byte pushed toward the CoCo before the link dropped is read after it. */
  lemma NoStaleReply(before: seq<Op>, after: seq<Op>)
    ensures PortOk(START)
    ensures var p := Run(START, before); var q := (StepOk(p, SetLinkUp(false)); Step(p, SetLinkUp(false)));
      PortOk(q) && Extends(p.rx.log, Run(q, after).rx.log, |p.rx.sent|)
  {
    var p := Run(START, before);
    StepOk(p, SetLinkUp(false));
    FloorRun(Step(p, SetLinkUp(false)), after, |p.rx.sent|);
  }

  /** No byte the CoCo wrote before a reset is popped by the back end after it. */
  lemma NoStaleRequest(before: seq<Op>, after: seq<Op>)
    ensures PortOk(START)
    ensures var p := Run(START, before); var q := (StepOk(p, Reset); Step(p, Reset));
      PortOk(q) && Extends(p.tx.log, Run(q, after).tx.log, |p.tx.sent|)
      && Extends(p.rx.log, Run(q, after).rx.log, |p.rx.sent|)
  {
    var p := Run(START, before);
    StepOk(p, Reset);
    var q := Step(p, Reset);
    FloorRun(q, after, |p.tx.sent|);
    FloorRun(q, after, |p.rx.sent|);
  }

  lemma {:induction false} ResetStays(p: Port, ops: seq<Op>)
    requires PortOk(p) && p.resetReq
    requires forall i :: 0 <= i < |ops| ==> !Flushes(ops[i]) && ops[i] != ClearReset
    ensures Run(p, ops).resetReq && Run(p, ops).tx.horizon == p.tx.horizon
    decreases ops
  {
    if ops != [] {
      hide PortOk;
      StepOk(p, ops[0]);
      ResetStays(Step(p, ops[0]), ops[1..]);
    }
  }

  // One step, and the invariant after it.
  ghost function Then(p: Port, op: Op): (q: Port)
    requires PortOk(p)
    ensures PortOk(q)
  {
    StepOk(p, op);
    Step(p, op)
  }

  /** A link drop that answers a reset keeps the requests written after the reset: every one the back end gets past
      is delivered, whenever it was written. */
  lemma KeepsNewRequests(before: seq<Op>, mid: seq<Op>, after: seq<Op>, at: nat)
    requires forall i :: 0 <= i < |mid| ==> !Flushes(mid[i]) && mid[i] != ClearReset
    requires forall i :: 0 <= i < |after| ==> !Flushes(after[i])
    ensures PortOk(START)
    ensures var p := Run(START, before);
      var r := Run(Then(p, Reset), mid);
      var q := Run(Then(r, SetLinkUp(false)), after);
      |p.tx.sent| <= at < q.tx.taken ==> at in q.tx.log
  {
    var p := Run(START, before);
    ResetStays(Then(p, Reset), mid);
    var r := Run(Then(p, Reset), mid);
    HorizonKept(Then(r, SetLinkUp(false)), after);
  }

  /** What the rings hold and how much of it moves: 4096 bytes toward the CoCo and 1024 from it; a push takes what
      fits, a write nothing when full, a pop what is asked for or there. */
  lemma Capacities(p: Port, bytes: seq<u8>, b: u8, most: nat)
    requires PortOk(p) && !p.rx.req && !p.tx.req
    ensures 0 <= |p.rx.sent| - p.rx.taken <= 4096 && 0 <= |p.tx.sent| - p.tx.taken <= 1024
    ensures var free := 4096 - (|p.rx.sent| - p.rx.taken);
      Step(p, RxPush(bytes)).rx.sent == p.rx.sent + if |bytes| <= free then bytes else bytes[..free]
    ensures Step(p, WriteData(b)).tx.sent ==
            if |p.tx.sent| - p.tx.taken < 1024 then p.tx.sent + [b] else p.tx.sent
    ensures Step(p, TxPop(most)).tx.taken == if p.tx.taken + most <= |p.tx.sent| then p.tx.taken + most else |p.tx.sent|
    ensures Step(p, ReadData).rx.taken == if p.rx.taken < |p.rx.sent| then p.rx.taken + 1 else p.rx.taken
  {
    assert bytes[..|bytes|] == bytes;
    assert [b][..1] == [b];
  }

  // ------------------------------------------------------------------
  // The 32-bit indices
  // ------------------------------------------------------------------

  const HALF := 0x8000_0000

  /** `skip_to`: to `mark` when the signed 32-bit difference is positive. */
  function SkipTo(tail: u32, mark: u32): u32 {
    var d := W32(mark - tail);
    if 0 < d < HALF then mark else tail
  }

  // A ring never holds more than its size, so a mark is at most that far ahead; one behind is
  // recognised as passed while the distance, modulo 2^32, is at most 2^31.
  predicate Reaches(taken: nat, mark: nat) { taken < mark || W32(taken - mark) <= HALF }

  predicate InReach(r: Ring) { Reaches(r.taken, r.mark) }

  /** With the mark less than 2^31 behind, the 32-bit comparison decides as the unbounded one. */
  lemma SkipExact(taken: nat, mark: nat)
    requires mark <= taken + RX_SIZE && taken <= mark + HALF
    ensures SkipTo(W32(taken), W32(mark)) == W32(Max(taken, mark))
  {
    hide W32;
    if taken < mark { Wraps(taken, mark - taken); } else { Wraps(mark, taken - mark); }
  }

  /** Exactly when the code is right: the mark is ahead, or the distance behind is at most 2^31 modulo
      2^32; otherwise the index moves backwards. */
  lemma SkipExactIff(taken: nat, mark: nat)
    requires mark <= taken + RX_SIZE
    ensures SkipTo(W32(taken), W32(mark)) == W32(Max(taken, mark)) <==> Reaches(taken, mark)
  {
    if taken < mark {
      SkipExact(taken, mark);
    } else {
      var d := W32(taken - mark);
      var k := (taken - mark) / 0x1_0000_0000;
      var near := mark + d;
      assert taken == near + k * 0x1_0000_0000;
      SameWrap(near, k);
      Wraps(mark, d);
      assert W32(taken) == W32(near);
    }
  }

  /** A run in which neither ring has accepted more than 2^31 bytes keeps every mark in reach. */
  lemma ShortRunsInReach(p: Port)
    requires PortOk(p) && |p.rx.sent| <= HALF && |p.tx.sent| <= HALF
    ensures InReach(p.rx) && InReach(p.tx)
  {
  }

  /** How long the marks have been waiting: CoCo resets since the link last dropped, and times the back
      end has popped since the last reset. */
  datatype Ages = Ages(resets: nat, pops: nat)

  function Older(a: Ages, op: Op): Ages {
    match op
    case Reset => Ages(a.resets + 1, 0)
    case SetLinkUp(false) => a.(resets := 0)
    case TxPop(_) => a.(pops := a.pops + 1)
    case _ => a
  }

  function AgesAfter(a: Ages, ops: seq<Op>): Ages
    decreases ops
  {
    if ops == [] then a else AgesAfter(Older(a, ops[0]), ops[1..])
  }

  // How far a waiting mark can have been passed: a full ring for every reset, or for every pop.
  predicate Near(p: Port, a: Ages) {
    && (p.rx.req ==> p.rx.taken <= p.rx.mark + RX_SIZE * a.resets)
    && (p.resetReq ==> p.tx.taken <= p.tx.mark + TX_SIZE * a.pops)
    && (p.tx.req ==> p.tx.taken <= p.tx.mark)
  }

  lemma NearStep(p: Port, op: Op, a: Ages)
    requires PortOk(p) && Near(p, a)
    ensures Near(Step(p, op), Older(a, op))
  {
    hide Increasing;
  }

  lemma {:induction false} NearRun(p: Port, ops: seq<Op>, a: Ages)
    requires PortOk(p) && Near(p, a)
    ensures Near(Run(p, ops), AgesAfter(a, ops))
    decreases ops
  {
    if ops != [] {
      hide Step, PortOk, Near, Older;
      StepOk(p, ops[0]);
      NearStep(p, ops[0], a);
      NearRun(Step(p, ops[0]), ops[1..], Older(a, ops[0]));
    }
  }

  /** A run of any length: the receive mark is in reach as long as it waits unless the CoCo was reset more
      than 2^19 times since the link dropped, the transmit mark of a waiting request always is, and that of
      a reset not yet cleared unless the back end has popped more than 2^21 times since. */
  lemma MarksInReach(ops: seq<Op>)
    ensures PortOk(START)
    ensures var p, a := Run(START, ops), AgesAfter(Ages(0, 0), ops);
      && (a.resets <= 0x8_0000 && p.rx.req ==> InReach(p.rx))
      && (p.tx.req ==> InReach(p.tx))
      && (a.pops <= 0x20_0000 && p.resetReq ==> InReach(p.tx))
  {
    hide Run, AgesAfter, RingOk;
    Safety(ops);
    NearRun(START, ops, Ages(0, 0));
  }

  // A full ring pushed and dropped by a reset, again and again.
  function Rounds(k: nat): seq<Op>
    decreases k
  {
    if k == 0 then [] else [RxPush(seq(RX_SIZE, _ => 0)), Reset] + Rounds(k - 1)
  }

  lemma OneRound(p: Port) returns (q: Port)
    requires PortOk(p) && p.rx.req && p.rx.taken == |p.rx.sent|
    ensures PortOk(q) && q.rx.req && q.rx.taken == |q.rx.sent| == p.rx.taken + RX_SIZE && q.rx.mark == p.rx.mark
    ensures forall rest :: Run(p, [RxPush(seq(RX_SIZE, _ => 0)), Reset] + rest) == Run(q, rest)
  {
    hide RingOk, Run;
    var push := RxPush(seq(RX_SIZE, _ => 0));
    StepOk(p, push);
    var m := Step(p, push);
    StepOk(m, Reset);
    q := Step(m, Reset);
    forall rest: seq<Op>
      ensures Run(p, [push, Reset] + rest) == Run(q, rest)
    {
      RunOne(p, push, [Reset] + rest);
      RunOne(m, Reset, rest);
      assert [push, Reset] + rest == [push] + ([Reset] + rest);
    }
  }

  lemma RunOne(p: Port, op: Op, rest: seq<Op>)
    requires PortOk(p)
    ensures PortOk(Step(p, op)) && Run(p, [op] + rest) == Run(Step(p, op), rest)
  {
    hide PortOk, Step;
    StepOk(p, op);
    assert ([op] + rest)[1..] == rest;
  }

  lemma {:induction false} RoundsPass(p: Port, k: nat)
    requires PortOk(p) && p.rx.req && p.rx.taken == |p.rx.sent|
    ensures var q := Run(p, Rounds(k)); q.rx.req && q.rx.mark == p.rx.mark && q.rx.taken == p.rx.taken + k * RX_SIZE
    decreases k
  {
    hide PortOk, Step;
    if k > 0 {
      var q := OneRound(p);
      RoundsPass(q, k - 1);
      assert Rounds(k) == [RxPush(seq(RX_SIZE, _ => 0)), Reset] + Rounds(k - 1);
    }
  }

  /** One reset more than that is too many: the link drops and comes back, and 2^19 + 1 resets each throw
      away a full ring. The request still waits, and serving it would move the tail backwards. */
  lemma MarkOutOfReach()
    ensures PortOk(START)
    ensures var p := Run(START, [SetLinkUp(false)] + ([SetLinkUp(true)] + Rounds(0x8_0001)));
      p.rx.req && !InReach(p.rx) && SkipTo(W32(p.rx.taken), W32(p.rx.mark)) != W32(p.rx.taken)
  {
    hide Run, PortOk, Rounds;
    Safety([]);
    RunOne(START, SetLinkUp(false), [SetLinkUp(true)] + Rounds(0x8_0001));
    var p := Step(START, SetLinkUp(false));
    RunOne(p, SetLinkUp(true), Rounds(0x8_0001));
    RoundsPass(Step(p, SetLinkUp(true)), 0x8_0001);
  }

  // ------------------------------------------------------------------
  // The buffers
  // ------------------------------------------------------------------

  // The cell of absolute position `p` is `p & (size - 1)`.
  ghost predicate Stored(buf: seq<u8>, size: nat, sent: seq<u8>, from: nat)
    requires size > 0
  {
    && |buf| == size && from <= |sent| <= from + size
    && (forall p :: from <= p < |sent| ==> buf[p % size] == sent[p])
  }

  lemma StoreOne(buf: seq<u8>, size: nat, sent: seq<u8>, from: nat, b: u8)
    requires (size == 4096 || size == 1024) && Stored(buf, size, sent, from) && |sent| < from + size
    ensures Stored(buf[|sent| % size := b], size, sent + [b], from)
  {
    var c := buf[|sent| % size := b];
    forall p | from <= p < |sent| + 1
      ensures c[p % size] == (sent + [b])[p]
    {
      if p < |sent| { Distinct(p, |sent|, size); }
    }
  }

  // ------------------------------------------------------------------
  // The code
  // ------------------------------------------------------------------

  ghost predicate Refines(head: u32, tail: u32, mark: u32, req: bool, buf: seq<u8>, size: nat, r: Ring)
    requires size > 0
  {
    && head == W32(|r.sent|) && tail == W32(r.taken) && mark == W32(r.mark) && req == r.req
    && Stored(buf, size, r.sent, r.taken)
  }

  lemma RefinesFacts(head: u32, tail: u32, mark: u32, req: bool, buf: seq<u8>, size: nat, r: Ring)
    requires (size == RX_SIZE || size == TX_SIZE) && Refines(head, tail, mark, req, buf, size, r)
    ensures W32(head - tail) == |r.sent| - r.taken && |buf| == size && r.taken <= |r.sent| <= r.taken + size
    ensures head == tail <==> |r.sent| == r.taken
    ensures r.taken < |r.sent| ==> buf[tail % size] == r.sent[r.taken]
  {
    Wraps(r.taken, |r.sent| - r.taken);
    WrapCell(r.taken);
  }

  lemma RefinesSkip(head: u32, tail: u32, mark: u32, req: bool, buf: seq<u8>, size: nat, r: Ring)
    requires (size == RX_SIZE || size == TX_SIZE) && Refines(head, tail, mark, req, buf, size, r)
    requires RingOk(r, size) && InReach(r)
    ensures Refines(head, SkipTo(tail, mark), mark, false, buf, size, Skip(r))
  {
    hide SkipTo, W32, Reaches;
    SkipExactIff(r.taken, r.mark);
  }

  lemma RefinesTake(head: u32, tail: u32, mark: u32, req: bool, buf: seq<u8>, size: nat, r: Ring, most: nat)
    requires (size == RX_SIZE || size == TX_SIZE) && Refines(head, tail, mark, req, buf, size, r)
    ensures r.taken <= |r.sent|
    ensures var n := Min(|r.sent| - r.taken, most); Refines(head, W32(tail + n), mark, req, buf, size, Take(r, most))
  {
    hide W32;
    Wraps(r.taken, Min(|r.sent| - r.taken, most));
  }

  lemma RefinesAccept(head: u32, tail: u32, mark: u32, req: bool, buf: seq<u8>, size: nat, r: Ring, n: nat,
                      bytes: seq<u8>)
    requires (size == RX_SIZE || size == TX_SIZE) && r.taken <= |r.sent| <= r.taken + size
    requires n == Min(|bytes|, size - (|r.sent| - r.taken))
    requires head == W32(|r.sent|) && tail == W32(r.taken) && mark == W32(r.mark) && req == r.req
    requires Stored(buf, size, r.sent + bytes[..n], r.taken)
    ensures Refines(W32(head + n), tail, mark, req, buf, size, Accept(r, size, bytes))
  {
    hide W32;
    Wraps(|r.sent|, n);
  }

  class BeckerPort {
    const rxBuf: array<u8>
    const txBuf: array<u8>
    var rxHead: u32
    var rxTail: u32
    var txHead: u32
    var txTail: u32
    var rxFlushReq: bool
    var rxFlushMark: u32
    var txFlushReq: bool
    var txFlushMark: u32
    var resetReq: bool
    var linkUp: bool
    var bytesToCoco: u32
    var bytesFromCoco: u32
    var txPending: bool
    ghost var rx: Ring
    ghost var tx: Ring

    ghost function State(): Port
      reads this`rx, this`tx, this`resetReq, this`linkUp
    {
      Port(rx, tx, resetReq, linkUp)
    }

    ghost predicate RxValid()
      reads this`rxHead, this`rxTail, this`rxFlushMark, this`rxFlushReq, this`bytesToCoco, this`rx, rxBuf
    {
      && RingOk(rx, RX_SIZE) && bytesToCoco == W32(|rx.log|)
      && Refines(rxHead, rxTail, rxFlushMark, rxFlushReq, rxBuf[..], RX_SIZE, rx)
    }

    ghost predicate TxValid()
      reads this`txHead, this`txTail, this`txFlushMark, this`txFlushReq, this`bytesFromCoco, this`tx, txBuf
    {
      && RingOk(tx, TX_SIZE) && bytesFromCoco == W32(|tx.sent|)
      && Refines(txHead, txTail, txFlushMark, txFlushReq, txBuf[..], TX_SIZE, tx)
    }

    ghost predicate Valid()
      reads this, rxBuf, txBuf
      ensures Valid() ==> PortOk(State())
    {
      rxBuf != txBuf && RxValid() && TxValid() && (tx.req ==> resetReq)
    }

    /** `becker_init`, its allocations having succeeded. */
    constructor ()
      ensures Valid() && fresh(this) && fresh(rxBuf) && fresh(txBuf)
      ensures State() == START && !txPending
    {
      rxBuf := new u8[RX_SIZE];
      txBuf := new u8[TX_SIZE];
      rxHead, rxTail, txHead, txTail := 0, 0, 0, 0;
      rxFlushReq, rxFlushMark, txFlushReq, txFlushMark := false, 0, false, 0;
      resetReq, linkUp, bytesToCoco, bytesFromCoco, txPending := false, false, 0, 0, false;
      rx, tx := EMPTY, EMPTY;
    }

    method ServiceRxFlush()
      requires RxValid() && (rx.req ==> InReach(rx))
      modifies this`rxTail, this`rxFlushReq, this`rx
      ensures RxValid() && rx == Service(old(rx))
    {
      hide RingOk, W32, SkipTo;
      SkipOk(rx, RX_SIZE);
      if rxFlushReq {
        RefinesSkip(rxHead, rxTail, rxFlushMark, rxFlushReq, rxBuf[..], RX_SIZE, rx);
        rxTail := SkipTo(rxTail, rxFlushMark);
        rxFlushReq := false;
        rx := Skip(rx);
      }
    }

    method ReadStatus() returns (status: u8)
      requires Valid() && (rx.req ==> InReach(rx))
      modifies this`rxTail, this`rxFlushReq, this`rx
      ensures Valid() && State() == Step(old(State()), Op.ReadStatus)
      ensures status == if rx.taken < |rx.sent| then 0x02 else 0x00
    {
      hide RingOk, W32, TxValid;
      ServiceRxFlush();
      RefinesFacts(rxHead, rxTail, rxFlushMark, rxFlushReq, rxBuf[..], RX_SIZE, rx);
      status := if rxHead != rxTail then 0x02 else 0x00;
    }

    /** The oldest byte not flushed, or 0 when there is none. */
    method ReadData() returns (b: u8)
      requires Valid() && (rx.req ==> InReach(rx))
      modifies this`rxTail, this`rxFlushReq, this`bytesToCoco, this`rx
      ensures Valid() && State() == Step(old(State()), Op.ReadData)
      ensures var r := Service(old(rx)); b == if r.taken < |r.sent| then r.sent[r.taken] else 0x00
    {
      hide RingOk, W32, TxValid;
      ServiceRxFlush();
      RefinesFacts(rxHead, rxTail, rxFlushMark, rxFlushReq, rxBuf[..], RX_SIZE, rx);
      RefinesTake(rxHead, rxTail, rxFlushMark, rxFlushReq, rxBuf[..], RX_SIZE, rx, 1);
      TakeOk(rx, RX_SIZE, 1);
      Wraps(|rx.log|, 1);
      var t := rxTail;
      if rxHead == t {
        b := 0;
      } else {
        b := rxBuf[t % RX_SIZE];
        rxTail := W32(t + 1);
        bytesToCoco := W32(bytesToCoco + 1);
      }
      rx := Take(rx, 1);
    }

    /** A byte from the CoCo; dropped when the ring is full. */
    method WriteData(b: u8)
      requires Valid()
      modifies txBuf, this`txHead, this`bytesFromCoco, this`txPending, this`tx
      ensures Valid() && State() == Step(old(State()), Op.WriteData(b))
      ensures txPending == (old(txPending) || |tx.sent| > |old(tx).sent|)
    {
      hide W32, RxValid, RingOk, Stored;
      AcceptOk(tx, TX_SIZE, [b]);
      RefinesFacts(txHead, txTail, txFlushMark, txFlushReq, txBuf[..], TX_SIZE, tx);
      var h := txHead;
      if W32(h - txTail) >= TX_SIZE {
        FullAccept(tx, TX_SIZE, [b]);
        return;
      }
      StoreOne(txBuf[..], TX_SIZE, tx.sent, tx.taken, b);
      WrapCell(|tx.sent|);
      Wraps(|tx.sent|, 1);
      txBuf[h % TX_SIZE] := b;
      assert [b][..1] == [b];
      RefinesAccept(h, txTail, txFlushMark, txFlushReq, txBuf[..], TX_SIZE, tx, 1, [b]);
      txHead := W32(h + 1);
      bytesFromCoco := W32(bytesFromCoco + 1);
      txPending := true;
      tx := Accept(tx, TX_SIZE, [b]);
    }

    /** `becker_reset`, the port being enabled. */
    method Reset()
      requires Valid()
      modifies this`rxTail, this`txFlushMark, this`txFlushReq, this`resetReq, this`rx, this`tx
      ensures Valid() && State() == Step(old(State()), Op.Reset)
    {
      hide W32, RingOk;
      FlushOk(rx, RX_SIZE);
      FlushOk(tx, TX_SIZE);
      RefinesFacts(rxHead, rxTail, rxFlushMark, rxFlushReq, rxBuf[..], RX_SIZE, rx);
      rxTail := rxHead;
      txFlushMark := txHead;
      txFlushReq := true;
      resetReq := true;
      rx, tx := DropAll(rx), Request(tx);
    }

    method CopyOut(t: u32, n: nat, buf: array<u8>, ghost r: Ring)
      requires t == W32(r.taken) && n <= buf.Length && buf != txBuf && r.taken + n <= |r.sent|
      requires Stored(txBuf[..], TX_SIZE, r.sent, r.taken)
      modifies buf
      ensures buf[..n] == r.sent[r.taken..r.taken + n] && buf[n..] == old(buf[n..])
    {
      hide W32;
      var i := 0;
      while i < n
        invariant i <= n && buf[n..] == old(buf[n..])
        invariant forall j :: 0 <= j < i ==> buf[j] == r.sent[r.taken + j]
      {
        Wraps(r.taken, i);
        WrapCell(r.taken + i);
        buf[i] := txBuf[W32(t + i) % TX_SIZE];
        i := i + 1;
      }
    }

    method ServiceTxFlush()
      requires TxValid() && (tx.req ==> InReach(tx))
      modifies this`txTail, this`txFlushReq, this`tx
      ensures TxValid() && tx == Service(old(tx))
    {
      hide RingOk, W32, SkipTo;
      SkipOk(tx, TX_SIZE);
      if txFlushReq {
        RefinesSkip(txHead, txTail, txFlushMark, txFlushReq, txBuf[..], TX_SIZE, tx);
        txTail := SkipTo(txTail, txFlushMark);
        txFlushReq := false;
        tx := Skip(tx);
      }
    }

    /** The oldest bytes the CoCo wrote and no flush covers, at most `most`. */
    method TxPop(buf: array<u8>, most: nat) returns (n: nat)
      requires Valid() && (tx.req ==> InReach(tx)) && most <= buf.Length && buf != txBuf && buf != rxBuf
      modifies buf, this`txTail, this`txFlushReq, this`tx
      ensures Valid() && State() == Step(old(State()), Op.TxPop(most))
      ensures var r := Service(old(tx));
        (r.taken + n <= |r.sent| && n == Min(|r.sent| - r.taken, most) && buf[..n] == r.sent[r.taken..r.taken + n])
      ensures buf[n..] == old(buf[n..])
    {
      hide RingOk, W32, RxValid, InReach, Stored;
      ServiceTxFlush();
      ghost var r := tx;
      RefinesFacts(txHead, txTail, txFlushMark, txFlushReq, txBuf[..], TX_SIZE, r);
      RefinesTake(txHead, txTail, txFlushMark, txFlushReq, txBuf[..], TX_SIZE, r, most);
      TakeOk(r, TX_SIZE, most);
      var t := txTail;
      var avail := W32(txHead - t);
      n := if avail < most then avail else most;
      CopyOut(t, n, buf, r);
      txTail := W32(t + n);
      tx := Take(tx, most);
    }

    method RxSpace() returns (n: nat)
      requires Valid()
      ensures n == RX_SIZE - (|rx.sent| - rx.taken)
    {
      RefinesFacts(rxHead, rxTail, rxFlushMark, rxFlushReq, rxBuf[..], RX_SIZE, rx);
      n := RX_SIZE - W32(rxHead - rxTail);
    }

    method RxPending() returns (n: nat)
      requires Valid()
      ensures n == |rx.sent| - rx.taken
    {
      RefinesFacts(rxHead, rxTail, rxFlushMark, rxFlushReq, rxBuf[..], RX_SIZE, rx);
      n := W32(rxHead - rxTail);
    }

    method CopyIn(h: u32, n: nat, bytes: seq<u8>, ghost r: Ring)
      requires h == W32(|r.sent|) && n <= |bytes| && |r.sent| + n <= r.taken + RX_SIZE
      requires Stored(rxBuf[..], RX_SIZE, r.sent, r.taken)
      modifies rxBuf
      ensures Stored(rxBuf[..], RX_SIZE, r.sent + bytes[..n], r.taken)
    {
      hide W32;
      var i := 0;
      assert r.sent + bytes[..0] == r.sent;
      while i < n
        invariant i <= n && Stored(rxBuf[..], RX_SIZE, r.sent + bytes[..i], r.taken)
      {
        hide Stored;
        StoreOne(rxBuf[..], RX_SIZE, r.sent + bytes[..i], r.taken, bytes[i]);
        Wraps(|r.sent|, i);
        WrapCell(|r.sent| + i);
        assert r.sent + bytes[..i + 1] == r.sent + bytes[..i] + [bytes[i]];
        rxBuf[W32(h + i) % RX_SIZE] := bytes[i];
        i := i + 1;
      }
    }

    /** Bytes from the back end, as many as fit. */
    method RxPush(bytes: seq<u8>) returns (n: nat)
      requires Valid()
      modifies rxBuf, this`rxHead, this`rx
      ensures Valid() && State() == Step(old(State()), Op.RxPush(bytes))
      ensures |rx.sent| == |old(rx).sent| + n
    {
      hide W32, TxValid;
      AcceptOk(rx, RX_SIZE, bytes);
      RefinesFacts(rxHead, rxTail, rxFlushMark, rxFlushReq, rxBuf[..], RX_SIZE, rx);
      var h := rxHead;
      var space := RX_SIZE - W32(h - rxTail);
      n := if |bytes| < space then |bytes| else space;
      hide RingOk;
      CopyIn(h, n, bytes, rx);
      RefinesAccept(h, rxTail, rxFlushMark, rxFlushReq, rxBuf[..], RX_SIZE, rx, n, bytes);
      rxHead := W32(h + n);
      rx := Accept(rx, RX_SIZE, bytes);
    }

    /** Drop the bytes written before the reset, and only those. */
    method ClearReset()
      requires Valid() && (resetReq ==> InReach(tx))
      modifies this`txTail, this`txFlushReq, this`resetReq, this`tx
      ensures Valid() && State() == Step(old(State()), Op.ClearReset)
    {
      hide RingOk, W32, SkipTo, RxValid;
      SkipOk(tx, TX_SIZE);
      if !resetReq { return; }
      RefinesSkip(txHead, txTail, txFlushMark, txFlushReq, txBuf[..], TX_SIZE, tx);
      txTail := SkipTo(txTail, txFlushMark);
      txFlushReq := false;
      resetReq := false;
      tx := Skip(tx);
    }

    method DropTx()
      requires Valid()
      modifies this`txTail, this`tx
      ensures Valid() && tx == DropAll(old(tx))
    {
      hide W32, RxValid;
      txTail := txHead;
      tx := DropAll(tx);
    }

    method RequestRxFlush()
      requires Valid()
      modifies this`rxFlushMark, this`rxFlushReq, this`rx
      ensures Valid() && rx == Request(old(rx))
    {
      hide W32, TxValid;
      rxFlushMark := rxHead;
      rxFlushReq := true;
      rx := Request(rx);
    }

    method SetLinkUp(up: bool)
      requires Valid() && (!up && resetReq ==> InReach(tx))
      modifies this`txTail, this`txFlushReq, this`resetReq, this`tx
      modifies this`rxFlushMark, this`rxFlushReq, this`rx, this`linkUp
      ensures Valid() && State() == Step(old(State()), Op.SetLinkUp(up))
    {
      hide RxValid, TxValid, RingOk;
      if !up {
        if resetReq { ClearReset(); } else { DropTx(); }
        RequestRxFlush();
      }
      linkUp := up;
    }
  }

  lemma FullAccept(r: Ring, size: nat, bytes: seq<u8>)
    requires |r.sent| == r.taken + size
    ensures Accept(r, size, bytes) == r
  {
    assert r.sent + bytes[..0] == r.sent;
  }
}
