/** The paced keyboard queue (src/hal/hal_keyboard.cpp).

    Matrix changes wait in a queue and reach the matrix at most one per frame tick. A key release that
    still serves its hold time may be overtaken; presses and SHIFT changes keep their order. The
    specification records every change asked for and every change made, with its tick. */
module Keyboard {
  import opened Bits
  import opened Words

  const SIZE := 64         // both the queue and the matrix: 8 columns of 8 rows
  const SHIFT := 62        // column 7, row 6
  const MIN_HOLD := 4
  const MIN_GAP := 2

  type Cells = s: seq<bool> | |s| == 64 witness seq(64, _ => false)
  type Ages = s: seq<nat> | |s| == 64 witness seq(64, _ => 0)
  type Cell = c: nat | c < 64

  /** A change of one cell; `shift` is the SHIFT state it was asked for with. */
  datatype Op = Op(cell: Cell, press: bool, shift: bool)

  // Changes that keep their order.
  predicate InOrder(op: Op) { op.press || op.cell == SHIFT }

  function OfCell(c: Cell): Op -> bool { (op: Op) => op.cell == c }

  function Without(q: seq<Op>, k: nat): seq<Op>
    requires k < |q|
  {
    q[..k] + q[k + 1..]
  }

  function Set(m: Cells, op: Op): Cells { m[op.cell := op.press] }

  function Apply(m: Cells, q: seq<Op>): Cells
    decreases q
  {
    if q == [] then m else Apply(Set(m, q[0]), q[1..])
  }

  /** Every waiting change is a real one, and every key press meets the SHIFT state it was asked for
      with once the changes before it have been made. */
  predicate QueueOk(m: Cells, q: seq<Op>)
    decreases q
  {
    q == [] ||
    (&& q[0].press != m[q[0].cell]
     && (q[0].press && q[0].cell != SHIFT ==> q[0].shift == m[SHIFT])
     && QueueOk(Set(m, q[0]), q[1..]))
  }

  // An earlier change to the same cell is waiting.
  predicate Blocked(q: seq<Op>, k: nat)
    requires k < |q|
  {
    exists j :: 0 <= j < k && q[j].cell == q[k].cell
  }

  // Nothing before `k` but key releases.
  predicate Overtakes(q: seq<Op>, k: nat)
    requires k < |q|
  {
    forall j :: 0 <= j < k ==> !InOrder(q[j])
  }

  lemma {:induction false} FireEarly(m: Cells, q: seq<Op>, k: nat)
    requires k < |q| && !Blocked(q, k)
    ensures Apply(Set(m, q[k]), Without(q, k)) == Apply(m, q)
    decreases k
  {
    if k == 0 {
      assert Without(q, k) == q[1..];
    } else {
      var r := q[1..];
      forall j | 0 <= j < k - 1
        ensures r[j].cell != r[k - 1].cell
      {
        assert q[j + 1].cell != q[k].cell;
      }
      FireEarly(Set(m, q[0]), r, k - 1);
      assert q[0].cell != q[k].cell;
      assert Without(q, k)[1..] == Without(r, k - 1);
      assert Set(Set(m, q[k]), q[0]) == Set(Set(m, q[0]), q[k]);
    }
  }

  lemma {:induction false} FireEarlyOk(m: Cells, q: seq<Op>, k: nat)
    requires k < |q| && !Blocked(q, k) && Overtakes(q, k) && QueueOk(m, q)
    ensures q[k].press != m[q[k].cell]
    ensures q[k].press && q[k].cell != SHIFT ==> q[k].shift == m[SHIFT]
    ensures QueueOk(Set(m, q[k]), Without(q, k))
    decreases k
  {
    if k == 0 {
      assert Without(q, k) == q[1..];
    } else {
      var r := q[1..];
      forall j | 0 <= j < k - 1
        ensures r[j].cell != r[k - 1].cell
      {
        assert q[j + 1].cell != q[k].cell;
      }
      FireEarlyOk(Set(m, q[0]), r, k - 1);
      assert q[0].cell != q[k].cell && !InOrder(q[0]);
      assert Without(q, k)[1..] == Without(r, k - 1);
      assert Set(Set(m, q[k]), q[0]) == Set(Set(m, q[0]), q[k]);
    }
  }

  lemma {:induction false} QueueAppend(m: Cells, q: seq<Op>, op: Op)
    requires QueueOk(m, q) && op.press != Apply(m, q)[op.cell]
    requires op.press && op.cell != SHIFT ==> op.shift == Apply(m, q)[SHIFT]
    ensures QueueOk(m, q + [op]) && Apply(m, q + [op]) == Set(Apply(m, q), op)
    decreases q
  {
    if q == [] {
      assert q + [op] == [op];
    } else {
      assert (q + [op])[1..] == q[1..] + [op];
      QueueAppend(Set(m, q[0]), q[1..], op);
    }
  }

  // ------------------------------------------------------------------
  // The queue and its steps
  // ------------------------------------------------------------------

  /** A change made: at which tick, whether an overflow forced it, and the SHIFT state it met. */
  datatype Change = Change(op: Op, at: nat, forced: bool, shift: bool)

  /** `asked` and `log`: every change ever queued, and every change made; `now`: ticks so far. */
  datatype Board = Board(matrix: Cells, target: Cells, queue: seq<Op>, age: Ages, asked: seq<Op>, log: seq<Change>,
      now: nat)

  function Fire(b: Board, k: nat, forced: bool): Board
    requires k < |b.queue|
  {
    var op := b.queue[k];
    b.(matrix := Set(b.matrix, op), age := b.age[op.cell := 0], queue := Without(b.queue, k),
       log := b.log + [Change(op, b.now, forced, b.matrix[SHIFT])])
  }

  function Ask(b: Board, cell: Cell, press: bool): Board {
    if b.target[cell] == press then b
    else
      var op := Op(cell, press, b.target[SHIFT]);
      var c := if |b.queue| == SIZE then Fire(b, 0, true) else b;
      c.(target := Set(b.target, op), queue := c.queue + [op], asked := b.asked + [op])
  }

  function Need(op: Op): nat { if op.press then MIN_GAP else MIN_HOLD }

  /** The oldest change that is due, looking from position `i`. */
  function Due(q: seq<Op>, age: Ages, i: nat): (r: Option<nat>)
    requires i <= |q|
    ensures r.Some? ==> i <= r.value < |q| && !Blocked(q, r.value) && age[q[r.value].cell] >= Need(q[r.value])
    ensures r.Some? ==> forall j :: i <= j < r.value ==> !InOrder(q[j])
    decreases |q| - i
  {
    if i == |q| then None
    else if !Blocked(q, i) && age[q[i].cell] >= Need(q[i]) then Some(i)
    else if InOrder(q[i]) then None
    else Due(q, age, i + 1)
  }

  function Older(age: Ages): Ages { seq(64, c requires 0 <= c < 64 => if age[c] < 255 then age[c] + 1 else age[c]) }

  function Aged(b: Board): Board { b.(age := Older(b.age), now := b.now + 1) }

  function Tick(b: Board): Board {
    var a := Aged(b);
    match Due(a.queue, a.age, 0)
    case None => a
    case Some(k) => Fire(a, k, false)
  }

  datatype Event = Key(cell: Cell, press: bool) | Frame

  function Next(b: Board, e: Event): Board {
    match e
    case Key(cell, press) => Ask(b, cell, press)
    case Frame => Tick(b)
  }

  function Run(b: Board, events: seq<Event>): Board
    decreases events
  {
    if events == [] then b else Run(Next(b, events[0]), events[1..])
  }

  const START := Board(seq(64, _ => false), seq(64, _ => false), [], seq(64, _ => 0), [], [], 0)

  // ------------------------------------------------------------------
  // What every step keeps
  // ------------------------------------------------------------------

  function Filter(s: seq<Op>, f: Op -> bool): seq<Op> {
    if s == [] then [] else (if f(s[0]) then [s[0]] else []) + Filter(s[1..], f)
  }

  function Made(log: seq<Change>): seq<Op> {
    seq(|log|, i requires 0 <= i < |log| => log[i].op)
  }

  // Tick of the last change of a cell.
  function Last(log: seq<Change>, c: Cell): nat {
    if log == [] then 0
    else if log[|log| - 1].op.cell == c then log[|log| - 1].at
    else Last(log[..|log| - 1], c)
  }

  // Change `e` comes no sooner than its cell allows, unless forced; a key press met its SHIFT state.
  predicate ChangeOk(e: Change, before: seq<Change>) {
    && (!e.forced ==> e.at >= Last(before, e.op.cell) + Need(e.op))
    && (e.op.press && e.op.cell != SHIFT ==> e.shift == e.op.shift)
  }

  ghost predicate LogOk(b: Board) {
    forall i :: 0 <= i < |b.log| ==> ChangeOk(b.log[i], b.log[..i])
  }

  // Made, then waiting: in this order the changes of each class are as they were asked for.
  ghost predicate OrderOk(b: Board) {
    var all := Made(b.log) + b.queue;
    && Filter(all, InOrder) == Filter(b.asked, InOrder)
    && forall c: Cell :: Filter(all, OfCell(c)) == Filter(b.asked, OfCell(c))
  }

  ghost predicate AgesOk(b: Board) {
    forall c: Cell :: Last(b.log, c) + b.age[c] <= b.now
  }

  ghost predicate Inv(b: Board) {
    && |b.queue| <= SIZE && QueueOk(b.matrix, b.queue) && Apply(b.matrix, b.queue) == b.target
    && LogOk(b) && OrderOk(b) && AgesOk(b)
  }

  lemma FilterEmpty(f: Op -> bool)
    ensures Filter([], f) == []
  {
  }

  lemma FilterStep(s: seq<Op>, f: Op -> bool)
    requires s != []
    ensures Filter(s, f) == (if f(s[0]) then [s[0]] else []) + Filter(s[1..], f)
  {
  }

  lemma {:induction false} FilterConcat(a: seq<Op>, b: seq<Op>, f: Op -> bool)
    ensures Filter(a + b, f) == Filter(a, f) + Filter(b, f)
    decreases a
  {
    hide Filter;
    if a == [] {
      FilterEmpty(f);
      assert a + b == b;
    } else {
      FilterStep(a, f);
      FilterStep(a + b, f);
      assert (a + b)[0] == a[0] && (a + b)[1..] == a[1..] + b;
      FilterConcat(a[1..], b, f);
    }
  }

  lemma {:induction false} FilterNone(s: seq<Op>, f: Op -> bool)
    requires forall j :: 0 <= j < |s| ==> !f(s[j])
    ensures Filter(s, f) == []
    decreases s
  {
    if s != [] { FilterNone(s[1..], f); }
  }

  lemma FilterOne(op: Op, f: Op -> bool)
    ensures Filter([op], f) == if f(op) then [op] else []
  {
    assert [op][1..] == [];
  }

  // Bringing one change forward past changes of other classes keeps every class in order.
  lemma FilterMove(q: seq<Op>, k: nat, f: Op -> bool)
    requires k < |q| && (f(q[k]) ==> forall j :: 0 <= j < k ==> !f(q[j]))
    ensures Filter([q[k]] + Without(q, k), f) == Filter(q, f)
  {
    hide Filter;
    var a, o, c := q[..k], [q[k]], q[k + 1..];
    FilterConcat(o, a + c, f);
    FilterConcat(a, c, f);
    FilterConcat(a, o + c, f);
    FilterConcat(o, c, f);
    assert q == a + (o + c);
    FilterOne(q[k], f);
    if f(q[k]) {
      FilterNone(a, f);
      assert Filter(q, f) == [] + (o + Filter(c, f));
    }
  }

  lemma FilterFire(made: seq<Op>, q: seq<Op>, k: nat, f: Op -> bool)
    requires k < |q| && (f(q[k]) ==> forall j :: 0 <= j < k ==> !f(q[j]))
    ensures Filter(made + [q[k]] + Without(q, k), f) == Filter(made + q, f)
  {
    FilterMove(q, k, f);
    FilterConcat(made, q, f);
    FilterConcat(made, [q[k]] + Without(q, k), f);
    assert made + [q[k]] + Without(q, k) == made + ([q[k]] + Without(q, k));
  }

  lemma FireOrder(b: Board, k: nat, forced: bool)
    requires k < |b.queue| && OrderOk(b) && !Blocked(b.queue, k) && Overtakes(b.queue, k)
    ensures OrderOk(Fire(b, k, forced))
  {
    var g := Fire(b, k, forced);
    assert Made(g.log) == Made(b.log) + [b.queue[k]];
    FilterFire(Made(b.log), b.queue, k, InOrder);
    forall c: Cell
      ensures Filter(Made(g.log) + g.queue, OfCell(c)) == Filter(b.asked, OfCell(c))
    {
      FilterFire(Made(b.log), b.queue, k, OfCell(c));
    }
  }

  lemma FireLog(b: Board, k: nat, forced: bool)
    requires k < |b.queue| && LogOk(b) && AgesOk(b)
    requires forced || b.age[b.queue[k].cell] >= Need(b.queue[k])
    requires b.queue[k].press && b.queue[k].cell != SHIFT ==> b.queue[k].shift == b.matrix[SHIFT]
    ensures LogOk(Fire(b, k, forced)) && AgesOk(Fire(b, k, forced))
  {
    var g := Fire(b, k, forced);
    forall i | 0 <= i < |g.log|
      ensures ChangeOk(g.log[i], g.log[..i])
    {
      assert g.log[..i] == b.log[..i];
      if i < |b.log| { assert ChangeOk(b.log[i], b.log[..i]); } else { assert b.log[..i] == b.log; }
    }
    assert g.log[..|g.log| - 1] == b.log;
  }

  lemma FireOk(b: Board, k: nat, forced: bool)
    requires Inv(b) && k < |b.queue| && !Blocked(b.queue, k) && Overtakes(b.queue, k)
    requires forced || b.age[b.queue[k].cell] >= Need(b.queue[k])
    ensures Inv(Fire(b, k, forced)) && |Fire(b, k, forced).queue| == |b.queue| - 1
  {
    hide OrderOk, AgesOk, LogOk;
    FireEarly(b.matrix, b.queue, k);
    FireEarlyOk(b.matrix, b.queue, k);
    FireOrder(b, k, forced);
    FireLog(b, k, forced);
  }

  lemma AskOk(b: Board, cell: Cell, press: bool)
    requires Inv(b)
    ensures Inv(Ask(b, cell, press))
  {
    if b.target[cell] != press {
      hide OrderOk, LogOk, AgesOk, Fire;
      var op := Op(cell, press, b.target[SHIFT]);
      if |b.queue| == SIZE { FireOk(b, 0, true); }
      var c := if |b.queue| == SIZE then Fire(b, 0, true) else b;
      FireKeeps(b);
      QueueAppend(c.matrix, c.queue, op);
      AskOrder(c, Ask(b, cell, press), op);
      AskLog(c, Ask(b, cell, press));
    }
  }

  lemma FireKeeps(b: Board)
    ensures |b.queue| > 0 ==> var g := Fire(b, 0, true); g.target == b.target && g.asked == b.asked && g.now == b.now
  {
  }

  lemma AskLog(c: Board, g: Board)
    requires LogOk(c) && AgesOk(c) && g.log == c.log && g.age == c.age && g.now == c.now
    ensures LogOk(g) && AgesOk(g)
  {
  }

  lemma AskOrder(c: Board, g: Board, op: Op)
    requires OrderOk(c) && g.log == c.log && g.queue == c.queue + [op] && g.asked == c.asked + [op]
    ensures OrderOk(g)
  {
    var made := Made(c.log);
    assert made + (c.queue + [op]) == (made + c.queue) + [op];
    FilterConcat(made + c.queue, [op], InOrder);
    FilterConcat(c.asked, [op], InOrder);
    forall k: Cell
      ensures Filter(Made(g.log) + g.queue, OfCell(k)) == Filter(g.asked, OfCell(k))
    {
      FilterConcat(made + c.queue, [op], OfCell(k));
      FilterConcat(c.asked, [op], OfCell(k));
    }
  }

  lemma AgedOk(b: Board)
    requires Inv(b)
    ensures Inv(Aged(b))
  {
    hide OrderOk;
    assert OrderOk(Aged(b)) by { SameOrder(b, Aged(b)); }
  }

  lemma SameOrder(b: Board, g: Board)
    requires OrderOk(b) && g.log == b.log && g.queue == b.queue && g.asked == b.asked
    ensures OrderOk(g)
  {
  }

  lemma NextOk(b: Board, e: Event)
    requires Inv(b)
    ensures Inv(Next(b, e))
  {
    hide Inv, Fire, Aged;
    match e
    case Key(cell, press) => AskOk(b, cell, press);
    case Frame =>
      AgedOk(b);
      var a := Aged(b);
      match Due(a.queue, a.age, 0)
      case None =>
      case Some(k) => FireOk(a, k, false);
  }

  lemma StartOk()
    ensures Inv(START)
  {
    assert Made(START.log) + START.queue == START.asked;
  }

  lemma {:induction false} RunOk(b: Board, events: seq<Event>)
    requires Inv(b)
    ensures Inv(Run(b, events))
    decreases events
  {
    if events != [] {
      hide Inv, Next;
      NextOk(b, events[0]);
      RunOk(Next(b, events[0]), events[1..]);
    }
  }

  // ------------------------------------------------------------------
  // Main results, for every sequence of key events and frames
  // ------------------------------------------------------------------

  /** Making every waiting change gives the matrix asked for. */
  lemma QueueLeadsToTarget(events: seq<Event>)
    ensures var b := Run(START, events); Apply(b.matrix, b.queue) == b.target && |b.queue| <= SIZE
  {
    StartOk();
    RunOk(START, events);
  }

  /** Presses and SHIFT changes take effect in the order they were asked for, and so do the changes
      of each cell, overflow or not: nothing is lost or repeated. */
  lemma OrderKept(events: seq<Event>, c: Cell)
    ensures var b := Run(START, events); var all := Made(b.log) + b.queue;
      && Filter(all, InOrder) == Filter(b.asked, InOrder)
      && Filter(all, OfCell(c)) == Filter(b.asked, OfCell(c))
  {
    hide Run;
    StartOk();
    RunOk(START, events);
  }

  /** Every key press is made with the SHIFT state it was asked for with, even on overflow; and a
      change not forced by overflow comes at least 4 ticks (release) or 2 ticks (press) after the
      previous change of its cell. */
  lemma PressesAndPacing(events: seq<Event>, i: nat)
    requires i < |Run(START, events).log|
    ensures var log := Run(START, events).log; var e := log[i];
      && (e.op.press && e.op.cell != SHIFT ==> e.shift == e.op.shift)
      && (!e.forced ==> e.at >= Last(log[..i], e.op.cell) + (if e.op.press then 2 else 4))
  {
    hide Run;
    StartOk();
    RunOk(START, events);
    var b := Run(START, events);
    assert ChangeOk(b.log[i], b.log[..i]);
  }

  /** The changes that key events ask for, `down` being what is asked for before them: every event that changes a
      cell, with the SHIFT state at that time. A repeat asks for nothing. */
  function Wanted(down: Cells, ops: seq<Op>, events: seq<Event>): (Cells, seq<Op>)
    decreases events
  {
    if events == [] then (down, ops)
    else match events[0]
      case Frame => Wanted(down, ops, events[1..])
      case Key(c, press) =>
        if down[c] == press then Wanted(down, ops, events[1..])
        else Wanted(down[c := press], ops + [Op(c, press, down[8 * 7 + 6])], events[1..])
  }

  lemma {:induction false} WantedFrom(b: Board, events: seq<Event>)
    ensures var (down, ops) := Wanted(b.target, b.asked, events);
      Run(b, events).target == down && Run(b, events).asked == ops
    decreases events
  {
    if events != [] {
      WantedStep(b, events[0]);
      hide Next;
      WantedFrom(Next(b, events[0]), events[1..]);
    }
  }

  lemma WantedStep(b: Board, e: Event)
    ensures var n := Next(b, e);
      match e
      case Frame => n.target == b.target && n.asked == b.asked
      case Key(c, press) =>
        if b.target[c] == press then n.target == b.target && n.asked == b.asked
        else n.target == b.target[c := press] && n.asked == b.asked + [Op(c, press, b.target[8 * 7 + 6])]
  {
  }

  /** What is asked for is what was typed: the matrix the queue leads to holds the last state of every key, and the
      changes made and waiting are those of the key events, none for a repeat. */
  lemma TargetIsTyped(events: seq<Event>)
    ensures var (down, ops) := Wanted(seq(64, _ => false), [], events);
      Run(START, events).target == down && Run(START, events).asked == ops
  {
    WantedFrom(START, events);
  }

  function Least(a: int, b: int): int { if a < b then a else b }

  ghost predicate AgesExact(b: Board) {
    forall c: Cell :: b.age[c] == Least(255, b.now - Last(b.log, c)) && Last(b.log, c) <= b.now
  }

  lemma FireAges(b: Board, k: nat, forced: bool)
    requires AgesExact(b) && k < |b.queue|
    ensures AgesExact(Fire(b, k, forced))
  {
    var g := Fire(b, k, forced);
    assert g.log[..|g.log| - 1] == b.log;
  }

  lemma NextAges(b: Board, e: Event)
    requires AgesExact(b)
    ensures AgesExact(Next(b, e))
  {
    hide Fire;
    match e
    case Key(cell, press) =>
      if b.target[cell] != press && |b.queue| == SIZE {
        FireAges(b, 0, true);
        SameAges(Fire(b, 0, true), Ask(b, cell, press));
      }
    case Frame =>
      AgedAges(b);
      var a := Aged(b);
      match Due(a.queue, a.age, 0)
      case None =>
      case Some(k) => FireAges(a, k, false);
  }

  lemma AgedAges(b: Board)
    requires AgesExact(b)
    ensures AgesExact(Aged(b))
  {
    forall c: Cell
      ensures Aged(b).age[c] == Least(255, Aged(b).now - Last(b.log, c)) && Last(b.log, c) <= Aged(b).now
    {
      assert b.age[c] == Least(255, b.now - Last(b.log, c));
    }
  }

  lemma SameAges(b: Board, g: Board)
    requires AgesExact(b) && g.age == b.age && g.log == b.log && g.now == b.now
    ensures AgesExact(g)
  {
  }

  lemma {:induction false} AgesKept(b: Board, events: seq<Event>)
    requires AgesExact(b)
    ensures AgesExact(Run(b, events))
    decreases events
  {
    if events != [] {
      hide Next, AgesExact;
      NextAges(b, events[0]);
      AgesKept(Next(b, events[0]), events[1..]);
    }
  }

  /** The age of a cell is the number of ticks since its last change, up to 255. */
  lemma AgesAre(events: seq<Event>, c: Cell)
    ensures var b := Run(START, events); b.age[c] == Least(255, b.now - Last(b.log, c))
  {
    AgesKept(START, events);
  }

  // The change `k` could be made at the next tick, as far as its own cell goes.
  predicate Free(b: Board, k: nat)
    requires k < |b.queue|
  {
    && (forall j :: 0 <= j < k ==> b.queue[j].cell != b.queue[k].cell)
    && b.age[b.queue[k].cell] + 1 >= if b.queue[k].press then 2 else 4
  }

  // It has nothing before it but key releases that cannot be made yet.
  predicate First(b: Board, k: nat)
    requires k < |b.queue|
  {
    Free(b, k) && forall j: nat :: j < k ==> !b.queue[j].press && b.queue[j].cell != 62 && !Free(b, j)
  }

  lemma {:induction false} DueIs(b: Board, i: nat)
    requires i <= |b.queue| && forall j: nat :: j < i ==> !InOrder(b.queue[j]) && !Free(b, j)
    ensures match Due(b.queue, Older(b.age), i)
            case Some(k) => First(b, k)
            case None => forall k: nat :: k < |b.queue| ==> !First(b, k)
    decreases |b.queue| - i
  {
    if i < |b.queue| {
      FreeIs(b, i);
      if !Free(b, i) && !InOrder(b.queue[i]) {
        DueIs(b, i + 1);
      } else if !Free(b, i) {
        forall k: nat | k < |b.queue|
          ensures !First(b, k)
        {
        }
      }
    }
  }

  lemma FreeIs(b: Board, i: nat)
    requires i < |b.queue|
    ensures Free(b, i) <==> !Blocked(b.queue, i) && Older(b.age)[b.queue[i].cell] >= Need(b.queue[i])
  {
  }

  /** A tick makes the first change that is free and has only releases before it that are not, if there is one; it
      makes no other, and without one it changes nothing but ages. */
  lemma TickMakes(b: Board, k: nat)
    requires k < |b.queue| && First(b, k)
    ensures var op, t := b.queue[k], Tick(b);
      && t.matrix == b.matrix[op.cell := op.press] && t.queue == b.queue[..k] + b.queue[k + 1..]
      && t.log == b.log + [Change(op, b.now + 1, false, b.matrix[62])] && t.target == b.target
  {
    DueIs(b, 0);
    OneFirst(b, k);
  }

  lemma OneFirst(b: Board, k: nat)
    requires k < |b.queue| && First(b, k)
    ensures forall j: nat :: j < |b.queue| && First(b, j) ==> j == k
  {
    forall j: nat | j < |b.queue| && First(b, j)
      ensures j == k
    {
    }
  }

  lemma TickRests(b: Board)
    requires forall k: nat :: k < |b.queue| ==> !First(b, k)
    ensures var t := Tick(b); t.matrix == b.matrix && t.queue == b.queue && t.log == b.log && t.target == b.target
  {
    DueIs(b, 0);
  }

  function Frames(b: Board, n: nat): Board
    decreases n
  {
    if n == 0 then b else Frames(Tick(b), n - 1)
  }

  // A tick either makes a change or only ages the cells.
  lemma TickShrinks(b: Board)
    requires |b.queue| > 0
    ensures |Tick(b).queue| == |b.queue| - 1 || (Tick(b) == Aged(b) && Aged(b).age[b.queue[0].cell] < Need(b.queue[0]))
  {
    assert !Blocked(b.queue, 0);
  }

  lemma {:induction false} FramesAdd(b: Board, m: nat, n: nat)
    ensures Frames(b, m + n) == Frames(Frames(b, m), n)
    decreases m
  {
    hide Tick;
    if m > 0 { FramesAdd(Tick(b), m - 1, n); }
  }

  lemma TickNeverGrows(b: Board)
    ensures |Tick(b).queue| <= |b.queue|
  {
  }

  /** Within four ticks a waiting change is made: the first in the queue is never blocked. */
  lemma FourFrames(b: Board)
    requires |b.queue| > 0
    ensures |Frames(b, 4).queue| < |b.queue|
  {
    hide Tick, Aged;
    var t1 := Tick(b);
    var t2 := Tick(t1);
    var t3 := Tick(t2);
    var t4 := Tick(t3);
    assert Frames(b, 4) == Frames(t1, 3) == Frames(t2, 2) == Frames(t3, 1) == t4;
    TickNeverGrows(b);
    TickNeverGrows(t1);
    TickNeverGrows(t2);
    TickNeverGrows(t3);
    if |t4.queue| == |b.queue| {
      TickShrinks(b);
      TickShrinks(t1);
      TickShrinks(t2);
      TickShrinks(t3);
      AgedFour(b);
    }
  }

  lemma AgedFour(b: Board)
    requires |b.queue| > 0
    ensures var d := Aged(Aged(Aged(Aged(b)))); d.queue == b.queue && d.age[b.queue[0].cell] >= 4
    ensures Aged(b).queue == b.queue && Aged(Aged(b)).queue == b.queue && Aged(Aged(Aged(b))).queue == b.queue
  {
  }

  /** With no new key events the queue is empty after four ticks per waiting change. */
  lemma {:induction false} Drains(b: Board, n: nat)
    requires |b.queue| <= n
    ensures Frames(b, 4 * n).queue == []
    decreases n
  {
    hide Frames;
    if n == 0 {
      FramesNone(b);
    } else if |b.queue| == 0 {
      StaysEmpty(b, 4 * n);
    } else {
      FourFrames(b);
      FramesAdd(b, 4, 4 * (n - 1));
      Drains(Frames(b, 4), n - 1);
    }
  }

  lemma FramesNone(b: Board)
    ensures Frames(b, 0) == b
  {
  }

  lemma {:induction false} StaysEmpty(b: Board, n: nat)
    requires b.queue == []
    ensures Frames(b, n).queue == []
    decreases n
  {
    if n > 0 { StaysEmpty(Tick(b), n - 1); }
  }

  // ------------------------------------------------------------------
  // The code: the matrix as the CPU reads it, a bit per key, clear when pressed
  // ------------------------------------------------------------------

  predicate Down(b: bv8, row: Index) { !IsSet(b, row) }

  function Written(b: bv8, row: Index, press: bool): bv8 { WithBit(b, row, !press) }

  function CellAt(col: nat, row: nat): Cell
    requires col < 8 && row < 8
  {
    8 * col + row
  }

  // The cells a matrix of eight columns shows as pressed.
  ghost predicate Shows(m: seq<bv8>, cells: Cells) {
    |m| == 8 && forall c: Cell :: Down(m[c / 8], c % 8) == cells[c]
  }

  lemma ShowsSet(m: seq<bv8>, cells: Cells, col: nat, row: nat, press: bool)
    requires Shows(m, cells) && col < 8 && row < 8
    ensures Shows(m[col := Written(m[col], row, press)], cells[CellAt(col, row) := press])
    ensures Down(m[col], row) == cells[CellAt(col, row)]
  {
    hide IsSet, WithBit;
    var w := m[col := Written(m[col], row, press)];
    assert CellAt(col, row) / 8 == col && CellAt(col, row) % 8 == row;
    forall c: Cell
      ensures Down(w[c / 8], c % 8) == cells[CellAt(col, row) := press][c]
    {
      OneBit(m[col], row, !press, c % 8);
      assert Down(m[c / 8], c % 8) == cells[c];
    }
  }

  datatype KeyOp = KeyOp(col: nat, row: nat, press: bool)

  // The stored operations are the waiting ones, without what the specification adds to them.
  ghost predicate Stores(ops: seq<KeyOp>, q: seq<Op>) {
    && |ops| == |q|
    && forall i :: 0 <= i < |q| ==>
         ops[i].col < 8 && ops[i].row < 8 && CellAt(ops[i].col, ops[i].row) == q[i].cell && ops[i].press == q[i].press
  }

  lemma StoresWithout(ops: seq<KeyOp>, q: seq<Op>, k: nat)
    requires Stores(ops, q) && k < |q|
    ensures |ops| == |q|
    ensures Stores(ops[..k] + ops[k + 1..], Without(q, k))
    ensures ops[k].col < 8 && ops[k].row < 8 && CellAt(ops[k].col, ops[k].row) == q[k].cell &&
        ops[k].press == q[k].press
  {
  }

  lemma SameCell(c1: nat, r1: nat, c2: nat, r2: nat)
    requires c1 < 8 && r1 < 8 && c2 < 8 && r2 < 8
    ensures CellAt(c1, r1) == CellAt(c2, r2) <==> c1 == c2 && r1 == r2
  {
  }

  class Keys {
    const matrix: array<bv8>
    const target: array<bv8>
    const keyq: array<KeyOp>
    var len: nat
    const age: array<nat>
    ghost var b: Board

    ghost predicate Valid()
      reads this, matrix, target, keyq, age
    {
      && matrix != target && matrix.Length == 8 && target.Length == 8 && keyq.Length == SIZE && age.Length == 64 &&
          len <= SIZE
      && Inv(b) && Shows(matrix[..], b.matrix) && Shows(target[..], b.target)
      && Stores(keyq[..len], b.queue) && age[..] == b.age
    }

    constructor ()
      ensures Valid() && b == START && fresh(matrix) && fresh(target) && fresh(keyq) && fresh(age)
    {
      matrix := new bv8[8](_ => 0xFF);
      target := new bv8[8](_ => 0xFF);
      keyq := new KeyOp[SIZE](_ => KeyOp(0, 0, false));
      age := new nat[64](_ => 0);
      len := 0;
      b := START;
      new;
      StartOk();
      Released(matrix[..]);
      Released(target[..]);
    }

    // `set_key`
    method SetKey(col: nat, row: nat, press: bool, ghost m: Cells)
      requires matrix.Length == 8 && age.Length == 64 && Shows(matrix[..], m)
      modifies matrix, age
      ensures col >= 8 || row >= 8 ==> matrix[..] == old(matrix[..]) && age[..] == old(age[..])
      ensures col < 8 && row < 8 ==>
                Shows(matrix[..], m[CellAt(col, row) := press]) && age[..] == old(age[..])[CellAt(col, row) := 0]
    {
      if col >= 8 || row >= 8 { return; }
      hide Shows;
      ShowsSet(matrix[..], m, col, row, press);
      matrix[col] := Written(matrix[col], row, press);
      age[CellAt(col, row)] := 0;
    }

    // `keyq_remove`
    method Remove(k: nat)
      requires keyq.Length == SIZE && k < len <= SIZE
      modifies keyq, this`len
      ensures len == old(len) - 1 && keyq[..len] == old(keyq[..k]) + old(keyq[k + 1..len])
    {
      ghost var q := keyq[..];
      var i := k;
      while i < len - 1
        invariant k <= i <= len - 1
        invariant forall j :: 0 <= j < k || i <= j < SIZE ==> keyq[j] == q[j]
        invariant forall j :: k <= j < i ==> keyq[j] == q[j + 1]
        modifies keyq
      {
        assert keyq[i + 1] == q[i + 1];
        keyq[i] := keyq[i + 1];
        i := i + 1;
      }
      len := len - 1;
      forall j | k <= j < len
        ensures keyq[j] == q[k + 1..len + 1][j - k]
      {
      }
      assert keyq[..len] == q[..k] + q[k + 1..len + 1];
    }

    // Make the change at position `k`.
    method Make(k: nat, ghost forced: bool)
      requires Valid() && k < |b.queue| && !Blocked(b.queue, k) && Overtakes(b.queue, k)
      requires forced || b.age[b.queue[k].cell] >= Need(b.queue[k])
      modifies matrix, keyq, age, this`len, this`b
      ensures Valid() && b == Fire(old(b), k, forced) && len == old(len) - 1
    {
      hide Inv, Shows, Blocked, Overtakes, Stores, CellAt;
      FireOk(b, k, forced);
      StoresWithout(keyq[..len], b.queue, k);
      var op := keyq[k];
      ghost var ops := keyq[..len];
      assert ops[k] == op;
      SetKey(op.col, op.row, op.press, b.matrix);
      assert keyq[..len] == ops;
      Remove(k);
      assert keyq[..len] == ops[..k] + ops[k + 1..];
      b := Fire(b, k, forced);
    }

    // Put a change at the end of the queue and in the target; `g` is the state that gives.
    method Append(col: nat, row: nat, press: bool, ghost op: Op, ghost g: Board)
      requires Valid() && col < 8 && row < 8 && len < SIZE && Inv(g)
      requires op.cell == CellAt(col, row) && op.press == press
      requires g == b.(target := Set(b.target, op), queue := b.queue + [op], asked := b.asked + [op])
      modifies target, keyq, this`len, this`b
      ensures Valid() && b == g
    {
      hide Inv, Shows, Written;
      ShowsSet(target[..], b.target, col, row, press);
      target[col] := Written(target[col], row, press);
      keyq[len] := KeyOp(col, row, press);
      len := len + 1;
      b := g;
    }

    /** `queue_key`: a change the queue already ends in is dropped; a full queue first makes its oldest. */
    method QueueKey(col: nat, row: nat, press: bool)
      requires Valid()
      modifies matrix, target, keyq, age, this`len, this`b
      ensures Valid()
      ensures b == if col < 8 && row < 8 then Ask(old(b), CellAt(col, row), press) else old(b)
    {
      if col >= 8 || row >= 8 { return; }
      hide Inv, Shows, Blocked, Overtakes, Written, Down, Fire, Stores, CellAt;
      ghost var b0, cell := b, CellAt(col, row);
      ShowsSet(target[..], b.target, col, row, press);
      var down := Down(target[col], row);
      if down == press { return; }
      AskOk(b, cell, press);
      FireKeeps(b);
      QueueLength(b);
      ghost var op := Op(cell, press, b.target[SHIFT]);
      if len == SIZE {
        FirstReady(b.queue);
        Make(0, true);
      }
      Append(col, row, press, op, Ask(b0, cell, press));
    }

    lemma QueueLength(b: Board)
      requires Valid() && b == this.b
      ensures len == |b.queue|
    {
    }

    // The loop of `tick_key_queue` over one operation: is an earlier one for the same cell waiting?
    method IsBlocked(i: nat) returns (blocked: bool)
      requires Valid() && i < len
      ensures blocked == Blocked(b.queue, i)
    {
      hide Inv, Shows;
      var j := 0;
      blocked := false;
      while j < i && !blocked
        invariant j <= i
        invariant !blocked ==> forall m :: 0 <= m < j ==> b.queue[m].cell != b.queue[i].cell
        invariant blocked ==> 0 < j && b.queue[j - 1].cell == b.queue[i].cell
      {
        SameCell(keyq[j].col, keyq[j].row, keyq[i].col, keyq[i].row);
        blocked := keyq[j].col == keyq[i].col && keyq[j].row == keyq[i].row;
        j := j + 1;
      }
    }

    method Age()
      requires Valid()
      modifies age, this`b
      ensures Valid() && b == Aged(old(b))
    {
      hide Inv, Shows;
      AgedOk(b);
      forall c | 0 <= c < 64 { age[c] := if age[c] < 255 then age[c] + 1 else age[c]; }
      b := Aged(b);
      assert matrix[..] == old(matrix[..]) && target[..] == old(target[..]) && keyq[..len] == old(keyq[..len]);
      assert age[..] == b.age;
    }

    // What the loop of `tick_key_queue` asks of one operation: is it due, may nothing overtake it?
    method Look(i: nat) returns (due: bool, stop: bool)
      requires Valid() && i < len && len == |b.queue|
      ensures due == (!Blocked(b.queue, i) && b.age[b.queue[i].cell] >= Need(b.queue[i]))
      ensures stop == InOrder(b.queue[i])
    {
      hide Inv, Shows, Blocked, CellAt;
      var op := keyq[i];
      var blocked := IsBlocked(i);
      var need := if op.press then MIN_GAP else MIN_HOLD;
      due := !blocked && age[CellAt(op.col, op.row)] >= need;
      SameCell(op.col, op.row, 7, 6);
      ShiftCell();
      stop := op.press || (op.col == 7 && op.row == 6);
    }

    /** `tick_key_queue`: every cell one tick older, then the oldest change that is due. */
    method TickQueue()
      requires Valid()
      modifies matrix, keyq, age, this`len, this`b
      ensures Valid() && b == Tick(old(b))
    {
      hide Inv, Shows, Stores, Blocked, Fire, Aged, CellAt;
      Age();
      QueueLength(b);
      ghost var a := b;
      var i := 0;
      while i < len
        invariant Valid() && b == a && i <= len == |b.queue|
        invariant Due(a.queue, a.age, 0) == Due(a.queue, a.age, i)
        invariant forall j :: 0 <= j < i ==> !InOrder(a.queue[j])
        decreases len - i
      {
        var due, stop := Look(i);
        if due {
          Make(i, false);
          return;
        }
        if stop { return; }
        i := i + 1;
      }
    }
  }

  lemma ShiftCell()
    ensures CellAt(7, 6) == SHIFT
  {
  }

  lemma FirstReady(q: seq<Op>)
    requires |q| > 0
    ensures !Blocked(q, 0) && Overtakes(q, 0)
  {
  }

  lemma Released(m: seq<bv8>)
    requires |m| == 8 && forall i :: 0 <= i < 8 ==> m[i] == 0xFF
    ensures Shows(m, START.matrix)
  {
  }
}
