/** The programmable timer of the GIME (src/core/tcc1014.cpp). With TINS set it counts 228 ticks of a
    fast clock per scanline, so it can expire several times in one line; half ticks keep it exact. */
module GimeTimer {
  import opened Arithmetic
  import opened Words

  const PER_LINE := 456         // half ticks a scanline lasts in the fast mode

  /** `left` counts half ticks to the next expiry (fast mode), `counter` lines (slow mode). `period` is
      the period being counted, in half ticks, and `spent` the sum of the periods completed: both only
      record what happened. */
  datatype Timer = Timer(msb: u8, lsb: u8, tins: bool, counter: nat, left: int, fires: nat, period: nat, spent: nat)

  function Reload(t: Timer): nat { t.msb % 16 * 0x100 + t.lsb }

  // `arm_timer`
  function Arm(t: Timer): Timer {
    var c := if Reload(t) != 0 then Reload(t) + 1 else 0;
    t.(counter := c, left := 2 * c, period := 2 * c)
  }

  // An expiry: count it, start the next period from the registers, less what the last one overran.
  function Expire(t: Timer): Timer {
    var a := Arm(t.(fires := t.fires + 1, spent := t.spent + t.period));
    if a.counter == 0 then a else a.(left := a.left + t.left)
  }

  function Expiries(t: Timer): (u: Timer)
    ensures u.counter == 0 || u.left > 0
    decreases if t.left <= 0 then 1 - t.left else 0
  {
    if t.left > 0 then t
    else
      var e := Expire(t);
      if e.counter == 0 then e else Expiries(e)
  }

  /** `tcc1014_tick_scanline` */
  function Line(t: Timer): Timer {
    if t.counter == 0 then t
    else if !t.tins then
      if t.counter == 1 then Arm(t.(fires := t.fires + 1, spent := t.spent + t.period))
      else t.(counter := t.counter - 1)
    else Expiries(t.(left := t.left - PER_LINE))
  }

  datatype Event = Scanline | Msb(v: u8) | Lsb(v: u8) | Init1(tins: bool)

  /** The register writes: $FF94 arms at once, $FF95 only stores, a change of TINS arms. */
  function Next(t: Timer, e: Event): Timer {
    match e
    case Scanline => Line(t)
    case Msb(v) => Arm(t.(msb := v))
    case Lsb(v) => t.(lsb := v)
    case Init1(b) => if b != t.tins then Arm(t.(tins := b)) else t
  }

  // ------------------------------------------------------------------
  // The fast mode keeps exact time
  // ------------------------------------------------------------------

  // Counting in the fast mode.
  predicate Going(t: Timer) { t.tins && t.counter > 0 && t.period == 2 * t.counter && 0 < t.left <= t.period }

  // Half ticks since the timer was armed, as its own books have it.
  function Clock(t: Timer): int { t.spent + t.period - t.left }

  lemma {:induction false} ExpiriesConserve(t: Timer)
    requires t.tins && t.counter > 0 && t.period == 2 * t.counter && t.left <= t.period
    ensures var u := Expiries(t);
      && u.tins && u.msb == t.msb && u.lsb == t.lsb
      && (u.counter > 0 ==> Going(u) && Clock(u) == Clock(t))
      && (t.left > 0 ==> u == t)
      && (t.left <= 0 && Reload(t) == 0 ==> u.counter == 0 && u.fires == t.fires + 1 && u.spent == t.spent + t.period)
      && (t.left <= 0 && Reload(t) != 0 ==> u.period == 2 * (Reload(t) + 1) && u.counter > 0)
    decreases if t.left <= 0 then 1 - t.left else 0
  {
    if t.left <= 0 {
      var e := Expire(t);
      if e.counter > 0 { ExpiriesConserve(e); }
    }
  }

  /** One scanline: the timer's books advance by exactly 456 half ticks, expiries or not. A reload
      written since the last expiry is not seen before the next one; a reload of 0 then stops the
      timer, after that expiry. */
  lemma LineConserves(t: Timer)
    requires Going(t)
    ensures var u := Line(t);
      && (u.counter > 0 ==> Going(u) && Clock(u) == Clock(t) + PER_LINE)
      && (t.left > PER_LINE ==> u == t.(left := t.left - PER_LINE))
      && (t.left <= PER_LINE && Reload(t) == 0 ==> u.counter == 0 && u.fires == t.fires + 1)
      && (t.left <= PER_LINE && Reload(t) != 0 ==> u.counter > 0 && u.period == 2 * (Reload(t) + 1))
  {
    ExpiriesConserve(t.(left := t.left - PER_LINE));
  }

  function Lines(evs: seq<Event>): nat
    decreases evs
  {
    if evs == [] then 0 else (if evs[0] == Scanline then 1 else 0) + Lines(evs[1..])
  }

  function Run(t: Timer, evs: seq<Event>): Timer
    decreases evs
  {
    if evs == [] then t else Run(Next(t, evs[0]), evs[1..])
  }

  // Scanlines and $FF95 writes only.
  predicate NoArming(evs: seq<Event>) { forall i :: 0 <= i < |evs| ==> evs[i] == Scanline || evs[i].Lsb? }

  lemma {:induction false} Stopped(t: Timer, evs: seq<Event>)
    requires t.counter == 0 && NoArming(evs)
    ensures Run(t, evs).counter == 0 && Run(t, evs).fires == t.fires
    decreases evs
  {
    if evs != [] { Stopped(Next(t, evs[0]), evs[1..]); }
  }

  /** However $FF95 is rewritten while the fast timer runs, no time is lost or gained: as long as it has
      not stopped, the periods completed and the part of the current one add up to the lines passed. */
  lemma {:induction false} NoTimeLost(t: Timer, evs: seq<Event>)
    requires Going(t) && NoArming(evs)
    ensures var u := Run(t, evs); u.counter > 0 ==> Going(u) && Clock(u) == Clock(t) + PER_LINE * Lines(evs)
    decreases evs
  {
    if evs != [] {
      hide Line;
      var n := Next(t, evs[0]);
      if evs[0] == Scanline { LineConserves(t); }
      if n.counter > 0 { NoTimeLost(n, evs[1..]); } else { Stopped(n, evs[1..]); }
    }
  }

  // `n` scanlines.
  function After(t: Timer, n: nat): Timer { if n == 0 then t else Line(After(t, n - 1)) }

  // Every completed period was `p` half ticks.
  predicate Steady(t: Timer, first: Timer, p: nat) {
    Going(t) && t.period == p && Reload(t) == Reload(first) && t.spent == first.spent + p * (t.fires - first.fires) &&
        t.fires >= first.fires
  }

  lemma {:induction false} ExpiriesSteady(t: Timer, first: Timer, p: nat)
    requires t.tins && t.counter > 0 && t.period == 2 * t.counter == p && t.left <= p && Reload(t) == Reload(first)
    requires p == 2 * (Reload(t) + 1) && Reload(t) > 0 && t.fires >= first.fires
    requires t.spent == first.spent + p * (t.fires - first.fires)
    ensures Steady(Expiries(t), first, p)
    decreases if t.left <= 0 then 1 - t.left else 0
  {
    if t.left <= 0 {
      var e := Expire(t);
      OneMore(p, t.fires - first.fires);
      ExpiriesSteady(e, first, p);
    }
  }

  lemma OneMore(p: nat, k: nat)
    ensures p * (k + 1) == p * k + p
  {
  }

  lemma {:induction false} StaysSteady(first: Timer, n: nat)
    requires Going(first) && Reload(first) > 0 && first.period == first.left == 2 * (Reload(first) + 1)
    ensures Steady(After(first, n), first, first.period)
    ensures Clock(After(first, n)) == first.spent + PER_LINE * n
    decreases n
  {
    var p := first.period;
    if n > 0 {
      StaysSteady(first, n - 1);
      var t := After(first, n - 1);
      LineConserves(t);
      ExpiriesSteady(t.(left := t.left - PER_LINE), first, p);
    } else {
      assert p * 0 == 0;
    }
  }

  /** No drift: `n` lines after arming with a reload `r >= 1`, the fast timer has fired exactly
      floor(456n / (2(r + 1))) times and the remainder is held in `left`. */
  lemma NoDrift(t: Timer, n: nat)
    requires t.tins && Reload(t) >= 1
    ensures var a, p := Arm(t), 2 * (Reload(t) + 1); var u := After(a, n);
      && u.fires == t.fires + PER_LINE * n / p
      && u.left == p - PER_LINE * n % p
      && u.counter == Reload(t) + 1
  {
    hide After;
    var a, p := Arm(t), 2 * (Reload(t) + 1);
    StaysSteady(a, n);
    var u := After(a, n);
    QuotientIs(PER_LINE * n, p, u.fires - a.fires, p - u.left);
  }

  // ------------------------------------------------------------------
  // The slow mode
  // ------------------------------------------------------------------

  /** One tick a scanline: after `n` lines it has fired floor(n / (r + 1)) times. */
  lemma {:induction false} SlowTimer(t: Timer, n: nat)
    requires !t.tins && Reload(t) >= 1
    ensures var a, p := Arm(t), Reload(t) + 1; var u := After(a, n);
      && !u.tins && Reload(u) == Reload(t) && 0 < u.counter <= p
      && u.fires >= t.fires && n == p * (u.fires - t.fires) + (p - u.counter)
      && u.fires == t.fires + n / p
    decreases n
  {
    var a, p := Arm(t), Reload(t) + 1;
    if n > 0 {
      SlowTimer(t, n - 1);
      var v := After(a, n - 1);
      OneMore(p, v.fires - t.fires);
    } else {
      assert p * 0 == 0;
    }
    var u := After(a, n);
    QuotientIs(n, p, u.fires - t.fires, p - u.counter);
  }

  /** A stopped timer stays stopped, in both modes, until it is armed again. */
  lemma {:induction false} ZeroStops(t: Timer, n: nat)
    requires t.counter == 0
    ensures After(t, n) == t
    decreases n
  {
    if n > 0 { ZeroStops(t, n - 1); }
  }

  /** The reload is twelve bits, the low four of $FF94 and all of $FF95. Writing $FF94 restarts the count at reload
      plus one, or stops it for 0; writing $FF95 disturbs nothing that is being counted; a change of TINS
      restarts as well. */
  lemma RegisterWrites(t: Timer, v: u8, tins: bool)
    ensures var u, n := Next(t, Msb(v)), 0x100 * (v % 16) + t.lsb;
      u.counter == (if n == 0 then 0 else n + 1) && u.left == 2 * u.counter && u.fires == t.fires && u.tins == t.tins
    ensures Next(t, Lsb(v)) == t.(lsb := v)
    ensures var u, n := Next(t, Init1(tins)), 0x100 * (t.msb % 16) + t.lsb;
      if tins == t.tins then u == t
      else u.tins == tins && u.counter == (if n == 0 then 0 else n + 1) && u.left == 2 * u.counter && u.fires == t.fires
  {
  }

  /** In numbers: of 228 ticks a scanline, the timer fires every reload plus one. */
  lemma FastRate(t: Timer, v: u8, n: nat)
    requires t.tins && 0x100 * (v % 16) + t.lsb >= 1
    ensures After(Next(t, Msb(v)), n).fires == t.fires + 228 * n / (0x100 * (v % 16) + t.lsb + 1)
  {
    hide After;
    var u := t.(msb := v);
    NoDrift(u, n);
    var r := Reload(u);
    HalfTicks(n, r + 1);
  }

  lemma HalfTicks(n: nat, p: nat)
    requires p > 0
    ensures 456 * n / (2 * p) == 228 * n / p
  {
    var q, r := 228 * n / p, 228 * n % p;
    assert 228 * n == p * q + r;
    assert 456 * n == 2 * p * q + 2 * r;
    QuotientIs(456 * n, 2 * p, q, 2 * r);
  }

  // ------------------------------------------------------------------
  // The code
  // ------------------------------------------------------------------

  // A flag inverted `n` times.
  function Flipped(b: bool, n: nat): bool { if n == 0 then b else !Flipped(b, n - 1) }

  lemma ExpiriesStep(t: Timer)
    requires t.left <= 0
    ensures Expiries(t) == if Expire(t).counter == 0 then Expire(t) else Expiries(Expire(t))
  {
  }

  lemma NotDue(t: Timer)
    ensures t.left > 0 ==> Expiries(t) == t
  {
  }

  lemma ExpireAdvances(t: Timer)
    ensures Expire(t).counter > 0 ==> Expire(t).left > t.left
  {
  }

  lemma FlippedNone(b: bool)
    ensures Flipped(b, 0) == b
  {
  }

  lemma FlippedNext(b: bool, n: nat)
    ensures Flipped(b, n + 1) == !Flipped(b, n)
  {
  }

  class Gime {
    var msb: u8
    var lsb: u8
    var tins: bool
    var timerCounter: nat
    var timerLeftX2: int
    var timerFires: nat
    var blink: bool
    ghost var period: nat
    ghost var spent: nat

    ghost function State(): Timer
      reads this
    {
      Timer(msb, lsb, tins, timerCounter, timerLeftX2, timerFires, period, spent)
    }

    method ArmTimer()
      modifies this`timerCounter, this`timerLeftX2, this`period
      ensures State() == Arm(old(State()))
    {
      var reset := msb % 16 * 0x100 + lsb;
      timerCounter := if reset != 0 then reset + 1 else 0;
      timerLeftX2 := timerCounter * 2;
      period := 2 * timerCounter;
    }

    method TimerExpired()
      modifies this`blink, this`timerFires, this`spent
      ensures State() == old(State()).(fires := old(timerFires) + 1, spent := old(spent) + period)
      ensures blink == !old(blink)
    {
      blink := !blink;
      timerFires := timerFires + 1;
      spent := spent + period;
    }

    /** `tcc1014_tick_scanline` */
    method TickScanline()
      modifies this
      ensures State() == Line(old(State()))
      ensures timerFires >= old(timerFires) && blink == Flipped(old(blink), timerFires - old(timerFires))
    {
      hide Expiries;
      if timerCounter == 0 { return; }
      if !tins {
        timerCounter := timerCounter - 1;
        if timerCounter == 0 {
          TimerExpired();
          ArmTimer();
        }
      } else {
        timerLeftX2 := timerLeftX2 - PER_LINE;
        ExpireAll();
      }
    }

    // One expiry, the next period counting from where this one ended.
    method ExpireOnce()
      modifies this`timerCounter, this`timerLeftX2, this`period, this`blink, this`timerFires, this`spent
      ensures State() == Expire(old(State())) && blink == !old(blink) && timerFires == old(timerFires) + 1
    {
      var over := timerLeftX2;
      TimerExpired();
      ArmTimer();
      if timerCounter != 0 { timerLeftX2 := timerLeftX2 + over; }
    }

    // The loop of the fast mode: as many expiries as the line had.
    method ExpireAll()
      modifies this`timerCounter, this`timerLeftX2, this`period, this`blink, this`timerFires, this`spent
      ensures State() == Expiries(old(State()))
      ensures timerFires >= old(timerFires) && blink == Flipped(old(blink), timerFires - old(timerFires))
    {
      hide Expiries, Flipped, Expire;
      FlippedNone(blink);
      while timerLeftX2 <= 0
        invariant Expiries(State()) == Expiries(old(State()))
        invariant timerFires >= old(timerFires) && blink == Flipped(old(blink), timerFires - old(timerFires))
        decreases if timerLeftX2 <= 0 then 1 - timerLeftX2 else 0
      {
        ExpiriesStep(State());
        ExpireAdvances(State());
        FlippedNext(old(blink), timerFires - old(timerFires));
        ExpireOnce();
        if timerCounter == 0 { return; }
      }
      NotDue(State());
    }

    method WriteMsb(v: u8)
      modifies this
      ensures State() == Next(old(State()), Msb(v)) && blink == old(blink)
    {
      msb := v;
      ArmTimer();
    }

    method WriteLsb(v: u8)
      modifies this
      ensures State() == Next(old(State()), Lsb(v)) && blink == old(blink)
    {
      lsb := v;
    }

    method WriteInit1(newTins: bool)
      modifies this
      ensures State() == Next(old(State()), Init1(newTins)) && blink == old(blink)
    {
      if newTins != tins {
        tins := newTins;
        ArmTimer();
      }
    }
  }
}
