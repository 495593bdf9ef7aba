/** How many passes the cold-start mode can make before its deadline, exactly: a pass takes seven
    seconds a target, its tick an interval, and only the first ticks may have been waiting. */
module ColdExact {
  import opened Machine
  import opened ColdStart

  /** What one pass takes at least. */
  function PassTime(c: Cfg): nat { c.targets * SLEEP }

  /** The second tick, or the one before the start time if more have been missed. */
  function Ahead(c: Cfg, gap: nat): int
    requires c.rate > 0.0 && Interval(c.rate) > 0
  {
    AtLeast(gap / Interval(c.rate), 2)
  }

  /** Pass number n + 1 at its soonest, after the start time: after n passes, and after its tick. */
  function PassAt(c: Cfg, gap: nat, n: nat): int
    requires c.rate > 0.0 && Interval(c.rate) > 0
  {
    var i := Interval(c.rate);
    var lead := (Ahead(c, gap) - 1) * i - gap;
    AtLeast(AtLeast(lead, 0) + n * PassTime(c), lead + n * i)
  }

  lemma PassAtFirst(c: Cfg, gap: nat)
    requires c.rate > 0.0 && Interval(c.rate) > 0
    ensures PassAt(c, gap, 0) == AtLeast(Interval(c.rate) - gap, 0)
  {
    var i := Interval(c.rate);
    var q := gap / i;
    assert gap == q * i + gap % i;
    hide Interval, PassTime;
    assert 0 * i == 0 && 0 * PassTime(c) == 0;
    if q >= 2 {
      assert (q - 1) * i == q * i - i;
      ScaleUp(1, q, i);
    }
  }

  /** What is past one pass more and past its tick is past its soonest time. */
  lemma PassAtStep(c: Cfg, gap: nat, n: nat, x: int)
    requires c.rate > 0.0 && Interval(c.rate) > 0
    requires x >= PassAt(c, gap, n) + PassTime(c) && x >= (Ahead(c, gap) + n) * Interval(c.rate) - gap
    ensures x >= PassAt(c, gap, n + 1)
  {
    var i, r := Interval(c.rate), Ahead(c, gap);
    hide Interval, PassTime, Ahead;
    assert (n + 1) * PassTime(c) == n * PassTime(c) + PassTime(c);
    assert (r - 1) * i + (n + 1) * i == (r + n) * i;
  }

  // ---------- no pass is sooner ----------

  predicate Slotted(c: Cfg, gap: nat, s: Cold)
    requires c.rate > 0.0 && Interval(c.rate) > 0
  {
    && s.ticker.start == s.startTime - gap && s.ticker.interval == Interval(c.rate) && s.startTime <= s.now
    && s.ticker.fired >= (if s.passes == 0 then 0 else if s.passes == 1 then 1 else Ahead(c, gap) + s.passes - 2)
    && (s.passes > 0 ==>
          && s.taken - s.startTime >= PassAt(c, gap, s.passes - 1) && s.taken >= s.startTime
          && s.now >= s.taken + PassTime(c)
          && (!s.ended && c.duration > 0 ==> s.taken + PassTime(c) - s.startTime <= c.duration))
    && (s.passes > 1 && c.duration > 0 ==> PassAt(c, gap, s.passes - 2) + PassTime(c) <= c.duration)
  }

  lemma {:induction false} TripsTime(s: Cold, trips: seq<Trip>, k: nat)
    ensures var t := Trips(s, trips, k);
            && t.startTime == s.startTime && t.taken == s.taken && t.ticker == s.ticker && t.passes == s.passes
            && t.ended == s.ended && t.now >= s.now + k * SLEEP && (trips == [] ==> t.now == s.now + k * SLEEP)
  {
    if k > 0 {
      TripsTime(s, trips, k - 1);
    }
  }

  /** The tick of a pass: its number, and what that says of the time. */
  lemma TickNumber(t: Ticker, gap: nat, start: int, taken: int, at: int, passes: nat, q: int)
    requires t.interval >= 1 && t.start == start - gap && Due(t, at) && q == gap / t.interval
    requires passes > 0 ==> start <= taken <= at
    ensures var fired := FireTicker(t, at).fired;
            fired >= t.fired + 1 && (passes > 0 ==> fired >= q) && fired * t.interval - gap <= at - start
  {
    var i := t.interval;
    DuePassed(t, at);
    if passes > 0 {
      assert gap == q * i + gap % i;
      assert at - t.start == ((at - t.start) / i) * i + (at - t.start) % i;
      assert ((at - t.start) / i + 1) * i == ((at - t.start) / i) * i + i;
      Below(q, (at - t.start) / i + 1, i);
    }
  }

  lemma NextSlot(c: Cfg, gap: nat, s: Cold, fired: nat)
    requires c.rate > 0.0 && Interval(c.rate) > 0 && Slotted(c, gap, s)
    requires fired >= s.ticker.fired + 1 && (s.passes > 0 ==> fired >= gap / Interval(c.rate))
    requires fired * Interval(c.rate) - gap <= s.now - s.startTime
    ensures fired >= if s.passes == 0 then 1 else Ahead(c, gap) + s.passes - 1
    ensures s.now - s.startTime >= PassAt(c, gap, s.passes)
  {
    var i := Interval(c.rate);
    hide Interval, PassAt, PassTime;
    if s.passes == 0 {
      PassAtFirst(c, gap);
      ScaleUp(1, fired, i);
    } else {
      ScaleUp(Ahead(c, gap) + (s.passes - 1), fired, i);
      PassAtStep(c, gap, s.passes - 1, s.now - s.startTime);
    }
  }

  lemma TickSlotted(c: Cfg, gap: nat, s: Cold, back: nat, trips: seq<Trip>)
    requires c.rate > 0.0 && Interval(c.rate) > 0 && Slotted(c, gap, s) && !s.ended && CanTake(s, back)
    ensures var t := Trips(Received(s, back), trips, c.targets);
            Slotted(c, gap, if Over(c, t) then t.(cancelled := true, ended := true) else t)
  {
    var r := Received(s, back);
    TripsTime(r, trips, c.targets);
    TickNumber(s.ticker, gap, s.startTime, s.taken, s.now - back, s.passes, gap / Interval(c.rate));
    hide Trips, Interval, Due, PassAt, Ahead;
    NextSlot(c, gap, s, r.ticker.fired);
    hide FireTicker;
  }

  lemma TurnSlotted(c: Cfg, gap: nat, s: Cold, turn: Turn)
    requires c.rate > 0.0 && Interval(c.rate) > 0 && Slotted(c, gap, s) && !s.ended
    ensures Slotted(c, gap, OneTurn(c, s, turn))
  {
    var s1 := s.(now := s.now + turn.wait, cancelled := s.cancelled || turn.stop);
    hide Trips, Interval, PassAt, PassTime, Ahead, Over, CanTake;
    assert Slotted(c, gap, s1);
    if turn.take.Tick? && CanTake(s1, turn.take.back) {
      TickSlotted(c, gap, s1, turn.take.back, turn.take.trips);
    }
  }

  lemma {:induction false} FollowSlotted(c: Cfg, gap: nat, s: Cold, script: seq<Turn>)
    requires c.rate > 0.0 && Interval(c.rate) > 0 && Slotted(c, gap, s)
    ensures Slotted(c, gap, Follow(c, s, script))
    decreases |script|
  {
    hide Slotted, OneTurn;
    if !s.ended && script != [] {
      TurnSlotted(c, gap, s, script[0]);
      FollowSlotted(c, gap, OneTurn(c, s, script[0]), script[1..]);
    }
  }

  // ---------- every number of passes up to it is made ----------

  /** After pass number n + 1, each at its soonest. If a pass takes less than an interval, the ticks
      have been taken one by one. */
  predicate Soonest(c: Cfg, gap: nat, s: Cold, n: nat)
    requires c.rate > 0.0 && Interval(c.rate) > 0
  {
    var i := Interval(c.rate);
    && !s.ended && s.passes == n + 1 && s.ticker.start == s.startTime - gap && s.ticker.interval == i
    && s.taken == s.startTime + PassAt(c, gap, n) && s.now == s.taken + PassTime(c)
    && (if PassTime(c) >= i then s.ticker.start + s.ticker.fired * i <= s.taken
        else s.ticker.fired == if n == 0 then 1 else Ahead(c, gap) + n - 1)
  }

  /** No pass can be sooner than the end of the one before. */
  lemma PassAtGap(c: Cfg, gap: nat, n: nat)
    requires c.rate > 0.0 && Interval(c.rate) > 0
    ensures PassAt(c, gap, n + 1) >= PassAt(c, gap, n) + PassTime(c)
    ensures PassAt(c, gap, n) >= 0
  {
    hide Interval, PassTime, Ahead;
    NextAfter((Ahead(c, gap) - 1) * Interval(c.rate) - gap, Interval(c.rate), PassTime(c), n);
  }

  lemma NextAfter(lead: int, i: int, w: nat, n: nat)
    requires i > 0
    ensures AtLeast(AtLeast(lead, 0) + (n + 1) * w, lead + (n + 1) * i) >= AtLeast(AtLeast(lead, 0) + n * w, lead + n * i) + w
    ensures AtLeast(AtLeast(lead, 0) + n * w, lead + n * i) >= 0
  {
    assert (n + 1) * w == n * w + w && (n + 1) * i == n * i + i;
    ScaleUp(0, n, w);
    if w >= i {
      Widens(n, i, w);
    }
  }

  lemma Widens(n: nat, i: int, w: int)
    requires i <= w
    ensures n * i <= n * w
  {
    assert n * (w - i) >= 0;
  }

  lemma Gaps(gap: nat, i: int, r: int)
    requires i > 0 && r >= gap / i
    ensures gap < (r - 1) * i + 2 * i
  {
    var q := gap / i;
    assert gap == q * i + gap % i;
    assert (q + 1) * i == q * i + i && (r + 1) * i == (r - 1) * i + 2 * i;
    ScaleUp(q + 1, r + 1, i);
  }

  lemma Within(a: int, gap: nat, x: int, y: int, i: int)
    requires x <= y && 0 <= y && i > 0 && gap < a + 2 * i
    ensures AtLeast(AtLeast(a - gap, 0) + x, a - gap + y) < a + y + 2 * i - gap
  {
  }

  /** While passes take less than an interval none is later than two intervals after its tick. */
  lemma PassAtCell(c: Cfg, gap: nat, n: nat)
    requires c.rate > 0.0 && Interval(c.rate) > 0 && PassTime(c) < Interval(c.rate)
    ensures PassAt(c, gap, n) < (Ahead(c, gap) + n + 1) * Interval(c.rate) - gap
  {
    hide Interval, PassTime;
    InCell(gap, Interval(c.rate), PassTime(c), Ahead(c, gap), n);
  }

  lemma InCell(gap: nat, i: int, w: nat, r: int, n: nat)
    requires w < i && r >= gap / i
    ensures AtLeast(AtLeast((r - 1) * i - gap, 0) + n * w, (r - 1) * i - gap + n * i) < (r + n + 1) * i - gap
  {
    Gaps(gap, i, r);
    hide AtLeast;
    assert (r + n + 1) * i == (r - 1) * i + n * i + 2 * i;
    Widens(n, w, i);
    ScaleUp(0, n, i);
    Within((r - 1) * i, gap, n * w, n * i, i);
  }

  /** The turn that takes a tick which fired at `fire`. */
  function TakeAt(s: Cold, at: int, fire: int): Turn
    requires s.now <= at && fire <= at
  {
    Turn(at - s.now, false, Tick(at - fire, []))
  }

  lemma TakenAt(c: Cfg, s: Cold, at: int, fire: int)
    requires !s.ended && s.now <= at && s.taken <= fire <= at && Due(s.ticker, fire)
    ensures var t := OneTurn(c, s, TakeAt(s, at, fire));
            && t.passes == s.passes + 1 && t.taken == at && t.now == at + PassTime(c) && t.startTime == s.startTime
            && t.ticker.start == s.ticker.start && t.ticker.interval == s.ticker.interval
            && t.ticker.fired == FireTicker(s.ticker, fire).fired
            && t.ended == (c.duration > 0 && at + PassTime(c) - s.startTime > c.duration)
  {
    var s1 := s.(now := at);
    assert s1.(cancelled := s1.cancelled || false) == s1;
    TripsTime(Received(s1, at - fire), [], c.targets);
    hide Trips, Due, FireTicker;
  }

  /** When the tick of the next pass fires. */
  function FireTime(c: Cfg, gap: nat, s: Cold, at: int, n: nat): int
    requires c.rate > 0.0 && Interval(c.rate) > 0
  {
    if PassTime(c) >= Interval(c.rate) then at
    else AtLeast(s.taken, s.ticker.start + (Ahead(c, gap) + n) * Interval(c.rate))
  }

  /** A tick that fires at the end of a long pass is due. */
  lemma LongPass(t: Ticker, taken: int, at: int)
    requires t.interval >= 1 && t.start + t.fired * t.interval <= taken && taken + t.interval <= at
    ensures Due(t, at)
  {
    assert (t.fired + 1) * t.interval == t.fired * t.interval + t.interval;
  }

  /** One that fires before the next is due has its own number. */
  lemma ShortPass(t: Ticker, fire: int, n: nat)
    requires t.interval >= 1 && t.fired + 1 <= n
    requires t.start + n * t.interval <= fire < t.start + (n + 1) * t.interval
    ensures Due(t, fire) && FireTicker(t, fire).fired == n
  {
    ScaleUp(t.fired + 1, n, t.interval);
    Quotient(fire - t.start, t.interval, n);
  }

  lemma ShortFits(t: Ticker, start: int, gap: int, y: int, taken: int, fire: int, at: int)
    requires t.interval >= 1 && t.start == start - gap && t.fired + 1 <= y
    requires fire == AtLeast(taken, t.start + y * t.interval)
    requires taken - start < (y + 1) * t.interval - gap && y * t.interval - gap <= at - start && taken <= at
    ensures taken <= fire <= at && Due(t, fire) && FireTicker(t, fire).fired == y
  {
    ShortPass(t, fire, y);
  }

  lemma FireTimeFits(c: Cfg, gap: nat, s: Cold, n: nat)
    requires c.rate > 0.0 && Interval(c.rate) > 0 && Soonest(c, gap, s, n)
    ensures var at := s.startTime + PassAt(c, gap, n + 1);
            var fire := FireTime(c, gap, s, at, n);
            && s.taken <= fire <= at && Due(s.ticker, fire)
            && (PassTime(c) < Interval(c.rate) ==> FireTicker(s.ticker, fire).fired == Ahead(c, gap) + n)
  {
    var at := s.startTime + PassAt(c, gap, n + 1);
    PassAtGap(c, gap, n);
    if PassTime(c) < Interval(c.rate) {
      PassAtCell(c, gap, n);
      TickBefore(c, gap, n);
      var y := Ahead(c, gap) + n;
      assert s.ticker.fired + 1 <= y;
      hide Interval, PassTime, PassAt, Due, FireTicker, Ahead, AtLeast;
      ShortFits(s.ticker, s.startTime, gap, y, s.taken, FireTime(c, gap, s, at, n), at);
    } else {
      hide Interval, PassTime, Ahead, PassAt, Due, FireTicker;
      LongPass(s.ticker, s.taken, at);
    }
  }

  lemma TickBefore(c: Cfg, gap: nat, n: nat)
    requires c.rate > 0.0 && Interval(c.rate) > 0
    ensures (Ahead(c, gap) + n) * Interval(c.rate) - gap <= PassAt(c, gap, n + 1)
  {
    var i, r := Interval(c.rate), Ahead(c, gap);
    hide Interval, PassTime, Ahead;
    assert (r - 1) * i + (n + 1) * i == (r + n) * i;
  }

  lemma NextPass(c: Cfg, gap: nat, s: Cold, n: nat) returns (turn: Turn)
    requires c.rate > 0.0 && Interval(c.rate) > 0 && c.duration > 0 && Soonest(c, gap, s, n)
    ensures var t := OneTurn(c, s, turn);
            t.passes == n + 2 && (PassAt(c, gap, n + 1) + PassTime(c) <= c.duration ==> Soonest(c, gap, t, n + 1))
  {
    var at := s.startTime + PassAt(c, gap, n + 1);
    var fire := FireTime(c, gap, s, at, n);
    PassAtGap(c, gap, n);
    FireTimeFits(c, gap, s, n);
    TakenAt(c, s, at, fire);
    turn := TakeAt(s, at, fire);
    hide Interval, PassAt, PassTime, Ahead, Due, OneTurn, TakeAt;
  }

  lemma FirstPass(c: Cfg, now: int, gap: nat) returns (turn: Turn)
    requires c.rate > 0.0 && Interval(c.rate) > 0 && c.duration > 0 && PassAt(c, gap, 0) + PassTime(c) <= c.duration
    ensures Soonest(c, gap, OneTurn(c, Begun(c, now, gap), turn), 0)
  {
    var i := Interval(c.rate);
    var s := Begun(c, now, gap);
    PassAtFirst(c, gap);
    var at := s.startTime + PassAt(c, gap, 0);
    var fire := if PassTime(c) >= i then at else s.ticker.start + i;
    hide Interval, PassAt, PassTime, Ahead;
    assert (0 + 1) * i == i && 1 * i == i;
    if PassTime(c) < i {
      Quotient(i, i, 1);
    }
    TakenAt(c, s, at, fire);
    turn := TakeAt(s, at, fire);
    hide OneTurn, TakeAt, Due;
  }

  lemma {:induction false} FollowMore(c: Cfg, s: Cold, script: seq<Turn>, turn: Turn)
    ensures var t := Follow(c, s, script);
            Follow(c, s, script + [turn]) == if t.ended then t else OneTurn(c, t, turn)
    decreases |script|
  {
    hide OneTurn;
    if script == [] {
      assert script + [turn] == [turn] && [turn][1..] == [];
    } else if !s.ended {
      assert (script + [turn])[1..] == script[1..] + [turn];
      FollowMore(c, OneTurn(c, s, script[0]), script[1..], turn);
    }
  }

  lemma {:induction false} Passes(c: Cfg, now: int, gap: nat, n: nat) returns (script: seq<Turn>)
    requires c.rate > 0.0 && Interval(c.rate) > 0 && c.duration > 0 && PassAt(c, gap, n) + PassTime(c) <= c.duration
    ensures Soonest(c, gap, Follow(c, Begun(c, now, gap), script), n)
    decreases n
  {
    var turn;
    if n == 0 {
      script := [];
      turn := FirstPass(c, now, gap);
    } else {
      PassAtGap(c, gap, n - 1);
      script := Passes(c, now, gap, n - 1);
      turn := NextPass(c, gap, Follow(c, Begun(c, now, gap), script), n - 1);
    }
    hide PassAt, PassTime, Interval, OneTurn;
    FollowMore(c, Begun(c, now, gap), script, turn);
    script := script + [turn];
  }

  /** Some script makes more than n passes. */
  ghost predicate Exceeds(c: Cfg, now: int, gap: nat, n: nat)
    requires c.rate > 0.0
  {
    exists script :: Follow(c, Begun(c, now, gap), script).passes > n
  }

  /** The exact maximum: there is a pass number n + 2 in some run if and only if number n + 1, at its
      soonest, ends by the deadline. */
  lemma PassesExact(c: Cfg, now: int, gap: nat, n: nat)
    requires c.rate > 0.0 && Interval(c.rate) > 0 && c.duration > 0
    ensures Exceeds(c, now, gap, n + 1) <==> PassAt(c, gap, n) + PassTime(c) <= c.duration
  {
    var s0 := Begun(c, now, gap);
    if PassAt(c, gap, n) + PassTime(c) <= c.duration {
      var script := Passes(c, now, gap, n);
      var turn := NextPass(c, gap, Follow(c, s0, script), n);
      hide PassAt, PassTime, Interval, OneTurn, Begun, Ahead;
      FollowMore(c, s0, script, turn);
      assert Follow(c, s0, script + [turn]).passes > n + 1;
    } else {
      assert Slotted(c, gap, s0);
      hide PassTime, Interval, Follow, Begun;
      forall script ensures Follow(c, s0, script).passes <= n + 1 {
        FollowSlotted(c, gap, s0, script);
        var s := Follow(c, s0, script);
        if s.passes > n + 1 {
          PassAtOrder(c, gap, n, s.passes - 2);
        }
      }
    }
  }

  lemma {:induction false} PassAtOrder(c: Cfg, gap: nat, m: nat, n: nat)
    requires c.rate > 0.0 && Interval(c.rate) > 0 && m <= n
    ensures PassAt(c, gap, m) <= PassAt(c, gap, n)
    decreases n
  {
    hide PassAt, Interval;
    if m < n {
      PassAtOrder(c, gap, m, n - 1);
      PassAtGap(c, gap, n - 1);
    }
  }
}
