/** Cold-start mode: one request after the other, seven seconds of sleep after each. The method
    follows the source's loops; a script says how long everything outside it takes. */
module ColdStart {
  import opened Machine

  const SLEEP: int := 7_000_000_000

  /** One request: how long it takes, how it ends, and how much longer than asked the sleep lasts.
      Good: a body was read; Bad: the request failed; Other: reading the body failed. */
  datatype Trip = Trip(time: nat, answer: Answer, oversleep: nat)

  /** What select takes: the Done channel, or a tick that fired `back` nanoseconds ago. */
  datatype Take = Done | Tick(back: nat, trips: seq<Trip>)

  /** How long select waits, whether Stop is called meanwhile, and what it then takes; when that is
      not ready it goes on waiting. */
  datatype Turn = Turn(wait: nat, stop: bool, take: Take)

  /** One request, and how it ended. */
  datatype Span = Span(target: nat, start: int, end: int, answer: Answer)

  /** `taken` is when the last tick was received, and at first when the ticker was started. */
  datatype Cold = Cold(
    now: int, startTime: int, taken: int, ticker: Ticker, cancelled: bool, ended: bool,
    passes: nat, spans: seq<Span>, calls: seq<nat>, log: seq<Message>)

  /** The records of one sequential request: sendRequest's, then the caller's complaint. */
  function Records(answer: Answer): seq<Message> {
    match answer
    case Good => [SuccessLine]
    case Bad => [ErrorLine, ComplaintLine]
    case Other => [BodyErrorLine, ComplaintLine]
  }

  function TripAt(trips: seq<Trip>, k: nat): Trip { if k < |trips| then trips[k] else Trip(0, Good, 0) }

  function Sent(s: Cold, target: nat, trip: Trip): Cold {
    s.(now := s.now + trip.time,
       spans := s.spans + [Span(target, s.now, s.now + trip.time, trip.answer)],
       calls := if target < |s.calls| then s.calls[target := s.calls[target] + 1] else s.calls,
       log := s.log + Records(trip.answer))
  }

  function OneTrip(s: Cold, target: nat, trip: Trip): Cold {
    var sent := Sent(s, target, trip);
    sent.(now := sent.now + SLEEP + trip.oversleep)
  }

  /** The first k requests of a pass. */
  function Trips(s: Cold, trips: seq<Trip>, k: nat): Cold {
    if k == 0 then s else OneTrip(Trips(s, trips, k - 1), k - 1, TripAt(trips, k - 1))
  }

  /** A tick fires into an empty channel, so not before the one before it was received. */
  predicate CanTake(s: Cold, back: nat) { Due(s.ticker, s.now - back) && s.taken <= s.now - back }

  function Received(s: Cold, back: nat): Cold
    requires Due(s.ticker, s.now - back)
  {
    s.(taken := s.now, ticker := FireTicker(s.ticker, s.now - back).(full := false, received := s.ticker.received + 1), passes := s.passes + 1)
  }

  predicate Over(c: Cfg, s: Cold) { c.duration > 0 && s.now - s.startTime > c.duration }

  function OneTurn(c: Cfg, s: Cold, turn: Turn): Cold {
    var s1 := s.(now := s.now + turn.wait, cancelled := s.cancelled || turn.stop);
    match turn.take
    case Done => if s1.cancelled then s1.(ended := true) else s1
    case Tick(back, trips) =>
      if !CanTake(s1, back) then s1
      else
        var s2 := Trips(Received(s1, back), trips, c.targets);
        if Over(c, s2) then s2.(cancelled := true, ended := true) else s2
  }

  function Follow(c: Cfg, s: Cold, script: seq<Turn>): Cold
    decreases |script|
  {
    if s.ended || script == [] then s else Follow(c, OneTurn(c, s, script[0]), script[1..])
  }

  function Begun(c: Cfg, now: int, gap: nat): Cold
    requires c.rate > 0.0
  {
    Cold(now + gap, now + gap, now, NewTicker(now, Interval(c.rate)), false, false, 0, [], seq(c.targets, _ => 0), [])
  }

  // ---------- the generator ----------

  class ColdGenerator {
    const c: Cfg
    var now: int
    var cancelled: bool
    var calls: seq<nat>
    var log: seq<Message>
    var passes: nat
    var spans: seq<Span>

    constructor (c: Cfg, now: int)
      ensures this.c == c && this.now == now && !cancelled
      ensures calls == seq(c.targets, _ => 0) && log == [] && passes == 0 && spans == []
    {
      this.c := c;
      this.now := now;
      cancelled := false;
      calls := seq(c.targets, _ => 0);
      log, passes, spans := [], 0, [];
    }

    function View(startTime: int, taken: int, ticker: Ticker, ended: bool): Cold
      reads this
    {
      Cold(now, startTime, taken, ticker, cancelled, ended, passes, spans, calls, log)
    }

    method SendRequest(target: nat, trip: Trip)
      modifies this
      ensures forall startTime, taken, ticker, ended ::
                View(startTime, taken, ticker, ended) == Sent(old(View(startTime, taken, ticker, ended)), target, trip)
    {
      spans := spans + [Span(target, now, now + trip.time, trip.answer)];
      if target < |calls| {
        calls := calls[target := calls[target] + 1];
      }
      now := now + trip.time;
      match trip.answer {
        case Good => log := log + [SuccessLine];
        case Bad =>
          log := log + [ErrorLine];
          log := log + [ComplaintLine];
        case Other =>
          log := log + [BodyErrorLine];
          log := log + [ComplaintLine];
      }
      assert log == old(log) + Records(trip.answer);
    }

    /** One tick's requests: one target after the other, with a sleep after each. */
    method RunPass(trips: seq<Trip>, ghost startTime: int, ghost taken: int, ghost ticker: Ticker)
      modifies this
      ensures View(startTime, taken, ticker, false) == Trips(old(View(startTime, taken, ticker, false)), trips, c.targets)
    {
      for k := 0 to c.targets
        invariant View(startTime, taken, ticker, false) == Trips(old(View(startTime, taken, ticker, false)), trips, k)
      {
        SendRequest(k, TripAt(trips, k));
        now := now + SLEEP + TripAt(trips, k).oversleep;
      }
    }

    /** The select statement and what follows it. */
    method Select(turn: Turn, startTime: int, taken: int, ticker: Ticker)
        returns (ended: bool, last: int, after: Ticker)
      modifies this
      ensures View(startTime, last, after, ended) == OneTurn(c, old(View(startTime, taken, ticker, false)), turn)
    {
      hide Trips, FireTicker;
      last, after, ended := taken, ticker, false;
      now := now + turn.wait;
      cancelled := cancelled || turn.stop;
      match turn.take {
        case Done => ended := cancelled;
        case Tick(back, trips) =>
          if Due(ticker, now - back) && taken <= now - back {
            after := FireTicker(ticker, now - back).(full := false, received := ticker.received + 1);
            last := now;
            passes := passes + 1;
            RunPass(trips, startTime, last, after);
            if c.duration > 0 && now - startTime > c.duration {
              cancelled := true;
              ended := true;
            }
          }
      }
    }

    method RunColdStart(gap: nat, script: seq<Turn>) returns (ended: bool, startTime: int, taken: int, ticker: Ticker)
      requires c.rate > 0.0 && !cancelled && passes == 0 && spans == [] && log == [] && calls == seq(c.targets, _ => 0)
      modifies this
      ensures View(startTime, taken, ticker, ended) == Follow(c, Begun(c, old(now), gap), script)
    {
      ghost var begun := Begun(c, now, gap);
      ticker := NewTicker(now, Interval(c.rate));
      taken := now;
      now := now + gap;
      startTime := now;
      ended := false;
      assert View(startTime, taken, ticker, ended) == begun;
      hide Begun, OneTurn, Interval;
      var i := 0;
      while i < |script| && !ended
        invariant 0 <= i <= |script|
        invariant Follow(c, View(startTime, taken, ticker, ended), script[i..]) == Follow(c, begun, script)
      {
        assert script[i..][0] == script[i] && script[i..][1..] == script[i + 1..];
        ended, taken, ticker := Select(script[i], startTime, taken, ticker);
        i := i + 1;
      }
    }
  }

  // ---------- pacing ----------

  /** Requests to the targets in rotation, each beginning seven seconds or more after the end of the
      one before. */
  predicate Sequential(s: Cold, n: nat) {
    && (forall k | 0 <= k < |s.spans| :: Settled(s.spans[k], s.now, n))
    && (forall k | 0 <= k < |s.spans| - 1 :: Follows(s.spans[k], s.spans[k + 1], n))
  }

  predicate Settled(p: Span, now: int, n: nat) { p.start <= p.end && p.end + SLEEP <= now && p.target < n }

  predicate Follows(p: Span, q: Span, n: nat) {
    p.end + SLEEP <= q.start && q.target == if p.target + 1 == n then 0 else p.target + 1
  }

  /** After k requests of a pass that began at `start`. */
  predicate Midway(s: Cold, t: Cold, n: nat, k: nat) {
    && Sequential(t, n) && |t.spans| == |s.spans| + k && s.spans <= t.spans
    && t.now >= s.now + k * SLEEP && t.startTime == s.startTime && t.taken == s.taken && t.ticker == s.ticker
    && t.passes == s.passes && t.ended == s.ended
    && (if k > 0 then t.spans[|s.spans|].start == s.now && t.spans[|t.spans| - 1].target == k - 1 else t == s)
    && |t.calls| == |s.calls|
    && (forall j | 0 <= j < |s.calls| :: t.calls[j] == s.calls[j] + if j < k then 1 else 0)
  }

  lemma TripKeeps(s: Cold, t: Cold, n: nat, k: nat, trip: Trip)
    requires Midway(s, t, n, k) && k < n == |s.calls| && (s.spans != [] ==> s.spans[|s.spans| - 1].target == n - 1)
    ensures Midway(s, OneTrip(t, k, trip), n, k + 1)
  {
    var u := OneTrip(t, k, trip);
    assert u.spans == t.spans + [Span(k, t.now, t.now + trip.time, trip.answer)];
    if t.spans != [] {
      assert Settled(t.spans[|t.spans| - 1], t.now, n);
    }
    forall j | 0 <= j < |u.spans| ensures Settled(u.spans[j], u.now, n) {
      if j < |t.spans| {
        assert Settled(t.spans[j], t.now, n);
      }
    }
    hide Settled;
  }

  lemma {:induction false} TripsKeep(s: Cold, trips: seq<Trip>, n: nat, k: nat)
    requires Sequential(s, n) && k <= n == |s.calls| && (s.spans != [] ==> s.spans[|s.spans| - 1].target == n - 1)
    ensures Midway(s, Trips(s, trips, k), n, k)
  {
    if k > 0 {
      TripsKeep(s, trips, n, k - 1);
      hide Midway, OneTrip, TripAt;
      TripKeeps(s, Trips(s, trips, k - 1), n, k - 1, TripAt(trips, k - 1));
    }
  }

  /** n requests and their sleeps, k times. */
  function Sleeps(n: nat, k: nat): (t: nat) { k * (n * SLEEP) }

  lemma SleepsStep(n: nat, k: nat)
    ensures Sleeps(n, k + 1) == Sleeps(n, k) + n * SLEEP && Sleeps(n, 0) == 0
  {
  }

  /** What every turn keeps: the schedule, and each target's share. */
  predicate Paced(c: Cfg, s: Cold) {
    && Sequential(s, c.targets) && (s.spans != [] ==> s.spans[|s.spans| - 1].target == c.targets - 1)
    && |s.calls| == c.targets && (forall t | 0 <= t < c.targets :: s.calls[t] == s.passes)
    && s.startTime <= s.now && (s.spans != [] <==> c.targets > 0 && s.passes > 0)
  }

  /** The time from the start to the first request. */
  function First(s: Cold): int
    requires s.spans != []
  {
    s.spans[0].start - s.startTime
  }

  /** No pass follows one that ended after the deadline. */
  predicate InTime(c: Cfg, s: Cold) {
    s.spans != [] ==>
      && First(s) >= 0 && s.spans[0].start >= s.ticker.start + s.ticker.interval
      && s.now - s.startTime >= First(s) + Sleeps(c.targets, s.passes)
      && (c.duration > 0 && !s.ended && s.passes > 0 ==> First(s) + Sleeps(c.targets, s.passes) <= c.duration)
      && (c.duration > 0 && s.ended && s.passes > 1 ==> First(s) + Sleeps(c.targets, s.passes - 1) <= c.duration)
  }

  lemma PassPaced(c: Cfg, s: Cold, r: Cold, t: Cold)
    requires Paced(c, s) && r == s.(taken := r.taken, ticker := r.ticker, passes := s.passes + 1) && Midway(r, t, c.targets, c.targets)
    ensures Paced(c, t) && t.now >= s.now + c.targets * SLEEP
  {
    hide Sequential;
  }

  lemma PassInTime(c: Cfg, s: Cold, r: Cold, t: Cold)
    requires Paced(c, s) && InTime(c, s) && Midway(r, t, c.targets, c.targets) && t.now >= s.now + c.targets * SLEEP
    requires r == s.(taken := r.taken, ticker := r.ticker, passes := s.passes + 1) && !s.ended
    requires r.ticker.start == s.ticker.start && r.ticker.interval == s.ticker.interval
    requires s.now >= s.ticker.start + s.ticker.interval
    ensures InTime(c, if Over(c, t) then t.(cancelled := true, ended := true) else t)
  {
    SleepsStep(c.targets, s.passes);
    hide Sequential, Sleeps;
    if s.spans != [] {
      assert t.spans[0] == s.spans[0];
    }
  }

  lemma FirstDue(s: Cold, back: nat)
    requires Due(s.ticker, s.now - back)
    ensures s.now >= s.ticker.start + s.ticker.interval
    ensures var r := Received(s, back);
            && r == s.(taken := r.taken, ticker := r.ticker, passes := s.passes + 1)
            && r.ticker.start == s.ticker.start && r.ticker.interval == s.ticker.interval
  {
    assert s.ticker.fired * s.ticker.interval >= 0;
    assert (s.ticker.fired + 1) * s.ticker.interval == s.ticker.fired * s.ticker.interval + s.ticker.interval;
  }

  lemma PassKeeps(c: Cfg, s: Cold, back: nat, trips: seq<Trip>)
    requires Paced(c, s) && InTime(c, s) && !s.ended && Due(s.ticker, s.now - back)
    ensures var t := Trips(Received(s, back), trips, c.targets);
            var e := if Over(c, t) then t.(cancelled := true, ended := true) else t;
            Paced(c, e) && InTime(c, e)
  {
    var r := Received(s, back);
    FirstDue(s, back);
    hide Trips, Received, InTime;
    TripsKeep(r, trips, c.targets, c.targets);
    PassPaced(c, s, r, Trips(r, trips, c.targets));
    PassInTime(c, s, r, Trips(r, trips, c.targets));
    hide Midway;
  }

  lemma {:induction false} TripsFrame(s: Cold, trips: seq<Trip>, k: nat)
    ensures Trips(s, trips, k).ticker == s.ticker && Trips(s, trips, k).startTime == s.startTime
  {
    if k > 0 {
      TripsFrame(s, trips, k - 1);
    }
  }

  predicate SameClock(s: Cold, t: Cold) {
    t.ticker.start == s.ticker.start && t.ticker.interval == s.ticker.interval && t.startTime == s.startTime
  }

  lemma TickTurn(c: Cfg, s: Cold, back: nat, trips: seq<Trip>)
    requires Paced(c, s) && InTime(c, s) && !s.ended && CanTake(s, back)
    ensures var e := OneTurn(c, s, Turn(0, false, Tick(back, trips)));
            Paced(c, e) && InTime(c, e) && SameClock(s, e)
  {
    PassKeeps(c, s, back, trips);
    TripsFrame(Received(s, back), trips, c.targets);
    hide Paced, InTime, Trips, Over;
  }

  /** A turn is its wait, and then what select takes. */
  lemma TurnAfter(c: Cfg, s: Cold, turn: Turn)
    ensures var later := s.(now := s.now + turn.wait, cancelled := s.cancelled || turn.stop);
            OneTurn(c, s, turn) ==
            if turn.take.Tick? && CanTake(later, turn.take.back) then OneTurn(c, later, Turn(0, false, turn.take))
            else if turn.take == Done && later.cancelled then later.(ended := true) else later
  {
    var later := s.(now := s.now + turn.wait, cancelled := s.cancelled || turn.stop);
    assert later.(now := later.now + 0, cancelled := later.cancelled || false) == later;
    hide Trips, Over, CanTake, Received;
  }

  lemma TurnKeeps(c: Cfg, s: Cold, turn: Turn)
    requires Paced(c, s) && InTime(c, s) && !s.ended
    ensures Paced(c, OneTurn(c, s, turn)) && InTime(c, OneTurn(c, s, turn)) && SameClock(s, OneTurn(c, s, turn))
  {
    var later := s.(now := s.now + turn.wait, cancelled := s.cancelled || turn.stop);
    TurnAfter(c, s, turn);
    Waits(c, s, later);
    hide Paced, InTime, OneTurn, CanTake;
    if turn.take.Tick? && CanTake(later, turn.take.back) {
      TickTurn(c, later, turn.take.back, turn.take.trips);
    } else {
      StopsInTime(c, later);
    }
  }

  lemma Waits(c: Cfg, s: Cold, later: Cold)
    requires Paced(c, s) && InTime(c, s) && s.now <= later.now && later == s.(now := later.now, cancelled := later.cancelled)
    ensures Paced(c, later) && InTime(c, later)
  {
    hide Sleeps;
  }

  lemma StopsInTime(c: Cfg, s: Cold)
    requires Paced(c, s) && InTime(c, s) && !s.ended
    ensures Paced(c, s.(ended := true)) && InTime(c, s.(ended := true))
  {
    if s.passes > 0 {
      SleepsStep(c.targets, s.passes - 1);
    }
    hide Sleeps;
  }

  lemma {:induction false} FollowKeeps(c: Cfg, s: Cold, script: seq<Turn>)
    requires Paced(c, s) && InTime(c, s)
    ensures var t := Follow(c, s, script);
            Paced(c, t) && InTime(c, t) && SameClock(s, t)
    decreases |script|
  {
    hide Paced, InTime, OneTurn;
    if !s.ended && script != [] {
      TurnKeeps(c, s, script[0]);
      FollowKeeps(c, OneTurn(c, s, script[0]), script[1..]);
    }
  }

  /** Cold-start pacing, for every script: at most one request is under way, requests go to the
      targets in rotation and begin at least seven seconds apart; every target has had one request a
      pass. */
  lemma ColdPacing(c: Cfg, now: int, gap: nat, script: seq<Turn>)
    requires c.rate > 0.0
    ensures var s := Follow(c, Begun(c, now, gap), script);
            && (forall k | 0 <= k < |s.spans| :: s.spans[k].start <= s.spans[k].end)
            && (forall k | 0 <= k < |s.spans| - 1 :: Follows(s.spans[k], s.spans[k + 1], c.targets))
            && (forall t | 0 <= t < |s.calls| :: s.calls[t] == s.passes)
  {
    FollowKeeps(c, Begun(c, now, gap), script);
    var s := Follow(c, Begun(c, now, gap), script);
    hide Follow, Begun, InTime, Follows;
    assert forall k | 0 <= k < |s.spans| :: Settled(s.spans[k], s.now, c.targets);
  }

  /** The number of passes: with a deadline D and the first request at F after the start, at most
      one pass more than seven seconds a request fit between F and D; and F is no less than the
      ticker's interval less what the ticker was ahead. */
  lemma ColdPasses(c: Cfg, now: int, gap: nat, script: seq<Turn>)
    requires c.rate > 0.0 && c.duration > 0 && c.targets > 0
    ensures var s := Follow(c, Begun(c, now, gap), script);
            s.passes > 0 ==>
              && s.spans != [] && First(s) >= 0 && First(s) + gap >= Interval(c.rate)
              && s.passes <= 1 + (if First(s) <= c.duration then (c.duration - First(s)) / (7 * c.targets * NANOS) else 0)
  {
    FollowKeeps(c, Begun(c, now, gap), script);
    var s := Follow(c, Begun(c, now, gap), script);
    hide Follow, Sequential, Interval;
    if s.passes > 0 {
      SleepsStep(c.targets, s.passes - 1);
      PassesFit(c.targets, s.passes - 1, c.duration - First(s));
    }
  }

  lemma PassesFit(n: nat, k: nat, d: int)
    requires n > 0
    ensures Sleeps(n, k) <= d ==> k <= d / (7 * n * NANOS)
    ensures d >= 0 ==> d / (7 * n * NANOS) >= 0
  {
    var x := 7 * n * NANOS;
    assert n * SLEEP == x;
    Fits(k, x, d);
  }

  lemma Fits(k: nat, x: nat, d: int)
    requires x > 0
    ensures k * x <= d ==> k <= d / x
    ensures d >= 0 ==> d / x >= 0
  {
    var q := d / x;
    assert d == q * x + d % x;
    if k * x <= d {
      Below(k, q + 1, x);
    }
    if d >= 0 {
      Below(0, q + 1, x);
    }
  }

  // ---------- the log ----------

  /** Of each request whose body was read its success; of each other one its error and a complaint. */
  function LogOf(spans: seq<Span>): seq<Message> {
    if spans == [] then []
    else
      var answer := spans[|spans| - 1].answer;
      LogOf(spans[..|spans| - 1])
      + if answer == Good then [SuccessLine] else [if answer == Bad then ErrorLine else BodyErrorLine, ComplaintLine]
  }

  lemma LogOfMore(spans: seq<Span>, p: Span)
    ensures LogOf(spans + [p]) == LogOf(spans)
            + if p.answer == Good then [SuccessLine] else [if p.answer == Bad then ErrorLine else BodyErrorLine, ComplaintLine]
  {
    assert (spans + [p])[..|spans|] == spans;
  }

  lemma TripLogged(s: Cold, target: nat, trip: Trip)
    requires s.log == LogOf(s.spans)
    ensures OneTrip(s, target, trip).log == LogOf(OneTrip(s, target, trip).spans)
  {
    LogOfMore(s.spans, Span(target, s.now, s.now + trip.time, trip.answer));
    hide LogOf;
  }

  lemma {:induction false} TripsLogged(s: Cold, trips: seq<Trip>, k: nat)
    requires s.log == LogOf(s.spans)
    ensures Trips(s, trips, k).log == LogOf(Trips(s, trips, k).spans)
  {
    hide OneTrip, LogOf, TripAt;
    if k > 0 {
      TripsLogged(s, trips, k - 1);
      TripLogged(Trips(s, trips, k - 1), k - 1, TripAt(trips, k - 1));
    }
  }

  lemma TurnLogged(c: Cfg, s: Cold, turn: Turn)
    requires s.log == LogOf(s.spans)
    ensures OneTurn(c, s, turn).log == LogOf(OneTurn(c, s, turn).spans)
  {
    var s1 := s.(now := s.now + turn.wait, cancelled := s.cancelled || turn.stop);
    hide Trips, LogOf, Due;
    if turn.take.Tick? && CanTake(s1, turn.take.back) {
      TripsLogged(Received(s1, turn.take.back), turn.take.trips, c.targets);
    }
  }

  lemma {:induction false} FollowLogged(c: Cfg, s: Cold, script: seq<Turn>)
    requires s.log == LogOf(s.spans)
    ensures Follow(c, s, script).log == LogOf(Follow(c, s, script).spans)
    decreases |script|
  {
    hide OneTurn, LogOf;
    if !s.ended && script != [] {
      TurnLogged(c, s, script[0]);
      FollowLogged(c, OneTurn(c, s, script[0]), script[1..]);
    }
  }

  /** The log of the loop is that of its requests, one after the other. */
  lemma ColdLog(c: Cfg, now: int, gap: nat, script: seq<Turn>)
    requires c.rate > 0.0
    ensures var s := Follow(c, Begun(c, now, gap), script); s.log == LogOf(s.spans)
  {
    hide Follow, Interval;
    FollowLogged(c, Begun(c, now, gap), script);
  }

  function Told(log: seq<Message>, m: Message): nat {
    if log == [] then 0 else Told(log[..|log| - 1], m) + if log[|log| - 1] == m then 1 else 0
  }

  function Ended(spans: seq<Span>, answer: Answer): nat {
    if spans == [] then 0 else Ended(spans[..|spans| - 1], answer) + if spans[|spans| - 1].answer == answer then 1 else 0
  }

  lemma {:induction false} ToldMore(x: seq<Message>, y: seq<Message>, m: Message)
    ensures Told(x + y, m) == Told(x, m) + Told(y, m)
    decreases |y|
  {
    if y == [] {
      assert x + y == x;
    } else {
      assert (x + y)[..|x + y| - 1] == x + y[..|y| - 1];
      ToldMore(x, y[..|y| - 1], m);
    }
  }

  lemma TwoTold(a: Message, b: Message, m: Message)
    ensures Told([a], m) == if a == m then 1 else 0
    ensures Told([a, b], m) == (if a == m then 1 else 0) + if b == m then 1 else 0
  {
    assert [a, b][..1] == [a] && [a][..0] == [];
  }

  /** So many successes, errors and complaints as requests ended so. */
  lemma {:induction false} LogCounts(spans: seq<Span>)
    ensures Told(LogOf(spans), SuccessLine) == Ended(spans, Good)
    ensures Told(LogOf(spans), ErrorLine) == Ended(spans, Bad) && Told(LogOf(spans), BodyErrorLine) == Ended(spans, Other)
    ensures Told(LogOf(spans), ComplaintLine) == Ended(spans, Bad) + Ended(spans, Other)
  {
    if spans != [] {
      var n := |spans| - 1;
      LogCounts(spans[..n]);
      var answer := spans[n].answer;
      var lines := if answer == Good then [SuccessLine] else [if answer == Bad then ErrorLine else BodyErrorLine, ComplaintLine];
      assert LogOf(spans) == LogOf(spans[..n]) + lines;
      hide LogOf;
      forall m ensures Told(lines, m) == (if lines[0] == m then 1 else 0) + if answer != Good && m == ComplaintLine then 1 else 0 {
        TwoTold(lines[0], ComplaintLine, m);
      }
      forall m ensures Told(LogOf(spans), m) == Told(LogOf(spans[..n]), m) + Told(lines, m) {
        ToldMore(LogOf(spans[..n]), lines, m);
      }
      hide Told;
    }
  }

  // ---------- how the loop ends ----------

  lemma {:induction false} TripsGoOn(s: Cold, trips: seq<Trip>, k: nat)
    ensures Trips(s, trips, k).ended == s.ended && Trips(s, trips, k).cancelled == s.cancelled
  {
    if k > 0 {
      TripsGoOn(s, trips, k - 1);
    }
  }

  lemma TurnEnds(c: Cfg, s: Cold, turn: Turn)
    requires !s.ended
    ensures var t := OneTurn(c, s, turn);
            && (t.ended ==> t.cancelled)
            && (t.cancelled ==> s.cancelled || turn.stop || (c.duration > 0 && t.now - t.startTime > c.duration))
  {
    var s1 := s.(now := s.now + turn.wait, cancelled := s.cancelled || turn.stop);
    if turn.take.Tick? && CanTake(s1, turn.take.back) {
      TripsGoOn(Received(s1, turn.take.back), turn.take.trips, c.targets);
    }
    hide Trips, CanTake;
  }

  lemma {:induction false} FollowEnds(c: Cfg, s: Cold, script: seq<Turn>)
    requires s.ended ==> s.cancelled
    ensures var t := Follow(c, s, script);
            && (t.ended ==> t.cancelled)
            && (t.cancelled ==> s.cancelled || (exists turn :: turn in script && turn.stop) || c.duration > 0)
    decreases |script|
  {
    hide OneTurn;
    if !s.ended && script != [] {
      TurnEnds(c, s, script[0]);
      FollowEnds(c, OneTurn(c, s, script[0]), script[1..]);
    }
  }

  /** It ends only when it is cancelled, and that by a Stop or by a deadline. */
  lemma ColdEnds(c: Cfg, now: int, gap: nat, script: seq<Turn>)
    requires c.rate > 0.0
    ensures var s := Follow(c, Begun(c, now, gap), script);
            && (s.ended ==> s.cancelled)
            && (s.cancelled ==> (exists turn :: turn in script && turn.stop) || c.duration > 0)
  {
    hide Follow, Interval;
    FollowEnds(c, Begun(c, now, gap), script);
  }
}
