/** When exactly the steady loop keeps to one plus rate times time. */
module Rate {
  import opened Options
  import opened Limiter
  import opened Machine
  import opened Accounting
  import opened Pacing
  import opened Scenarios
  import Deadline

  predicate Whole(x: real) { x.Floor as real == x }

  /** No batch begins later than `slack` nanoseconds after its token was due. */
  predicate OnTime(s: State, slack: int) {
    forall i | 0 <= i < |s.batches| :: s.batches[i].begin as real <= s.batches[i].grant + slack as real
  }

  /** At most 1 + R t batches begin within any t. */
  predicate WithinRate(c: Cfg, s: State) {
    forall i, j | 0 <= i <= j < |s.batches| ::
      (j - i + 1) as real <= 1.0 + c.rate * (s.batches[j].begin - s.batches[i].begin) as real / SECOND
  }

  lemma RateForm(rate: real, n: int, t: int)
    requires rate > 0.0
    ensures n as real <= rate * t as real / SECOND <==> n as real * Period(rate) <= t as real
  {
    var p := Period(rate);
    assert p * rate == SECOND;
    var d := t as real - n as real * p;
    assert d * rate == t as real * rate - n as real * SECOND by {
      assert n as real * p * rate == n as real * (p * rate);
    }
    assert d >= 0.0 ==> d * rate >= 0.0;
    assert d < 0.0 ==> d * rate < 0.0;
  }

  lemma WholeMultiple(n: int, p: real)
    requires Whole(p)
    ensures (n * p.Floor) as real == n as real * p
  {
  }

  /** Batches on time, tokens a whole number of nanoseconds apart. */
  lemma WithinWhenWhole(c: Cfg, s: State)
    requires Runnable(c) && c.kind == Http && c.rate > 0.0 && Reachable(c, s) && OnTime(s, 0) && Whole(Period(c.rate))
    ensures WithinRate(c, s)
  {
    hide Reachable, Runnable, Whole, Period;
    forall i, j | 0 <= i <= j < |s.batches|
      ensures (j - i + 1) as real <= 1.0 + c.rate * (s.batches[j].begin - s.batches[i].begin) as real / SECOND
    {
      var t := s.batches[j].begin - s.batches[i].begin;
      if i < j {
        BatchesApart(c, s, i, j);
        WholeMultiple(j - i, Period(c.rate));
        var ticks := (j - i) * Period(c.rate).Floor;
        assert ticks as real < (t + 1) as real;
        assert ticks <= t;
      }
      RateForm(c.rate, j - i, t);
    }
  }

  /** The first batch: its token due as it is asked for, and used `late` afterwards. */
  lemma FirstBatch(c: Cfg, late: nat) returns (acts: seq<Action>, s: State, at: int)
    requires Runnable(c) && c.kind == Http && c.rate > 0.0 && (c.duration <= 0 || late <= c.duration)
    ensures Run(c, Init(c), acts) == Some(s) && s.at == Loop && Ready(c, s) && s.now == at + late
    ensures |s.batches| == 1 && s.batches[0].begin == at + late && s.batches[0].grant == at as real
    ensures ZeroTime(s.limiter) == at as real && Due(s.ticker, at + Interval(c.rate))
    ensures NewWorkers(c, s, 1) && s.ticker.interval == Interval(c.rate) && s.startTime == at
  {
    var d := Interval(c.rate);
    IntervalPositive(c.rate);
    hide Step, Init, Interval, Runnable;
    var xs, s0 := Enter(c, d);
    Entrance(c, s0);
    at := s0.now;
    var ys, s1 := OneBatch(c, s0, at, at + late);
    RunJoin(c, Init(c), xs, s0, ys, s1);
    hide Run, Ready;
    assert !DeadlinePassed(c, s1);
    GoOn(c, s1);
    s := s1.(at := Loop);
    RunThen(c, Init(c), xs + ys, s1, Main(Go), s);
    Readied(c, s1);
    acts := xs + ys + [Main(Go)];
  }

  /** The workers of `n` batches, none of which has made a step. */
  predicate NewWorkers(c: Cfg, s: State, n: nat) {
    && |s.workers| == n * c.targets && s.requestCount == 0
    && forall i | 0 <= i < |s.workers| :: s.workers[i].work == Requesting && s.workers[i].section == Steady
  }

  /** A second one, whose tick is taken and whose requests are launched at `end`. */
  lemma SecondBatch(c: Cfg, acts: seq<Action>, s: State, at: int, late: nat, end: int)
      returns (all: seq<Action>, s': State)
    requires Runnable(c) && c.kind == Http && c.rate > 0.0 && Run(c, Init(c), acts) == Some(s)
    requires s.at == Loop && Ready(c, s) && s.now == at + late <= end && |s.batches| == 1 && NewWorkers(c, s, 1)
    requires ZeroTime(s.limiter) == at as real && Due(s.ticker, end) && end >= at + Interval(c.rate)
    ensures Run(c, Init(c), all) == Some(s') && Reachable(c, s')
    ensures |s'.batches| == 2 && s'.batches[0] == s.batches[0] && s'.batches[1].begin == end
    ensures s'.batches[1].grant >= end as real && NewWorkers(c, s', 2)
  {
    IntervalPositive(c.rate);
    TokenBy(c, at, end);
    hide Step, Init, Interval, Runnable, Run, Ready;
    assert Limiter.Sound(s.limiter) by { assert Ready(c, s); ReadySound(c, s); }
    var xs;
    xs, s' := OneBatch(c, s, end, end);
    RunJoin(c, Init(c), acts, s, xs, s');
    assert s'.batches[0] == s'.batches[..1][0];
    all := acts + xs;
  }

  lemma ReadySound(c: Cfg, s: State)
    requires Ready(c, s)
    ensures Limiter.Sound(s.limiter)
  {
  }

  /** Two batches: the first `late`, the second at the next tick. */
  lemma TwoBatches(c: Cfg, late: nat) returns (acts: seq<Action>, s: State)
    requires Runnable(c) && c.kind == Http && c.rate > 0.0 && late <= 1
    ensures Run(c, Init(c), acts) == Some(s) && Reachable(c, s) && |s.batches| == 2 && OnTime(s, late)
    ensures s.batches[1].begin == s.batches[0].begin - late + Interval(c.rate) && NewWorkers(c, s, 2)
  {
    IntervalPositive(c.rate);
    hide Run, Init, Interval, Runnable, Reachable, Ready, Due, NewWorkers;
    var first, s1, at := FirstBatch(c, late);
    acts, s := SecondBatch(c, first, s1, at, late, at + Interval(c.rate));
  }

  lemma Readied(c: Cfg, s: State)
    requires Ready(c, s)
    ensures Ready(c, s.(at := Loop))
  {
  }

  /** The bucket is full: the first token is due at once. */
  lemma Entrance(c: Cfg, s: State)
    requires Runnable(c) && c.kind == Http && c.rate > 0.0 && Entered(c, s, Interval(c.rate)) && Interval(c.rate) >= 1
    ensures Ready(c, s) && TokenAt(c, s, s.now) == s.now as real && Due(s.ticker, s.now)
    ensures FireTicker(s.ticker, s.now).fired == 1
  {
    hide Interval;
  }

  lemma TokenBy(c: Cfg, at: int, end: int)
    requires c.rate > 0.0 && end >= at + Interval(c.rate)
    ensures end as real <= Max(end as real, at as real + Period(c.rate)) < (end + 1) as real
  {
    hide Period;
  }

  /** The claim of 1 + R t for runs in which no launch is late: true exactly if the time between
      tokens is a whole number of nanoseconds, since the limiter drops the fraction of its delay. */
  lemma PunctualRate(c: Cfg)
    requires Runnable(c) && c.kind == Http && c.rate > 0.0
    ensures (forall s | Reachable(c, s) && OnTime(s, 0) :: WithinRate(c, s)) <==> Whole(Period(c.rate))
  {
    if Whole(Period(c.rate)) {
      hide Reachable, OnTime, WithinRate, Whole, Period;
      forall s | Reachable(c, s) && OnTime(s, 0) ensures WithinRate(c, s) {
        WithinWhenWhole(c, s);
      }
    } else {
      var _, s := TwoBatches(c, 0);
      TooClose(c, s);
    }
  }

  /** Two batches less than a period apart. */
  lemma TooClose(c: Cfg, s: State)
    requires c.rate > 0.0 && |s.batches| == 2
    requires (s.batches[1].begin - s.batches[0].begin) as real < Period(c.rate)
    ensures !WithinRate(c, s)
  {
    RateForm(c.rate, 1, s.batches[1].begin - s.batches[0].begin);
    hide Period;
    assert (1 - 0 + 1) as real == 2.0;
  }

  /** And for runs in which a launch may be late it is true for no rate: one nanosecond will do. */
  lemma LateRate(c: Cfg)
    requires Runnable(c) && c.kind == Http && c.rate > 0.0
    ensures exists s :: Reachable(c, s) && OnTime(s, 1) && !WithinRate(c, s)
  {
    var _, s := TwoBatches(c, 1);
    hide Reachable, OnTime, WithinRate;
    TooClose(c, s);
  }

  // ---------- the bound for every run is the least whole one ----------

  /** After the first batch was late until `base`, k + 1 more, each begun as its token is due. */
  predicate Catching(c: Cfg, base: int, s: State, k: nat)
    requires c.rate > 0.0
  {
    && Ready(c, s) && s.at == Check && |s.batches| == k + 2 && s.batches[0].begin == base
    && s.batches[k + 1].begin == s.now == base + Spread(c, k).Floor
    && s.ticker.interval == Interval(c.rate) && s.ticker.start + s.ticker.fired * s.ticker.interval <= s.now
    && ZeroTime(s.limiter) == base as real + Spread(c, k) && base == s.startTime + Interval(c.rate) + 1
  }

  lemma LateToken(c: Cfg, s: State, at: int, base: int)
    requires c.kind == Http && c.rate > 0.0 && Limiter.Sound(s.limiter) && ZeroTime(s.limiter) == at as real
    requires base == at + Interval(c.rate) + 1
    ensures TokenAt(c, s, base) == base as real
  {
    hide ZeroTime;
  }

  lemma FirstCatch(c: Cfg) returns (acts: seq<Action>, s: State, base: int)
    requires Runnable(c) && c.kind == Http && c.rate > 0.0 && (c.duration <= 0 || Interval(c.rate) + 1 <= c.duration)
    ensures Run(c, Init(c), acts) == Some(s) && Catching(c, base, s, 0)
  {
    IntervalPositive(c.rate);
    SpreadStep(c, 0);
    var late := Interval(c.rate) + 1;
    var xs, s1, at := FirstBatch(c, late);
    base := at + late;
    LateToken(c, s1, at, base);
    hide Run, Init, Interval, Runnable, Spread, TokenAt, NewWorkers, ZeroTime;
    DueLater(s1.ticker, at + Interval(c.rate), base);
    hide Due;
    var ys, s2 := OneBatch(c, s1, base, base);
    RunJoin(c, Init(c), xs, s1, ys, s2);
    Deadline.TakenTicker(s1, base);
    assert s2.batches[0] == s2.batches[..1][0];
    acts, s := xs + ys, s2;
  }

  lemma NextCatch(c: Cfg, base: int, s: State, k: nat) returns (acts: seq<Action>, s': State)
    requires Runnable(c) && c.kind == Http && c.rate > 0.0 && Catching(c, base, s, k) && !DeadlinePassed(c, s)
    ensures Run(c, s, acts) == Some(s') && Catching(c, base, s', k + 1)
  {
    IntervalPositive(c.rate);
    SpreadStep(c, k + 1);
    Deadline.FloorSum(Spread(c, k), Period(c.rate));
    var tick := base + Spread(c, k + 1).Floor;
    assert s.now + Interval(c.rate) <= tick;
    var s1 := s.(at := Loop);
    assert TokenAt(c, s1, tick) == base as real + Spread(c, k + 1) by { CatchToken(c, base, s, k, tick); }
    hide Interval, Period, Spread, TokenAt, ZeroTime, Run, Runnable;
    Deadline.NextDue(c, s.ticker, s.now, tick);
    GoOn(c, s);
    NoSteps(c, s);
    RunThen(c, s, [], s, Main(Go), s1);
    Readied(c, s);
    hide Ready, Due;
    var ys, s2 := OneBatch(c, s1, tick, tick);
    RunJoin(c, s, [] + [Main(Go)], s1, ys, s2);
    Deadline.TakenTicker(s1, tick);
    assert s2.batches[0] == s2.batches[..|s.batches|][0];
    acts, s' := [] + [Main(Go)] + ys, s2;
  }

  lemma CatchToken(c: Cfg, base: int, s: State, k: nat, tick: int)
    requires c.kind == Http && c.rate > 0.0 && Catching(c, base, s, k) && tick == base + Spread(c, k + 1).Floor
    ensures Limiter.Sound(s.limiter) && TokenAt(c, s.(at := Loop), tick) == base as real + Spread(c, k + 1)
  {
    SpreadStep(c, k + 1);
    hide Spread, Interval, Period, ZeroTime;
  }

  lemma {:induction false} Catches(c: Cfg, m: nat) returns (acts: seq<Action>, s: State, base: int)
    requires Runnable(c) && c.kind == Http && c.rate > 0.0
    requires c.duration <= 0 || Interval(c.rate) + 1 + Spread(c, m).Floor <= c.duration
    ensures Run(c, Init(c), acts) == Some(s) && Catching(c, base, s, m)
    decreases m
  {
    SpreadStep(c, m);
    hide Run, Init, Runnable, Spread, Interval;
    if m == 0 {
      acts, s, base := FirstCatch(c);
    } else {
      var xs, s1;
      xs, s1, base := Catches(c, m - 1);
      assert !DeadlinePassed(c, s1);
      hide Catching, Period;
      var ys, s2 := NextCatch(c, base, s1, m - 1);
      RunJoin(c, Init(c), xs, s1, ys, s2);
      acts, s := xs + ys, s2;
    }
  }

  function Times(x: real, p: real): real { x * p }

  lemma TimesOrder(x: real, y: real, p: real)
    requires p > 0.0 && x <= y
    ensures Times(x, p) <= Times(y, p) && (x < y ==> Times(x, p) < Times(y, p))
    ensures Times(x + 1.0, p) == Times(x, p) + p
  {
    var d := y - x;
    assert d * p == y * p - x * p;
    assert d > 0.0 ==> d * p > 0.0;
  }

  lemma Undivided(x: real, p: real)
    requires p > 0.0
    ensures Times(x / p, p) == x && (x > 0.0 ==> x / p > 0.0)
  {
  }

  /** The greatest number of whole periods before an end. */
  lemma PeriodsIn(p: real, t: nat) returns (m: nat)
    requires p > 0.0
    ensures Times(m as real, p) < (t + 1) as real <= Times(m as real, p) + p
  {
    var y := (t + 1) as real / p;
    Undivided((t + 1) as real, p);
    m := if y.Floor as real == y then y.Floor - 1 else y.Floor;
    TimesOrder(m as real, y, p);
    TimesOrder(y, m as real + 1.0, p);
    hide Times;
  }

  lemma BoundWithin(rate: real, m: nat, t: nat)
    requires rate > 0.0 && (t + 1) as real <= Times(m as real, Period(rate)) + Period(rate)
    ensures WindowBound(rate, t) <= (m + 3) as real
  {
    var p, x, n := Period(rate), (t + 1) as real, m as real + 1.0;
    Undivided(SECOND, rate);
    TimesOrder(m as real, n, p);
    TimesOrder(x, Times(n, p), rate);
    Regroup(n, p, rate);
    assert Times(x, rate) == rate * x;
    hide Times, Period;
    assert rate * x <= n * SECOND;
  }

  lemma Regroup(n: real, p: real, rate: real)
    ensures Times(Times(n, p), rate) == n * Times(p, rate)
  {
  }

  /** For every window that ends by the deadline some run has the greatest number of batches in it
      that is below the bound: the first was late by a period, and the others follow at once. */
  lemma WindowAttained(c: Cfg, t: nat) returns (s: State)
    requires Runnable(c) && c.kind == Http && c.rate > 0.0 && (c.duration <= 0 || Interval(c.rate) + 1 + t <= c.duration)
    ensures Reachable(c, s) && |s.batches| > 0 && s.batches[|s.batches| - 1].begin <= s.batches[0].begin + t
    ensures (|s.batches| as real) < WindowBound(c.rate, t) <= (|s.batches| + 1) as real
  {
    var m := PeriodsIn(Period(c.rate), t);
    assert Spread(c, m) == Times(m as real, Period(c.rate));
    assert Spread(c, m).Floor <= t;
    var acts, base;
    acts, s, base := Catches(c, m);
    BoundWithin(c.rate, m, t);
    hide Run, Init, Runnable, Period, Interval, WindowBound, Ready, ZeroTime, Spread;
    assert Reachable(c, s);
    BeginsWithin(c, s);
    hide Reachable;
    BatchWindow(c, s, 0, |s.batches| - 1, s.batches[0].begin, t);
  }

  lemma BeginsWithin(c: Cfg, s: State)
    requires Runnable(c) && c.rate > 0.0 && Reachable(c, s) && s.batches != []
    ensures s.batches[0].begin <= s.batches[0].last
  {
    ReachableTimed(c, s);
    hide Reachable, Runnable, Spaced, Numbered;
    assert Ordered(s.batches[0], s.now);
  }

  lemma DueLater(t: Ticker, now: int, later: int)
    requires Due(t, now) && now <= later
    ensures Due(t, later)
  {
  }
}
