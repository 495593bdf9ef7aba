/** How many batches the steady loop launches before its deadline. The ticker is started before the
    start time is read; by how long decides whether one batch more than expected gets through. */
module Deadline {
  import opened Options
  import opened Limiter
  import opened Machine
  import opened Accounting
  import opened Pacing
  import opened Scenarios

  // ---------- what every step keeps ----------

  /** In the steady loop, or out of it. */
  predicate Looping(s: State) { !Early(s) }

  predicate Sane(t: Ticker, now: int) {
    t.start <= now && t.start + t.fired * t.interval <= now && t.received + (if t.full then 1 else 0) <= t.fired
  }

  predicate Awaits(s: State) { s.at.Loop? || s.at.WaitStart? || s.at.Waiting? }

  /** The k-th tick is received no earlier than k intervals after the ticker's start. */
  predicate TicksLate(s: State) {
    && s.ticker.start <= s.startTime <= s.now
    && s.ticker.received >= |s.batches| + (if Between(s) then 1 else 0)
    && (forall i | 0 <= i < |s.batches| ::
          s.batches[i].recv >= s.ticker.start + (i + 1) * s.ticker.interval && s.batches[i].recv >= s.startTime)
    && (Between(s) ==> s.recv >= s.ticker.start + (|s.batches| + 1) * s.ticker.interval && s.recv >= s.startTime)
  }

  /** No batch follows one that ended after the deadline. */
  predicate Heeded(c: Cfg, s: State) {
    forall i | 0 <= i < |s.batches| - (if Awaits(s) then 0 else 1) :: s.batches[i].last - s.startTime <= c.duration
  }

  predicate Dated(c: Cfg, s: State)
    requires c.rate > 0.0
  {
    && Sane(s.ticker, s.now)
    && (s.section == Steady && s.at.SteadyClock? ==> s.ticker.interval == Interval(c.rate))
    && (Looping(s) ==> s.ticker.interval == Interval(c.rate) && TicksLate(s) && (c.duration > 0 ==> Heeded(c, s)))
  }

  lemma PassDated(c: Cfg, s: State, dt: nat)
    requires c.rate > 0.0 && Dated(c, s)
    ensures Dated(c, s.(now := s.now + dt))
  {
    hide Interval;
  }

  lemma FireDated(c: Cfg, s: State)
    requires c.rate > 0.0 && Dated(c, s) && Due(s.ticker, s.now)
    ensures Dated(c, s.(ticker := FireTicker(s.ticker, s.now)))
  {
    hide Interval;
  }

  /** A step that leaves ticker, start time and batches alone. */
  lemma QuietDated(c: Cfg, s: State, s': State)
    requires c.rate > 0.0 && Dated(c, s) && s'.now == s.now
    requires s'.ticker == s.ticker && s'.startTime == s.startTime && s'.batches == s.batches && s'.recv == s.recv
    requires s'.at.SteadyClock? ==> s.at == s'.at && s'.section == s.section
    requires Looping(s') ==> Looping(s) && s'.section == s.section
    requires Looping(s') && Between(s') ==> Between(s)
    requires Looping(s') && Awaits(s') ==> Awaits(s)
    ensures Dated(c, s')
  {
    hide Interval;
  }

  lemma TakeDated(c: Cfg, s: State)
    requires c.rate > 0.0 && Dated(c, s) && s.at == Loop && s.ticker.full && s.ticker.interval >= 1
    ensures Dated(c, s.(ticker := s.ticker.(full := false, received := s.ticker.received + 1), recv := s.now, at := WaitStart))
  {
    var t := s.ticker;
    Multiples(|s.batches| + 1, t.fired, t.interval, if Looping(s) then |s.batches| + 1 <= t.fired else false);
    hide Interval;
  }

  lemma Multiples(a: nat, b: nat, x: nat, holds: bool)
    requires holds ==> a <= b
    ensures holds ==> a * x <= b * x
  {
    assert holds ==> (b - a) * x >= 0;
  }

  lemma AddDated(c: Cfg, s: State, b: Batch)
    requires c.rate > 0.0 && Dated(c, s) && Between(s) && b.recv == s.recv
    ensures Dated(c, s.(at := Launch(0), batches := s.batches + [b]))
  {
    hide Interval;
  }

  lemma LaunchDated(c: Cfg, s: State)
    requires c.rate > 0.0 && Dated(c, s) && s.at.Launch?
    ensures Dated(c, LaunchOne(s, s.at.k))
  {
    hide Interval;
  }

  /** The deadline was not passed: the batch just launched ended before it. */
  lemma CheckDated(c: Cfg, s: State)
    requires c.rate > 0.0 && Dated(c, s) && Timeline(s) && s.at == Check && !DeadlinePassed(c, s)
    ensures Dated(c, s.(at := Loop))
  {
    hide Interval;
    assert forall i | 0 <= i < |s.batches| :: Ordered(s.batches[i], s.now);
  }

  lemma LoopDated(c: Cfg, s: State, choice: Choice, s': State)
    requires Runnable(c) && c.rate > 0.0 && Dated(c, s) && Shape(c, s) && s.at == Loop && MainStep(c, s, choice) == Some(s')
    ensures Dated(c, s')
  {
    hide Dated, LimiterShape, Ladder, OpenBatch;
    if choice == TakeTick {
      TakeDated(c, s);
      if c.kind == CloudEvent && s.section == Steady {
        AddDated(c, s.(ticker := s'.ticker, recv := s.now, at := WaitStart), Batch(s.now, s.now as real, s.now, s.now, |s.workers|));
      }
    } else {
      QuietDated(c, s, s');
    }
  }

  lemma WaitingDated(c: Cfg, s: State, choice: Choice, s': State)
    requires Runnable(c) && c.rate > 0.0 && Dated(c, s) && Shape(c, s) && s.at.Waiting? && MainStep(c, s, choice) == Some(s')
    ensures Dated(c, s')
  {
    hide Dated, LimiterShape, Ladder, ZeroTimeOr;
    if choice == Go && s.section == Steady {
      AddDated(c, s, Batch(s.recv, ZeroTimeOr(s), s.now, s.now, |s.workers|));
    } else {
      QuietDated(c, s, s');
    }
  }

  lemma SteadyDated(c: Cfg, s: State, choice: Choice, s': State)
    requires Runnable(c) && c.rate > 0.0 && Dated(c, s) && Timeline(s) && Shape(c, s) && MainStep(c, s, choice) == Some(s')
    requires s.at.SteadyTicker? || s.at.SteadyClock? || s.at.Check?
    ensures Dated(c, s')
  {
    hide LimiterShape, Ladder, Interval, DeadlinePassed;
    if s.at.Check? {
      if DeadlinePassed(c, s) {
        hide Dated;
        QuietDated(c, s, s');
      } else {
        hide Dated;
        CheckDated(c, s);
      }
    }
  }

  lemma RampDated(c: Cfg, s: State, choice: Choice, s': State)
    requires Runnable(c) && c.rate > 0.0 && Dated(c, s) && s.at.RampCheck? && MainStep(c, s, choice) == Some(s')
    requires s.section.Ramp?
    ensures Dated(c, s')
  {
    hide Interval, Ladder, NewBucket;
  }

  lemma MainDated(c: Cfg, s: State, choice: Choice, s': State)
    requires Runnable(c) && c.rate > 0.0 && Dated(c, s) && Timeline(s) && Shape(c, s) && MainStep(c, s, choice) == Some(s')
    ensures Dated(c, s')
  {
    match s.at {
      case Loop => hide *; LoopDated(c, s, choice, s');
      case Waiting(_, _) => hide *; WaitingDated(c, s, choice, s');
      case RampCheck => hide MainStep, Dated, LimiterShape; RampDated(c, s, choice, s');
      case SteadyTicker => hide *; SteadyDated(c, s, choice, s');
      case SteadyClock => hide *; SteadyDated(c, s, choice, s');
      case Check => hide *; SteadyDated(c, s, choice, s');
      case Launch(k) =>
        AtLaunch(c, s, choice);
        hide MainStep, Dated, LimiterShape, Ladder, LaunchOne;
        if k < BatchSize(c, s.section) {
          LaunchDated(c, s);
        } else {
          QuietDated(c, s, s');
        }
      case _ =>
        hide Dated, LimiterShape, Ladder, Reserve, Interval, Period, Limiter.Sound, Runnable, Timeline;
        QuietDated(c, s, s');
    }
  }

  lemma StepDated(c: Cfg, s: State, a: Action, s': State)
    requires Runnable(c) && c.rate > 0.0 && Dated(c, s) && Timeline(s) && Shape(c, s) && Step(c, s, a) == Some(s')
    ensures Dated(c, s')
  {
    match a {
      case Main(choice) => hide *; MainDated(c, s, choice, s');
      case Pass(dt) => hide MainStep, WorkerStep, Dated, Shape, Runnable; PassDated(c, s, dt);
      case Fire => hide MainStep, WorkerStep, Dated, Shape, Runnable, FireTicker; FireDated(c, s);
      case _ => hide MainStep, WorkStep, Dated, Shape, Runnable; QuietDated(c, s, s');
    }
  }

  lemma {:induction false} RunDated(c: Cfg, s: State, acts: seq<Action>, s': State)
    requires Runnable(c) && c.rate > 0.0 && Dated(c, s) && Timed(c, s) && Invariant(c, s) && Run(c, s, acts) == Some(s')
    ensures Dated(c, s')
    decreases |acts|
  {
    hide Step, Dated, Timeline, Spaced, Numbered, Shape, Books, Tally, Runnable;
    if acts != [] {
      var next := Step(c, s, acts[0]).value;
      StepDated(c, s, acts[0], next);
      StepTimed(c, s, acts[0], next);
      StepHolds(c, s, acts[0], next);
      hide Invariant, Timed;
      RunDated(c, next, acts[1..], s');
    }
  }

  lemma InitTimed(c: Cfg)
    requires Runnable(c) && c.rate > 0.0
    ensures Timed(c, Init(c)) && Dated(c, Init(c))
  {
    hide Period, Interval;
  }

  lemma ReachableDated(c: Cfg, s: State)
    requires Runnable(c) && c.rate > 0.0 && Reachable(c, s)
    ensures Dated(c, s)
  {
    var acts :| Run(c, Init(c), acts) == Some(s);
    InitHolds(c);
    InitTimed(c);
    hide Invariant, Timed, Dated, Run;
    RunDated(c, Init(c), acts, s);
  }

  // ---------- the bound ----------

  function Gap(s: State): int { s.startTime - s.ticker.start }

  /** m batches take m - 1 intervals, less what the ticker was ahead. */
  lemma DeadlineBound(c: Cfg, s: State)
    requires Runnable(c) && c.rate > 0.0 && c.duration > 0 && Reachable(c, s) && Looping(s)
    ensures 0 <= Gap(s)
    ensures (|s.batches| - 1) * Interval(c.rate) <= c.duration + Gap(s)
    ensures forall i | 0 <= i < |s.batches| - 1 :: s.batches[i].last - s.startTime <= c.duration
  {
    ReachableDated(c, s);
    ReachableTimed(c, s);
    hide Reachable, Interval, Spaced, Numbered, Early;
    IntervalPositive(c.rate);
    if |s.batches| > 1 {
      var i := |s.batches| - 2;
      assert Ordered(s.batches[i], s.now);
    }
  }

  /** The time between batches at full speed: the limiter's for HTTP, the ticker's otherwise. */
  function Pace(c: Cfg): real
    requires c.rate > 0.0
  {
    if c.kind == Http then Period(c.rate) else Interval(c.rate) as real
  }

  /** The earliest the first batch can begin after the start time. */
  function Lead(c: Cfg, gap: nat): nat
    requires c.rate > 0.0
  {
    if gap < Interval(c.rate) then Interval(c.rate) - gap else 0
  }

  /** Batch number n + 1 at its earliest, after the start time. */
  function Earliest(c: Cfg, gap: nat, n: nat): int
    requires c.rate > 0.0
  {
    Lead(c, gap) + (n as real * Pace(c)).Floor
  }

  ghost predicate ExpectedBatches(c: Cfg, gap: nat)
    requires Runnable(c) && c.rate > 0.0 && Interval(c.rate) > 0
  {
    forall s | Reachable(c, s) && Looping(s) && Gap(s) == gap :: |s.batches| <= c.duration / Interval(c.rate) + 1
  }

  lemma BatchDates(c: Cfg, s: State, n: nat)
    requires Runnable(c) && c.rate > 0.0 && Reachable(c, s) && Looping(s) && n < |s.batches|
    ensures var b := s.batches[n];
            && b.recv >= s.ticker.start + (n + 1) * Interval(c.rate) && b.recv >= s.startTime
            && Ordered(b, s.now)
    ensures c.kind == Http ==> s.batches[0].grant + Spread(c, n) <= s.batches[n].grant
  {
    ReachableDated(c, s);
    ReachableTimed(c, s);
    hide Reachable, Interval, Period, Numbered, Early, Spread;
    if c.kind == Http {
      GrantsApart(c, s, 0, n);
    }
  }

  lemma EarliestIs(c: Cfg, gap: nat, n: nat)
    requires c.rate > 0.0
    ensures Earliest(c, gap, n) == Lead(c, gap) + if c.kind == Http then Spread(c, n).Floor else n * Interval(c.rate)
  {
    WholePace(n, Interval(c.rate));
    hide Interval, Period, Lead;
  }

  lemma LeadIs(c: Cfg, gap: nat, start: int, recv: int)
    requires c.rate > 0.0 && recv >= start + Interval(c.rate) && recv >= start + gap
    ensures recv >= start + gap + Lead(c, gap)
  {
    hide Interval;
  }

  /** No batch begins earlier: its token is due no earlier than n periods after the first one's,
      or, without a limiter, its tick n + 1 intervals after the ticker's start. */
  lemma NoneEarlier(c: Cfg, s: State, n: nat)
    requires Runnable(c) && c.rate > 0.0 && Reachable(c, s) && Looping(s) && n < |s.batches|
    requires Gap(s) >= 0 && (c.kind == Http || Gap(s) < Interval(c.rate))
    ensures s.batches[n].last - s.startTime >= Earliest(c, Gap(s), n)
  {
    BatchDates(c, s, 0);
    BatchDates(c, s, n);
    EarliestIs(c, Gap(s), n);
    if c.kind == Http {
      LeadIs(c, Gap(s), s.ticker.start, s.batches[0].recv);
      var lead := Lead(c, Gap(s));
      hide *;
      assert Ordered(s.batches[0], s.now) && Ordered(s.batches[n], s.now);
      HttpEarliest(s.batches[0], s.batches[n], s.now, s.startTime + lead, Spread(c, n));
    } else {
      hide Interval, Period, Reachable, Early, Runnable, Earliest, Spread;
    }
  }

  lemma HttpEarliest(first: Batch, b: Batch, now: int, start: int, x: real)
    requires Ordered(first, now) && Ordered(b, now) && first.recv >= start && first.grant + x <= b.grant
    ensures b.last - start >= x.Floor
  {
    FloorBelow(x, b.last - start);
  }

  lemma WholePace(n: int, i: int)
    ensures (n as real * i as real).Floor == n * i
  {
    assert n as real * i as real == (n * i) as real;
  }

  lemma FloorBelow(x: real, n: int)
    requires x < (n + 1) as real
    ensures x.Floor <= n
  {
  }

  // ---------- one batch more ----------

  lemma FloorSum(x: real, y: real)
    ensures (x + y).Floor >= x.Floor + y.Floor
  {
  }

  lemma EarliestStep(c: Cfg, gap: nat, n: nat)
    requires c.rate > 0.0
    ensures Earliest(c, gap, n) + Interval(c.rate) <= Earliest(c, gap, n + 1)
  {
    EarliestIs(c, gap, n);
    EarliestIs(c, gap, n + 1);
    SpreadStep(c, n + 1);
    FloorSum(Spread(c, n), Period(c.rate));
    assert (n + 1) * Interval(c.rate) == n * Interval(c.rate) + Interval(c.rate);
    hide Spread, Earliest, Lead, Period;
  }

  /** After batch number n + 1, each at its earliest. */
  predicate Prompt(c: Cfg, s0: State, gap: nat, s: State, n: nat)
    requires c.rate > 0.0
  {
    && Ready(c, s) && s.at == Check && |s.batches| == n + 1 && s.startTime == s0.startTime
    && s.now == s0.startTime + Earliest(c, gap, n)
    && s.ticker.start == s0.ticker.start && s.ticker.interval == Interval(c.rate)
    && s.ticker.start + s.ticker.fired * Interval(c.rate) <= s.now
    && (c.kind == Http ==> ZeroTime(s.limiter) == (s0.startTime + Lead(c, gap)) as real + Spread(c, n))
  }

  lemma TakenTicker(s: State, tick: int)
    requires Due(s.ticker, tick)
    ensures var t := Taken(s, tick).ticker;
            t.start == s.ticker.start && t.interval == s.ticker.interval && t.start + t.fired * t.interval <= tick
  {
    DuePassed(s.ticker, tick);
  }

  lemma FirstPrompt(c: Cfg, s: State, gap: nat) returns (acts: seq<Action>, s': State)
    requires Runnable(c) && c.rate > 0.0 && Entered(c, s, gap)
    ensures Run(c, s, acts) == Some(s') && Prompt(c, s, gap, s', 0)
  {
    IntervalPositive(c.rate);
    EarliestIs(c, gap, 0);
    SpreadStep(c, 0);
    hide Interval, Period, Spread, Earliest;
    var at := s.now + Lead(c, gap);
    assert Due(s.ticker, at);
    assert Ready(c, s) && TokenAt(c, s, at) == at as real;
    hide TokenAt, Run, Due, Lead;
    acts, s' := OneBatch(c, s, at, at);
    TakenTicker(s, at);
  }

  lemma NextDue(c: Cfg, t: Ticker, now: int, tick: int)
    requires t.interval >= 1 && t.start + t.fired * t.interval <= now && now + t.interval <= tick
    ensures Due(t, tick)
  {
    assert (t.fired + 1) * t.interval == t.fired * t.interval + t.interval;
  }

  lemma NextToken(c: Cfg, s0: State, gap: nat, s: State, n: nat)
    requires Runnable(c) && c.rate > 0.0 && Prompt(c, s0, gap, s, n)
    ensures var tick := s0.startTime + Earliest(c, gap, n + 1);
            && TokenAt(c, s, tick) < (tick + 1) as real
            && (c.kind == Http ==> TokenAt(c, s, tick) == (s0.startTime + Lead(c, gap)) as real + Spread(c, n + 1))
  {
    EarliestIs(c, gap, n + 1);
    SpreadStep(c, n + 1);
    hide Interval, Period, Spread, Earliest, Ready, ZeroTime, Lead;
  }

  lemma NextPrompt(c: Cfg, s0: State, gap: nat, s: State, n: nat) returns (acts: seq<Action>, s': State)
    requires Runnable(c) && c.rate > 0.0 && Prompt(c, s0, gap, s, n) && Earliest(c, gap, n) <= c.duration
    ensures Run(c, s, acts) == Some(s') && Prompt(c, s0, gap, s', n + 1)
  {
    IntervalPositive(c.rate);
    EarliestStep(c, gap, n);
    NextToken(c, s0, gap, s, n);
    hide Interval, Period, Spread, Earliest, Lead, TokenAt, ZeroTime, Run, Due;
    var tick := s0.startTime + Earliest(c, gap, n + 1);
    NextDue(c, s.ticker, s.now, tick);
    GoOn(c, s);
    var s1 := s.(at := Loop);
    NoSteps(c, s);
    RunThen(c, s, [], s, Main(Go), s1);
    assert Ready(c, s1) by { assert Ready(c, s); }
    assert TokenAt(c, s1, tick) == TokenAt(c, s, tick) by { SameToken(c, s, tick); }
    hide Ready;
    var ys, s2 := OneBatch(c, s1, tick, tick);
    RunJoin(c, s, [] + [Main(Go)], s1, ys, s2);
    TakenTicker(s1, tick);
    acts, s' := [] + [Main(Go)] + ys, s2;
  }

  lemma SameToken(c: Cfg, s: State, tick: int)
    requires c.rate > 0.0 && Limiter.Sound(s.limiter)
    ensures TokenAt(c, s.(at := Loop), tick) == TokenAt(c, s, tick)
  {
  }

  lemma {:induction false} EarliestOrder(c: Cfg, gap: nat, m: nat, n: nat)
    requires Runnable(c) && c.rate > 0.0 && m <= n
    ensures Earliest(c, gap, m) <= Earliest(c, gap, n)
    decreases n - m
  {
    IntervalPositive(c.rate);
    hide Earliest, Interval;
    if m < n {
      EarliestStep(c, gap, m);
      EarliestOrder(c, gap, m + 1, n);
    }
  }

  /** While the deadline has not passed, batch after batch at its earliest. */
  lemma {:induction false} Chain(c: Cfg, s: State, gap: nat, n: nat) returns (acts: seq<Action>, s': State)
    requires Runnable(c) && c.rate > 0.0 && Entered(c, s, gap)
    requires n > 0 ==> Earliest(c, gap, n - 1) <= c.duration
    ensures Run(c, s, acts) == Some(s') && Prompt(c, s, gap, s', n)
    decreases n
  {
    hide Entered, Earliest, Prompt, Run;
    if n == 0 {
      acts, s' := FirstPrompt(c, s, gap);
    } else {
      if n > 1 {
        EarliestOrder(c, gap, n - 2, n - 1);
      }
      var xs, mid := Chain(c, s, gap, n - 1);
      var ys, end := NextPrompt(c, s, gap, mid, n - 1);
      RunJoin(c, s, xs, mid, ys, end);
      acts, s' := xs + ys, end;
    }
  }

  /** One batch more than expected is possible when batch number D/I + 1 can end by the deadline. */
  lemma OneMore(c: Cfg, gap: nat)
    requires Runnable(c) && c.rate > 0.0 && c.duration > 0 && Interval(c.rate) > 0
    requires Earliest(c, gap, c.duration / Interval(c.rate)) <= c.duration
    ensures !ExpectedBatches(c, gap)
  {
    hide Earliest, Interval, Run, Runnable, Ready;
    var xs, s0 := Enter(c, gap);
    var ys, s := Chain(c, s0, gap, c.duration / Interval(c.rate) + 1);
    RunJoin(c, Init(c), xs, s0, ys, s);
    assert Reachable(c, s);
    assert Looping(s) by { assert Ready(c, s); Loops(c, s); }
    assert Gap(s) == gap;
  }

  lemma Loops(c: Cfg, s: State)
    requires Ready(c, s) && s.at == Check
    ensures Looping(s)
  {
  }

  /** floor(D/I) + 1 batches and no more: exactly if batch number D/I + 1 cannot end by the deadline. */
  lemma DeadlineExact(c: Cfg, gap: nat)
    requires Runnable(c) && c.rate > 0.0 && c.duration > 0 && Interval(c.rate) > 0
    ensures ExpectedBatches(c, gap) <==> Earliest(c, gap, c.duration / Interval(c.rate)) > c.duration
  {
    var n := c.duration / Interval(c.rate);
    if Earliest(c, gap, n) <= c.duration {
      hide ExpectedBatches, Earliest;
      OneMore(c, gap);
    } else {
      if c.kind == CloudEvent {
        SlowTicker(c, gap);
      }
      hide Earliest, Interval, Reachable, Looping;
      forall s | Reachable(c, s) && Looping(s) && Gap(s) == gap ensures |s.batches| <= n + 1 {
        if |s.batches| > n + 1 {
          DeadlineBound(c, s);
          NoneEarlier(c, s, n);
        }
      }
    }
  }

  ghost predicate ExpectedAlways(c: Cfg)
    requires Runnable(c) && c.rate > 0.0 && Interval(c.rate) > 0
  {
    forall s | Reachable(c, s) && Looping(s) :: |s.batches| <= c.duration / Interval(c.rate) + 1
  }

  /** The least of the earliest ends: that of a ticker a whole interval ahead. */
  lemma LeastEarliest(c: Cfg, gap: nat, n: nat)
    requires c.rate > 0.0 && Interval(c.rate) > 0
    ensures Earliest(c, Interval(c.rate), n) == (n as real * Pace(c)).Floor <= Earliest(c, gap, n)
  {
    hide Interval, Pace;
  }

  lemma AlwaysWhen(c: Cfg)
    requires Runnable(c) && c.rate > 0.0 && c.duration > 0 && Interval(c.rate) > 0
    requires forall gap: nat :: ExpectedBatches(c, gap)
    ensures ExpectedAlways(c)
  {
    hide Interval, Reachable, Looping, Runnable;
    forall s | Reachable(c, s) && Looping(s) ensures |s.batches| <= c.duration / Interval(c.rate) + 1 {
      DeadlineBound(c, s);
      assert ExpectedBatches(c, Gap(s));
    }
  }

  /** Over all runs, whenever the start time was read: floor(D/I) + 1 bounds them exactly if
      floor(D/I) times the pace exceeds the duration. Ticks come at the interval, so this is never
      so without a limiter; with one it is when the dropped fractions of the interval add up. */
  lemma DeadlineAlways(c: Cfg)
    requires Runnable(c) && c.rate > 0.0 && c.duration > 0 && Interval(c.rate) > 0
    ensures ExpectedAlways(c) <==> ((c.duration / Interval(c.rate)) as real * Pace(c)).Floor > c.duration
    ensures c.kind == CloudEvent ==> !ExpectedAlways(c)
  {
    var n := c.duration / Interval(c.rate);
    hide Interval, ExpectedBatches, ExpectedAlways, Earliest, Pace, Runnable;
    LeastEarliest(c, Interval(c.rate), n);
    if c.kind == CloudEvent {
      TicksFit(c);
    }
    if Earliest(c, Interval(c.rate), n) > c.duration {
      forall gap: nat ensures ExpectedBatches(c, gap) {
        LeastEarliest(c, gap, n);
        DeadlineExact(c, gap);
      }
      AlwaysWhen(c);
    } else {
      DeadlineExact(c, Interval(c.rate));
      NotAlways(c, Interval(c.rate));
    }
  }

  lemma NotAlways(c: Cfg, gap: nat)
    requires Runnable(c) && c.rate > 0.0 && Interval(c.rate) > 0 && !ExpectedBatches(c, gap)
    ensures !ExpectedAlways(c)
  {
    hide Interval, Reachable, Looping, Runnable;
  }

  lemma TicksFit(c: Cfg)
    requires c.rate > 0.0 && Interval(c.rate) > 0 && c.kind == CloudEvent && c.duration > 0
    ensures ((c.duration / Interval(c.rate)) as real * Pace(c)).Floor <= c.duration
  {
    var i := Interval(c.rate);
    WholePace(c.duration / i, i);
    hide Interval;
  }

  /** Without a limiter a ticker one interval ahead lets one batch more through. */
  lemma SlowTicker(c: Cfg, gap: nat)
    requires c.kind == CloudEvent && c.rate > 0.0 && c.duration > 0 && Interval(c.rate) > 0
    requires Earliest(c, gap, c.duration / Interval(c.rate)) > c.duration
    ensures gap < Interval(c.rate)
  {
    var i := Interval(c.rate);
    var n := c.duration / i;
    EarliestIs(c, gap, n);
    hide Interval, Earliest;
    assert n * i <= c.duration;
  }

  /** In terms of the gap: always met when the clock is read as the ticker starts; with a period of
      whole nanoseconds, or no limiter, exactly if the gap and the rest of D by I are less than I. */
  lemma DeadlineGap(c: Cfg, gap: nat)
    requires Runnable(c) && c.rate > 0.0 && c.duration > 0 && Interval(c.rate) > 0
    ensures gap == 0 ==> ExpectedBatches(c, gap)
    ensures c.kind == CloudEvent || Interval(c.rate) as real == Period(c.rate) ==>
              (ExpectedBatches(c, gap) <==> gap + c.duration % Interval(c.rate) < Interval(c.rate))
  {
    DeadlineExact(c, gap);
    var i := Interval(c.rate);
    var n := c.duration / i;
    EarliestIs(c, gap, n);
    assert c.duration == n * i + c.duration % i;
    SpreadFloor(c, n);
    hide ExpectedBatches, Earliest, Spread, Period, Interval;
  }

  lemma SpreadFloor(c: Cfg, n: nat)
    requires c.rate > 0.0
    ensures Spread(c, n).Floor >= n * Interval(c.rate)
    ensures Interval(c.rate) as real == Period(c.rate) ==> Spread(c, n).Floor == n * Interval(c.rate)
  {
    var p, i := Period(c.rate), Interval(c.rate);
    hide Period, Interval;
    assert n as real * (p - i as real) >= 0.0;
    assert n as real * i as real == (n * i) as real;
    assert n as real * p == n as real * (p - i as real) + n as real * i as real;
  }

  // ---------- nothing after the deadline ----------

  /** A batch has been launched and the duration has passed, or run has gone further towards its end. */
  predicate Ending(c: Cfg, s: State) {
    (s.at.Check? && DeadlinePassed(c, s)) || s.at.Stopping? || s.at.Joining? || s.at.Finished?
  }

  lemma EndingStep(c: Cfg, s: State, a: Action, s': State)
    requires Runnable(c) && Ending(c, s) && Step(c, s, a) == Some(s')
    ensures Ending(c, s') && |s'.workers| == |s.workers|
  {
    hide WorkStep, Reserve, LaunchOne, OpenBatch, BeginRampStep, Interval, FireTicker, Due, BatchSize, Runnable;
  }

  /** In every mode, maximum throughput included: a batch after whose launches the duration has passed
      is the last. */
  lemma {:induction false} LastBatch(c: Cfg, s: State, acts: seq<Action>, s': State)
    requires Runnable(c) && Ending(c, s) && Run(c, s, acts) == Some(s')
    ensures Ending(c, s') && |s'.workers| == |s.workers|
    decreases |acts|
  {
    hide Step, Ending, Runnable;
    if acts != [] {
      var next := Step(c, s, acts[0]).value;
      EndingStep(c, s, acts[0], next);
      LastBatch(c, next, acts[1..], s');
    }
  }
}
