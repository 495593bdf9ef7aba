/** The ramp-up's ladder of rates, and how many batches its fifteen steps launch. */
module Ramp {
  import opened Options
  import opened Limiter
  import opened Machine
  import opened Accounting
  import opened Pacing
  import opened Deadline

  // ---------- the ladder ----------

  /** Strictly rising from one to the target rate, which it reaches at the last step. */
  lemma LadderRises(rate: real, i: nat, j: nat)
    requires rate > 1.0 && i < j <= STEPS
    ensures 1.0 <= Ladder(rate, i) < Ladder(rate, j) <= rate
    ensures Ladder(rate, j) == rate <==> j == STEPS
  {
    LadderStep(rate, i);
    LadderBelow(rate, j);
    LadderBelow(rate, i);
    LadderApart(rate, i, j);
    hide Ladder;
  }

  lemma LadderApart(rate: real, i: nat, j: nat)
    requires rate > 1.0 && i < j
    ensures Ladder(rate, i) < Ladder(rate, j)
  {
    var d := (rate - 1.0) / 15.0;
    assert (j - i) as real * d > 0.0;
    assert j as real * d == i as real * d + (j - i) as real * d;
  }

  /** A higher rate never has a longer interval, and up to 1e9 the interval is positive. */
  lemma IntervalsFall(low: real, high: real)
    requires 0.0 < low <= high <= MAX_RATE
    ensures 1 <= Interval(high) <= Interval(low)
  {
    IntervalPositive(high);
    PeriodsFall(low, high);
    hide Period;
  }

  lemma PeriodsFall(low: real, high: real)
    requires 0.0 < low <= high
    ensures Period(high) <= Period(low)
  {
    var p, q := Period(low), Period(high);
    assert p * low == Limiter.SECOND && q * high == Limiter.SECOND;
    assert p * (high - low) >= 0.0;
    assert p * high >= q * high;
    Cancels(p, q, high);
  }

  lemma Cancels(p: real, q: real, x: real)
    requires x > 0.0 && p * x >= q * x
    ensures p >= q
  {
    assert p < q ==> (q - p) * x > 0.0;
  }

  /** Every step's bucket holds the one token its waits ask for. */
  lemma LadderSound(rate: real, i: nat, now: int)
    requires 1.0 < rate <= MAX_RATE && i < STEPS
    ensures var r := Ladder(rate, i + 1);
            r > 0.0 && Limiter.Sound(NewBucket(r, Burst(r), now)) && Burst(r) >= 1 && 1 <= Interval(r)
  {
    LadderRises(rate, i, i + 1);
    IntervalPositive(Ladder(rate, i + 1));
    hide Ladder, Interval;
  }

  /** The sum of the first n rates of the ladder. */
  function LadderSum(rate: real, n: nat): real {
    if n == 0 then 0.0 else LadderSum(rate, n - 1) + Ladder(rate, n)
  }

  lemma Distribute(a: int, b: int, d: real)
    ensures (a + b) as real * d == a as real * d + b as real * d
  {
    hide *;
    assert (a + b) as real == a as real + b as real;
  }

  lemma Twice(n: int, d: real)
    ensures n as real * (2.0 * d) == (2 * n) as real * d
  {
    hide *;
    assert (2 * n) as real == 2.0 * n as real;
  }

  lemma Triangle(n: int)
    ensures n * (n + 1) == (n - 1) * n + 2 * n
  {
  }

  lemma LadderIs(rate: real, n: nat)
    ensures Ladder(rate, n) == 1.0 + (2 * n) as real * ((rate - 1.0) / 30.0)
  {
    var d := (rate - 1.0) / 30.0;
    assert (rate - 1.0) / 15.0 == 2.0 * d;
    Twice(n, d);
  }

  lemma {:induction false} LadderSumIs(rate: real, n: nat)
    ensures LadderSum(rate, n) == n as real + (n * (n + 1)) as real * ((rate - 1.0) / 30.0)
  {
    if n > 0 {
      LadderSumIs(rate, n - 1);
      LadderIs(rate, n);
      hide Ladder;
      Triangle(n);
      Distribute((n - 1) * n, 2 * n, (rate - 1.0) / 30.0);
    }
  }

  lemma LadderTotal(rate: real)
    ensures LadderSum(rate, STEPS) == 8.0 * rate + 7.0
  {
    LadderSumIs(rate, STEPS);
    assert (STEPS * (STEPS + 1)) as real == 240.0;
  }

  // ---------- ticks of a ramp step ----------

  predicate Ticked(rate: real, i: nat, r: RampStep) {
    Ladder(rate, i + 1) > 0.0 && r.batches * Interval(Ladder(rate, i + 1)) <= r.last - r.start
  }

  predicate Climbing(s: State) { s.section.Ramp? && (s.at.Loop? || s.at.WaitStart? || s.at.Waiting? || s.at.Launch?) }

  predicate Held(s: State) { s.at.WaitStart? || s.at.Waiting? }

  /** The ticker is the step's own; every batch took one of its ticks. */
  predicate StepTicker(rate: real, i: nat, r: RampStep, t: Ticker, held: bool, recv: int) {
    && Ladder(rate, i + 1) > 0.0
    && t.start == r.start && t.interval == Interval(Ladder(rate, i + 1))
    && t.received == r.batches + (if held then 1 else 0)
    && (held ==> recv - r.start >= (r.batches + 1) * t.interval)
  }

  predicate Stepped(c: Cfg, s: State) {
    && (forall i | 0 <= i < |s.rampSteps| :: Ticked(c.rate, i, s.rampSteps[i]))
    && (Climbing(s) && s.rampSteps != [] ==>
          StepTicker(c.rate, |s.rampSteps| - 1, s.rampSteps[|s.rampSteps| - 1], s.ticker, Held(s), s.recv))
  }

  lemma SameStepTicker(rate: real, i: nat, r: RampStep, t: Ticker, t': Ticker, held: bool, recv: int)
    requires StepTicker(rate, i, r, t, held, recv)
    requires t'.start == t.start && t'.interval == t.interval && t'.received == t.received
    ensures StepTicker(rate, i, r, t', held, recv)
  {
  }

  lemma QuietStepped(c: Cfg, s: State, s': State)
    requires Stepped(c, s) && s'.rampSteps == s.rampSteps
    requires Climbing(s') ==> Climbing(s) && (Held(s') <==> Held(s)) && s'.recv == s.recv
    requires Climbing(s') ==> s'.ticker.start == s.ticker.start && s'.ticker.interval == s.ticker.interval
                              && s'.ticker.received == s.ticker.received
    ensures Stepped(c, s')
  {
    hide StepTicker, Ticked;
    if Climbing(s') && s.rampSteps != [] {
      SameStepTicker(c.rate, |s.rampSteps| - 1, s.rampSteps[|s.rampSteps| - 1], s.ticker, s'.ticker, Held(s), s.recv);
    }
  }

  lemma BeginStepped(c: Cfg, s: State)
    requires Runnable(c) && c.rate > 1.0 && Stepped(c, s) && Shape(c, s) && s.at == RampCheck && s.section.step < STEPS
    ensures Stepped(c, BeginRampStep(c, s, s.section.step))
  {
    var i := s.section.step;
    LadderStep(c.rate, i);
    LadderStep(c.rate, i + 1);
    hide Ladder, Interval, LimiterShape;
    var s' := BeginRampStep(c, s, i);
    assert s'.rampSteps == s.rampSteps + [RampStep(s.now, 0, s.now)] && s'.currentRate == Ladder(c.rate, i + 1);
    assert 0 * Interval(Ladder(c.rate, i + 1)) == 0;
    assert Ticked(c.rate, i, s'.rampSteps[i]);
    hide Ticked;
  }

  lemma TakeStepped(c: Cfg, s: State)
    requires Stepped(c, s) && s.at == Loop && s.ticker.full && s.ticker.interval >= 1 && Sane(s.ticker, s.now)
    ensures Stepped(c, s.(ticker := s.ticker.(full := false, received := s.ticker.received + 1), recv := s.now, at := WaitStart))
  {
    var t := s.ticker;
    Multiples(t.received + 1, t.fired, t.interval, true);
    assert s.now - t.start >= (t.received + 1) * t.interval;
    hide Ladder, Interval, Ticked, Sane;
  }

  lemma OpenStepped(c: Cfg, s: State)
    requires Stepped(c, s) && s.at.Waiting?
    ensures Stepped(c, OpenBatch(s))
  {
    hide Ladder, Interval, ZeroTimeOr;
    if s.section.Ramp? && s.rampSteps != [] {
      var n := |s.rampSteps| - 1;
      assert Ticked(c.rate, n, RampStep(s.rampSteps[n].start, s.rampSteps[n].batches + 1, s.recv));
      assert OpenBatch(s).rampSteps == s.rampSteps[n := RampStep(s.rampSteps[n].start, s.rampSteps[n].batches + 1, s.recv)];
      hide Ticked;
    } else {
      assert OpenBatch(s).rampSteps == s.rampSteps;
      hide Ticked;
    }
  }

  lemma MainStepped(c: Cfg, s: State, choice: Choice, s': State)
    requires Runnable(c) && c.rate > 1.0 && Stepped(c, s) && Sane(s.ticker, s.now) && Shape(c, s)
    requires MainStep(c, s, choice) == Some(s')
    ensures Stepped(c, s')
  {
    match s.at {
      case RampCheck =>
        hide Stepped, LimiterShape, Ladder, BeginRampStep;
        if s.section.step < STEPS && !s.cancelled {
          BeginStepped(c, s);
        } else {
          QuietStepped(c, s, s');
        }
      case Loop =>
        hide Stepped, LimiterShape, Ladder, OpenBatch;
        if choice == TakeTick && s.section.Ramp? {
          TakeStepped(c, s);
        } else {
          QuietStepped(c, s, s');
        }
      case Waiting(_, _) =>
        hide Stepped, LimiterShape, Ladder, OpenBatch;
        if choice == Go {
          OpenStepped(c, s);
        } else {
          QuietStepped(c, s, s');
        }
      case Launch(k) =>
        AtLaunch(c, s, choice);
        hide MainStep, Stepped, LimiterShape, Ladder, Place;
        QuietStepped(c, s, s');
      case _ =>
        hide Stepped, LimiterShape, Ladder, Reserve, Interval, Period, Limiter.Sound, Runnable;
        QuietStepped(c, s, s');
    }
  }

  lemma StepStepped(c: Cfg, s: State, a: Action, s': State)
    requires Runnable(c) && c.rate > 1.0 && Stepped(c, s) && Sane(s.ticker, s.now) && Shape(c, s) && Step(c, s, a) == Some(s')
    ensures Stepped(c, s')
  {
    match a {
      case Main(choice) => hide *; MainStepped(c, s, choice, s');
      case _ => hide MainStep, WorkStep, Stepped, Shape, Runnable, Ladder; QuietStepped(c, s, s');
    }
  }

  lemma {:induction false} RunStepped(c: Cfg, s: State, acts: seq<Action>, s': State)
    requires Runnable(c) && c.rate > 1.0 && Stepped(c, s) && Dated(c, s) && Timed(c, s) && Invariant(c, s)
    requires Run(c, s, acts) == Some(s')
    ensures Stepped(c, s')
    decreases |acts|
  {
    hide Step, Stepped, Sane, Looping, TicksLate, Heeded, Timeline, Spaced, Numbered, Shape, Books, Tally, Runnable;
    if acts != [] {
      var next := Step(c, s, acts[0]).value;
      StepStepped(c, s, acts[0], next);
      StepDated(c, s, acts[0], next);
      StepTimed(c, s, acts[0], next);
      StepHolds(c, s, acts[0], next);
      hide Invariant, Timed, Dated;
      RunStepped(c, next, acts[1..], s');
    }
  }

  lemma ReachableStepped(c: Cfg, s: State)
    requires Runnable(c) && c.rate > 1.0 && Reachable(c, s)
    ensures Stepped(c, s)
  {
    var acts :| Run(c, Init(c), acts) == Some(s);
    InitHolds(c);
    InitTimed(c);
    assert Stepped(c, Init(c));
    hide Invariant, Timed, Dated, Run, Stepped;
    RunStepped(c, Init(c), acts, s);
  }

  // ---------- how much the ramp-up sends ----------

  /** The last tick of every step was received within the step's second. */
  predicate Confined(steps: seq<RampStep>) {
    forall r | r in steps :: r.last - r.start <= NANOS
  }

  lemma HalfPeriod(rate: real)
    requires 0.0 < rate <= MAX_RATE
    ensures 2.0 * Interval(rate) as real >= Period(rate)
  {
    IntervalPositive(rate);
    hide Period;
  }

  lemma StepBatches(rate: real, b: nat)
    requires 0.0 < rate <= MAX_RATE && b * Interval(rate) <= NANOS
    ensures b as real <= 2.0 * rate
  {
    HalfPeriod(rate);
    var p, i := Period(rate), Interval(rate);
    assert p * rate == Limiter.SECOND;
    hide Period, Interval;
    assert b as real * i as real == (b * i) as real;
    assert b as real * (2.0 * i as real - p) >= 0.0;
    assert b as real * p <= 2.0 * (b * i) as real;
    assert b as real * p <= (2.0 * rate) * p;
    Cancels(2.0 * rate, b as real, p);
  }

  lemma {:induction false} SumBatches(rate: real, steps: seq<RampStep>)
    requires 1.0 < rate <= MAX_RATE && |steps| <= STEPS && Confined(steps)
    requires forall i | 0 <= i < |steps| :: Ticked(rate, i, steps[i])
    ensures RampBatches(steps) as real <= 2.0 * LadderSum(rate, |steps|)
  {
    if steps != [] {
      var n := |steps| - 1;
      LadderRises(rate, n, n + 1);
      hide Ladder, Interval;
      var r := steps[n];
      assert Ticked(rate, n, r);
      StepBatches(Ladder(rate, n + 1), r.batches);
      hide Ticked;
      SumBatches(rate, steps[..n]);
    }
  }

  lemma {:induction false} SumGrows(rate: real, m: nat, n: nat)
    requires rate > 1.0 && m <= n <= STEPS
    ensures LadderSum(rate, m) <= LadderSum(rate, n)
  {
    hide Ladder;
    if m < n {
      SumGrows(rate, m, n - 1);
      LadderStep(rate, n);
    }
  }

  lemma StepsAtMost(c: Cfg, s: State, a: Action, s': State)
    requires Runnable(c) && c.rate > 1.0 && Shape(c, s) && |s.rampSteps| <= STEPS && Step(c, s, a) == Some(s')
    ensures |s'.rampSteps| <= STEPS
  {
    hide WorkStep, Ladder, LimiterShape, Reserve, ZeroTimeOr, Interval, DeadlinePassed, BatchSize;
  }

  lemma {:induction false} RunSteps(c: Cfg, s: State, acts: seq<Action>, s': State)
    requires Runnable(c) && c.rate > 1.0 && Invariant(c, s) && |s.rampSteps| <= STEPS && Run(c, s, acts) == Some(s')
    ensures |s'.rampSteps| <= STEPS
    decreases |acts|
  {
    hide Step, Shape, Books, Tally, Runnable;
    if acts != [] {
      var next := Step(c, s, acts[0]).value;
      StepsAtMost(c, s, acts[0], next);
      StepHolds(c, s, acts[0], next);
      hide Invariant;
      RunSteps(c, next, acts[1..], s');
    }
  }

  /** The ramp-up launches at most 16R + 14 batches if in every step no tick was taken after the
      step's second. */
  lemma RampTotal(c: Cfg, s: State)
    requires Runnable(c) && c.rate > 1.0 && Reachable(c, s) && Confined(s.rampSteps)
    ensures RampBatches(s.rampSteps) as real <= 16.0 * c.rate + 14.0
  {
    ReachableStepped(c, s);
    var acts :| Run(c, Init(c), acts) == Some(s);
    InitHolds(c);
    hide Invariant;
    RunSteps(c, Init(c), acts, s);
    hide Reachable, Run, Ladder, Interval, Confined, RampBatches, Climbing, Held, Ticked;
    SumBatches(c.rate, s.rampSteps);
    SumGrows(c.rate, |s.rampSteps|, STEPS);
    LadderTotal(c.rate);
  }

  /** And so at most so many requests to each target. */
  lemma RampRequests(c: Cfg, s: State, t: nat)
    requires Runnable(c) && c.rate > 1.0 && Reachable(c, s) && Confined(s.rampSteps) && s.section.Ramp? && t < c.targets
    ensures Count(c.kind, For(t), s.workers) as real <= 16.0 * c.rate + 14.0
  {
    RampTotal(c, s);
    ReachableHolds(c, s);
    ReachableTimed(c, s);
    hide Reachable, Confined, Count, RampBatches, Tally, LimiterShape, Place, Spaced, Numbered, LogCount;
  }
}
