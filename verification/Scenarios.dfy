/** Runs put together step by step: through the ramp-up into the steady loop, and from one steady
    batch to the next at chosen times. They are the witnesses of the exact conditions. */
module Scenarios {
  import opened Options
  import opened Limiter
  import opened Machine
  import opened Accounting

  lemma NoSteps(c: Cfg, s: State)
    requires Runnable(c)
    ensures Run(c, s, []) == Some(s)
  {
  }

  lemma RunThen(c: Cfg, s: State, acts: seq<Action>, mid: State, a: Action, next: State)
    requires Runnable(c) && Run(c, s, acts) == Some(mid) && Step(c, mid, a) == Some(next)
    ensures Run(c, s, acts + [a]) == Some(next)
  {
    hide Step;
    RunAppend(c, s, acts, [a]);
    assert [a][1..] == [];
  }

  lemma RunJoin(c: Cfg, s: State, xs: seq<Action>, mid: State, ys: seq<Action>, s': State)
    requires Runnable(c) && Run(c, s, xs) == Some(mid) && Run(c, mid, ys) == Some(s')
    ensures Run(c, s, xs + ys) == Some(s')
  {
    RunAppend(c, s, xs, ys);
  }

  // ---------- into the steady loop ----------

  predicate Fresh(c: Cfg, s: State) {
    && !s.cancelled && s.batches == [] && s.workers == [] && s.wg == 0 && s.requestCount == 0 && s.now >= 0
    && (c.rate > 0.0 ==> s.limiter == NewBucket(c.rate, 1, 0))
  }

  /** One ramp step without a tick handled: the step timer fires after a second. */
  lemma IdleStep(c: Cfg, s: State) returns (acts: seq<Action>, s': State)
    requires Runnable(c) && Shape(c, s) && Fresh(c, s) && s.at == RampCheck && s.section.step < STEPS
    ensures Run(c, s, acts) == Some(s') && Fresh(c, s') && s'.at == RampCheck && s'.section == Ramp(s.section.step + 1)
    ensures Shape(c, s')
  {
    BeginStepShape(c, s);
    var s1 := BeginRampStep(c, s, s.section.step);
    assert Step(c, s, Main(Go)) == Some(s1);
    assert s1.at == Loop by { RateUp(c, s); }
    var s2 := s1.(now := s1.now + NANOS);
    assert Step(c, s1, Pass(NANOS)) == Some(s2);
    s' := Step(c, s2, Main(TakeTimer)).value;
    StepShape(c, s1, Pass(NANOS), s2);
    StepShape(c, s2, Main(TakeTimer), s');
    hide Step, Shape, Runnable;
    NoSteps(c, s);
    RunThen(c, s, [], s, Main(Go), s1);
    RunThen(c, s, [] + [Main(Go)], s1, Pass(NANOS), s2);
    RunThen(c, s, [] + [Main(Go)] + [Pass(NANOS)], s2, Main(TakeTimer), s');
    acts := [] + [Main(Go)] + [Pass(NANOS)] + [Main(TakeTimer)];
  }

  lemma RateUp(c: Cfg, s: State)
    requires Runnable(c) && Shape(c, s) && s.at == RampCheck && s.section.step < STEPS
    ensures BeginRampStep(c, s, s.section.step).at == Loop
  {
    LadderStep(c.rate, s.section.step);
    LadderStep(c.rate, s.section.step + 1);
    hide Ladder, LimiterShape;
  }

  lemma {:induction false} IdleRamp(c: Cfg, s: State) returns (acts: seq<Action>, s': State)
    requires Runnable(c) && Shape(c, s) && Fresh(c, s) && s.at == RampCheck
    ensures Run(c, s, acts) == Some(s') && Fresh(c, s') && s'.at == SteadyTicker && s'.section == Steady
    decreases STEPS - s.section.step
  {
    if s.section.step >= STEPS {
      s' := Step(c, s, Main(Go)).value;
      assert Run(c, s, []) == Some(s);
      RunThen(c, s, [], s, Main(Go), s');
      acts := [] + [Main(Go)];
    } else {
      var xs, mid := IdleStep(c, s);
      hide Run, Step;
      var ys, end := IdleRamp(c, mid);
      RunJoin(c, s, xs, mid, ys, end);
      acts, s' := xs + ys, end;
    }
  }

  /** The steady loop as it is entered, its ticker having been started `gap` before. */
  predicate Entered(c: Cfg, s: State, gap: nat)
    requires c.rate > 0.0
  {
    && Fresh(c, s) && s.at == Loop && s.section == Steady && s.now == s.startTime
    && s.ticker == NewTicker(s.startTime - gap, Interval(c.rate))
  }

  /** The steady loop's ticker started, the start time not yet read. */
  lemma ToClock(c: Cfg) returns (acts: seq<Action>, s: State)
    requires Runnable(c) && c.rate > 0.0
    ensures Run(c, Init(c), acts) == Some(s) && Fresh(c, s) && s.at == SteadyClock && s.section == Steady
    ensures s.ticker == NewTicker(s.now, Interval(c.rate))
  {
    InitHolds(c);
    var s0 := Init(c);
    var s1 := MainStep(c, s0, Go).value;
    StepShape(c, s0, Main(Go), s1);
    assert Fresh(c, s1) && (if c.rate > 1.0 then s1.at == RampCheck else s1.at == SteadyTicker && s1.section == Steady);
    assert Step(c, s0, Main(Go)) == Some(s1);
    hide Shape, Invariant, Init, Interval, Ladder;
    NoSteps(c, s0);
    RunThen(c, s0, [], s0, Main(Go), s1);
    hide Run;
    acts := [] + [Main(Go)];
    var s2 := s1;
    if c.rate > 1.0 {
      var more, end := IdleRamp(c, s1);
      RunJoin(c, s0, acts, s1, more, end);
      acts, s2 := acts + more, end;
    }
    s := s2.(ticker := NewTicker(s2.now, Interval(c.rate)), at := SteadyClock);
    assert Step(c, s2, Main(Go)) == Some(s);
    RunThen(c, s0, acts, s2, Main(Go), s);
    acts := acts + [Main(Go)];
  }

  lemma Enter(c: Cfg, gap: nat) returns (acts: seq<Action>, s: State)
    requires Runnable(c) && c.rate > 0.0
    ensures Run(c, Init(c), acts) == Some(s) && Entered(c, s, gap)
  {
    var xs, s3 := ToClock(c);
    hide Run, Init, Interval, Runnable;
    var s4 := s3.(now := s3.now + gap);
    RunThen(c, Init(c), xs, s3, Pass(gap), s4);
    s := s4.(startTime := s4.now, at := Loop);
    RunThen(c, Init(c), xs + [Pass(gap)], s4, Main(Go), s);
    acts := xs + [Pass(gap)] + [Main(Go)];
  }

  /** The same with a tick waiting in the channel: the first, which fired when it was due. */
  predicate Buffered(c: Cfg, s: State, gap: nat)
    requires c.rate > 0.0
  {
    && Fresh(c, s) && s.at == Loop && s.section == Steady && s.now == s.startTime
    && s.ticker == Ticker(s.startTime - gap, Interval(c.rate), 1, 0, true)
  }

  lemma FiresFirst(start: int, i: int)
    requires i >= 1
    ensures Due(NewTicker(start, i), start + i)
    ensures FireTicker(NewTicker(start, i), start + i) == Ticker(start, i, 1, 0, true)
  {
    assert 1 * i == i;
  }

  lemma EnterBuffered(c: Cfg, gap: nat) returns (acts: seq<Action>, s: State)
    requires Runnable(c) && c.rate > 0.0 && 1 <= Interval(c.rate) <= gap
    ensures Run(c, Init(c), acts) == Some(s) && Buffered(c, s, gap)
  {
    var i := Interval(c.rate);
    var xs, s3 := ToClock(c);
    hide Run, Init, Interval, Runnable;
    FiresFirst(s3.now, i);
    var s4 := s3.(now := s3.now + i);
    var s5 := s4.(ticker := Ticker(s3.now, i, 1, 0, true));
    hide Due, FireTicker;
    var s6 := s5.(now := s5.now + (gap - i));
    s := s6.(startTime := s6.now, at := Loop);
    AtSteadyClock(c, s6, Go);
    assert Step(c, s3, Pass(i)) == Some(s4) && Step(c, s4, Fire) == Some(s5) && Step(c, s5, Pass(gap - i)) == Some(s6);
    assert Step(c, s6, Main(Go)) == Some(s);
    hide Step, MainStep;
    RunThen(c, Init(c), xs, s3, Pass(i), s4);
    RunThen(c, Init(c), xs + [Pass(i)], s4, Fire, s5);
    RunThen(c, Init(c), xs + [Pass(i)] + [Fire], s5, Pass(gap - i), s6);
    RunThen(c, Init(c), xs + [Pass(i)] + [Fire] + [Pass(gap - i)], s6, Main(Go), s);
    acts := xs + [Pass(i)] + [Fire] + [Pass(gap - i)] + [Main(Go)];
  }

  // ---------- one steady batch ----------

  /** What matters of a state from one batch to the next. */
  predicate SameFrame(s: State, s': State) {
    s'.startTime == s.startTime && s'.cancelled == s.cancelled && s'.section == s.section
  }

  /** New steady workers about to send their requests, and nothing else new among the workers. */
  predicate Adds(s: State, s': State, n: nat) {
    && s'.requestCount == s.requestCount && |s'.workers| == |s.workers| + n
    && (forall i | 0 <= i < |s.workers| :: s'.workers[i] == s.workers[i])
    && (forall i | |s.workers| <= i < |s'.workers| :: s'.workers[i].work == Requesting && s'.workers[i].section == Steady)
  }

  lemma AddsOne(s: State, k: nat, s': State, n: nat)
    requires s.section == Steady && Adds(LaunchOne(s, k), s', n)
    ensures Adds(s, s', n + 1)
  {
    var w := LaunchOne(s, k).workers[|s.workers|];
    assert w.work == Requesting && w.section == Steady && s'.workers[|s.workers|] == w;
  }

  lemma {:induction false} LaunchAll(c: Cfg, s: State) returns (acts: seq<Action>, s': State)
    requires Runnable(c) && s.at.Launch? && s.at.k <= BatchSize(c, Steady) && s.section == Steady && s.batches != []
    requires s.batches[|s.batches| - 1].last == s.now
    ensures Run(c, s, acts) == Some(s') && s'.at == Check && SameFrame(s, s') && s'.now == s.now
    ensures s'.batches == s.batches && s'.ticker == s.ticker && s'.limiter == s.limiter
    ensures Adds(s, s', BatchSize(c, Steady) - s.at.k)
    decreases BatchSize(c, Steady) - s.at.k
  {
    if s.at.k == BatchSize(c, Steady) {
      s' := s.(at := Check);
      assert Step(c, s, Main(Go)) == Some(s');
      NoSteps(c, s);
      RunThen(c, s, [], s, Main(Go), s');
      acts := [] + [Main(Go)];
    } else {
      var next := LaunchOne(s, s.at.k);
      assert Step(c, s, Main(Go)) == Some(next);
      NoSteps(c, s);
      RunThen(c, s, [], s, Main(Go), next);
      hide Run, Step, BatchSize, Runnable;
      assert next.batches == s.batches;
      var more, end := LaunchAll(c, next);
      assert Adds(s, end, BatchSize(c, Steady) - s.at.k) by { AddsOne(s, s.at.k, end, BatchSize(c, Steady) - s.at.k - 1); }
      RunJoin(c, s, [] + [Main(Go)], next, more, end);
      acts, s' := [] + [Main(Go)] + more, end;
    }
  }

  /** A tick that fires and is received at `tick`. */
  function Taken(s: State, tick: int): State
    requires Due(s.ticker, tick)
  {
    s.(now := tick, recv := tick,
       ticker := FireTicker(s.ticker, tick).(full := false, received := s.ticker.received + 1))
  }

  lemma TakeOne(c: Cfg, s: State, tick: int) returns (acts: seq<Action>, s': State)
    requires Runnable(c) && s.at == Loop && s.section == Steady && s.now <= tick && Due(s.ticker, tick)
    ensures Run(c, s, acts) == Some(s')
    ensures s' == if c.kind == Http then Taken(s, tick).(at := WaitStart)
                  else Taken(s, tick).(at := Launch(0),
                                       batches := s.batches + [Batch(tick, tick as real, tick, tick, |s.workers|)])
  {
    var s1 := s.(now := tick);
    var s2 := s1.(ticker := FireTicker(s.ticker, tick));
    assert Step(c, s, Pass(tick - s.now)) == Some(s1);
    assert Step(c, s1, Fire) == Some(s2);
    s' := Step(c, s2, Main(TakeTick)).value;
    hide Step, Runnable, Due;
    NoSteps(c, s);
    RunThen(c, s, [], s, Pass(tick - s.now), s1);
    RunThen(c, s, [] + [Pass(tick - s.now)], s1, Fire, s2);
    RunThen(c, s, [] + [Pass(tick - s.now)] + [Fire], s2, Main(TakeTick), s');
    acts := [] + [Pass(tick - s.now)] + [Fire] + [Main(TakeTick)];
  }

  /** The limiter's wait, ended at `end`. */
  lemma WaitOne(c: Cfg, s: State, end: int) returns (acts: seq<Action>, s': State)
    requires Runnable(c) && s.at == WaitStart && s.section == Steady && !s.cancelled
    requires Limiter.Sound(s.limiter) && s.limiter.last <= s.now <= end && Reserve(s.limiter, s.now).1 <= end
    ensures Run(c, s, acts) == Some(s')
    ensures var b := Reserve(s.limiter, s.now).0;
            && Limiter.Sound(b)
            && s' == s.(now := end, limiter := b, at := Launch(0),
                        batches := s.batches + [Batch(s.recv, ZeroTime(b), end, end, |s.workers|)])
  {
    BucketIsSchedule(s.limiter, s.now);
    hide ZeroTime, Limiter.Sound, Reserve;
    var (b, act) := Reserve(s.limiter, s.now);
    var s1 := s.(limiter := b, at := Waiting(act, act > s.now));
    var s2 := s1.(now := end);
    assert Step(c, s, Main(Go)) == Some(s1);
    assert Step(c, s1, Pass(end - s.now)) == Some(s2);
    s' := OpenBatch(s2);
    assert Step(c, s2, Main(Go)) == Some(s');
    hide Step, Runnable;
    NoSteps(c, s);
    RunThen(c, s, [], s, Main(Go), s1);
    RunThen(c, s, [] + [Main(Go)], s1, Pass(end - s.now), s2);
    RunThen(c, s, [] + [Main(Go)] + [Pass(end - s.now)], s2, Main(Go), s');
    acts := [] + [Main(Go)] + [Pass(end - s.now)] + [Main(Go)];
  }

  /** When the token of a wait begun at `tick` is due: for the cloud-event generator at once. */
  function TokenAt(c: Cfg, s: State, tick: int): real
    requires c.rate > 0.0 && Limiter.Sound(s.limiter)
  {
    if c.kind == Http then Max(tick as real, ZeroTime(s.limiter) + Period(c.rate)) else tick as real
  }

  predicate Ready(c: Cfg, s: State) {
    && c.rate > 0.0 && s.section == Steady && !s.cancelled && Limiter.Sound(s.limiter) && s.limiter.last <= s.now
    && s.limiter.burst == 1 && s.limiter.rate == c.rate
  }

  /** A whole batch: its tick taken at `tick`, its requests launched at `end`. */
  lemma OneBatch(c: Cfg, s: State, tick: int, end: int) returns (acts: seq<Action>, s': State)
    requires Runnable(c) && Ready(c, s) && s.at == Loop && s.now <= tick && Due(s.ticker, tick)
    requires if c.kind == Http then tick <= end && TokenAt(c, s, tick) < (end + 1) as real else end == tick
    ensures Run(c, s, acts) == Some(s') && s'.at == Check && SameFrame(s, s') && s'.now == end && Ready(c, s')
    ensures |s'.batches| == |s.batches| + 1 && s'.batches[..|s.batches|] == s.batches
    ensures var b := s'.batches[|s.batches|]; b.recv == tick && b.begin == end && b.grant == TokenAt(c, s, tick)
    ensures c.kind == Http ==> ZeroTime(s'.limiter) == TokenAt(c, s, tick)
    ensures s'.ticker == Taken(s, tick).ticker && Adds(s, s', BatchSize(c, Steady))
  {
    BucketIsSchedule(s.limiter, tick);
    WaitEnds(s.limiter, tick);
    hide Reserve, ZeroTime, Step, Run, Due, Runnable, BatchSize, Period;
    var xs, s1 := TakeOne(c, s, tick);
    var s2 := s1;
    if c.kind == Http {
      var ys, t := WaitOne(c, s1, end);
      RunJoin(c, s, xs, s1, ys, t);
      xs, s2 := xs + ys, t;
    }
    assert s2.batches[..|s.batches|] == s.batches;
    var zs, end' := LaunchAll(c, s2);
    RunJoin(c, s, xs, s2, zs, end');
    acts, s' := xs + zs, end';
  }

  lemma GoOn(c: Cfg, s: State)
    requires Runnable(c) && s.at == Check && !DeadlinePassed(c, s)
    ensures Step(c, s, Main(Go)) == Some(s.(at := Loop))
  {
  }
}
