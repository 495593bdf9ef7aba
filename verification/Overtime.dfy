/** A step of the ramp-up need not end with its second: while its ticker has a tick the select may
    take that and leave the timer waiting. */
module Overtime {
  import opened Options
  import opened Limiter
  import opened Machine
  import opened Accounting
  import opened Pacing
  import opened Scenarios
  import opened Ramp

  /** In the first step of the ramp-up, after n batches. */
  predicate Stepping(c: Cfg, s: State, n: nat) {
    && Shape(c, s) && s.section == Section.Ramp(0) && !s.cancelled && !s.ticker.full
    && |s.rampSteps| == 1 && s.rampSteps[0].batches == n
  }

  lemma FirstStep(c: Cfg) returns (acts: seq<Action>, s: State)
    requires Runnable(c) && c.rate > 1.0
    ensures Run(c, Init(c), acts) == Some(s) && Stepping(c, s, 0) && s.at == Loop
  {
    InitHolds(c);
    var s0 := Init(c);
    var s1 := MainStep(c, s0, Go).value;
    StepShape(c, s0, Main(Go), s1);
    RateUp(c, s1);
    var s2 := BeginRampStep(c, s1, 0);
    BeginStepShape(c, s1);
    assert Step(c, s0, Main(Go)) == Some(s1) && Step(c, s1, Main(Go)) == Some(s2);
    assert Stepping(c, s2, 0) by { hide Shape, Ladder, Interval, Burst; }
    hide Step, Run, Stepping, Init, Invariant, Shape;
    NoSteps(c, s0);
    RunThen(c, s0, [], s0, Main(Go), s1);
    RunThen(c, s0, [] + [Main(Go)], s1, Main(Go), s2);
    acts, s := [] + [Main(Go)] + [Main(Go)], s2;
  }

  lemma FiresBy(t: Ticker, now: int) returns (tick: int)
    requires t.interval >= 1
    ensures tick >= now && Due(t, tick)
  {
    var due := t.start + (t.fired + 1) * t.interval;
    tick := if due > now then due else now;
  }

  lemma TickStep(c: Cfg, s: State, n: nat) returns (acts: seq<Action>, s': State)
    requires Runnable(c) && Stepping(c, s, n) && s.at == Loop
    ensures Run(c, s, acts) == Some(s') && Stepping(c, s', n) && s'.at == WaitStart
  {
    hide LimiterShape, Ladder, Runnable;
    var tick := FiresBy(s.ticker, s.now);
    var s1 := s.(now := tick);
    var s2 := s1.(ticker := FireTicker(s.ticker, tick));
    var t := s2.ticker;
    s' := s2.(ticker := t.(full := false, received := t.received + 1), recv := tick, at := WaitStart);
    AtRampLoop(c, s2, TakeTick);
    assert Step(c, s, Pass(tick - s.now)) == Some(s1) && Step(c, s1, Fire) == Some(s2) && Step(c, s2, Main(TakeTick)) == Some(s');
    hide Step, Run, FireTicker, Due, MainStep, Shape;
    StepShape(c, s, Pass(tick - s.now), s1);
    StepShape(c, s1, Fire, s2);
    StepShape(c, s2, Main(TakeTick), s');
    NoSteps(c, s);
    RunThen(c, s, [], s, Pass(tick - s.now), s1);
    RunThen(c, s, [] + [Pass(tick - s.now)], s1, Fire, s2);
    RunThen(c, s, [] + [Pass(tick - s.now)] + [Fire], s2, Main(TakeTick), s');
    acts := [] + [Pass(tick - s.now)] + [Fire] + [Main(TakeTick)];
  }

  lemma TokenStep(c: Cfg, s: State, n: nat) returns (acts: seq<Action>, s': State)
    requires Runnable(c) && Stepping(c, s, n) && s.at == WaitStart
    ensures Run(c, s, acts) == Some(s') && Stepping(c, s', n + 1) && s'.at == Launch(0)
  {
    assert Limiter.Sound(BucketOf(s)) && BucketOf(s).last <= s.now;
    hide LimiterShape, Ladder, Runnable, Reserve, Limiter.Sound;
    AtWaitStart(c, s, Go);
    var (b, act) := Reserve(BucketOf(s), s.now);
    var s1 := WithBucket(s, b).(at := Waiting(act, act > s.now));
    var wait := if act > s.now then act - s.now else 0;
    var s2 := s1.(now := s1.now + wait);
    AtWaiting(c, s2, Go);
    s' := OpenBatch(s2);
    assert Step(c, s, Main(Go)) == Some(s1) && Step(c, s1, Pass(wait)) == Some(s2) && Step(c, s2, Main(Go)) == Some(s');
    hide Step, Run, MainStep, Shape;
    StepShape(c, s, Main(Go), s1);
    StepShape(c, s1, Pass(wait), s2);
    StepShape(c, s2, Main(Go), s');
    NoSteps(c, s);
    RunThen(c, s, [], s, Main(Go), s1);
    RunThen(c, s, [] + [Main(Go)], s1, Pass(wait), s2);
    RunThen(c, s, [] + [Main(Go)] + [Pass(wait)], s2, Main(Go), s');
    acts := [] + [Main(Go)] + [Pass(wait)] + [Main(Go)];
  }

  lemma {:induction false} LaunchStep(c: Cfg, s: State, n: nat) returns (acts: seq<Action>, s': State)
    requires Runnable(c) && Stepping(c, s, n) && s.at.Launch?
    ensures Run(c, s, acts) == Some(s') && Stepping(c, s', n) && s'.at == Loop
    decreases c.targets - (if s.at.Launch? then s.at.k else 0)
  {
    hide LimiterShape, Ladder, Runnable;
    AtLaunch(c, s, Go);
    var next := if s.at.k < c.targets then LaunchOne(s, s.at.k) else s.(at := Loop);
    assert Step(c, s, Main(Go)) == Some(next);
    assert next.at == if s.at.k < c.targets then Launch(s.at.k + 1) else Loop;
    hide Step, Run, MainStep, Shape;
    StepShape(c, s, Main(Go), next);
    NoSteps(c, s);
    RunThen(c, s, [], s, Main(Go), next);
    assert Stepping(c, next, n);
    if next.at == Loop {
      acts, s' := [] + [Main(Go)], next;
    } else {
      hide LaunchOne, Stepping;
      var more, end := LaunchStep(c, next, n);
      RunJoin(c, s, [] + [Main(Go)], next, more, end);
      acts, s' := [] + [Main(Go)] + more, end;
    }
  }

  lemma {:induction false} LongStep(c: Cfg, n: nat) returns (acts: seq<Action>, s: State)
    requires Runnable(c) && c.rate > 1.0
    ensures Run(c, Init(c), acts) == Some(s) && Stepping(c, s, n) && s.at == Loop
    decreases n
  {
    hide Run, Init, Stepping, Runnable;
    if n == 0 {
      acts, s := FirstStep(c);
    } else {
      var xs, s0 := LongStep(c, n - 1);
      var ys, s1 := TickStep(c, s0, n - 1);
      RunJoin(c, Init(c), xs, s0, ys, s1);
      var zs, s2 := TokenStep(c, s1, n - 1);
      RunJoin(c, Init(c), xs + ys, s1, zs, s2);
      var ws, s3 := LaunchStep(c, s2, n);
      RunJoin(c, Init(c), xs + ys + zs, s2, ws, s3);
      acts, s := xs + ys + zs + ws, s3;
    }
  }

  /** Without the confinement there is no bound at all: the first step alone may launch any number of
      batches, and then it has outlasted its second. */
  lemma RampOutlasts(c: Cfg, n: nat) returns (s: State)
    requires Runnable(c) && c.rate > 1.0
    ensures Reachable(c, s) && s.section == Section.Ramp(0) && RampBatches(s.rampSteps) == n
    ensures n as real > 16.0 * c.rate + 14.0 ==> !Confined(s.rampSteps)
  {
    var acts;
    acts, s := LongStep(c, n);
    OneStep(s.rampSteps);
    hide Shape, Run, Init, Runnable, Confined, RampBatches;
    assert Run(c, Init(c), acts) == Some(s);
    if Confined(s.rampSteps) {
      RampTotal(c, s);
    }
  }

  lemma OneStep(steps: seq<RampStep>)
    requires |steps| == 1
    ensures RampBatches(steps) == steps[0].batches
  {
    assert steps[..0] == [];
  }
}
