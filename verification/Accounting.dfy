/** What every interleaving of the generator keeps: a consistent control state, the WaitGroup's
    count, the pool's counters, the log, and the unsynchronised success counter. */
module Accounting {
  import opened Options
  import opened Limiter
  import opened Machine

  // ---------- counting workers ----------

  datatype Query =
    | Alive
    | HasOutcome(outcome: Outcome)
    | Ended(outcome: Outcome)   // it has left with that outcome
    | For(target: nat)
    | Called(target: nat)       // its request has reached the pool
    | Reported                  // it has written its success record
    | Stored                    // it has written requestCount

  predicate Settled(w: Work, o: Outcome) { w == Leaving(o) || w == Gone(o) }

  predicate Matches(kind: Kind, q: Query, w: Worker) {
    match q
    case Alive => !w.work.Gone?
    case HasOutcome(o) => Settled(w.work, o)
    case Ended(o) => w.work == Gone(o)
    case For(t) => w.target == t
    case Called(t) => w.target == t && !w.work.Requesting?
    case Reported => w.work.Counting? || w.work.Storing? || Settled(w.work, Succeeded)
    case Stored => kind == Http && w.section == Steady && Settled(w.work, Succeeded)
  }

  function Count(kind: Kind, q: Query, ws: seq<Worker>): nat {
    if ws == [] then 0
    else Count(kind, q, ws[..|ws| - 1]) + if Matches(kind, q, ws[|ws| - 1]) then 1 else 0
  }

  lemma CountAppend(kind: Kind, q: Query, ws: seq<Worker>, w: Worker)
    ensures Count(kind, q, ws + [w]) == Count(kind, q, ws) + if Matches(kind, q, w) then 1 else 0
  {
    assert (ws + [w])[..|ws|] == ws;
  }

  lemma {:induction false} CountUpdate(kind: Kind, q: Query, ws: seq<Worker>, i: nat, w: Worker)
    requires i < |ws|
    ensures Count(kind, q, ws[i := w])
         == Count(kind, q, ws) - (if Matches(kind, q, ws[i]) then 1 else 0) + if Matches(kind, q, w) then 1 else 0
  {
    hide Matches;
    var n := |ws| - 1;
    if i == n {
      assert ws[i := w][..n] == ws[..n];
    } else {
      CountUpdate(kind, q, ws[..n], i, w);
      assert ws[i := w][..n] == ws[..n][i := w];
    }
  }

  lemma {:induction false} CountZero(kind: Kind, q: Query, ws: seq<Worker>)
    ensures Count(kind, q, ws) == 0 <==> forall w | w in ws :: !Matches(kind, q, w)
    ensures Count(kind, q, ws) <= |ws|
  {
    hide Matches;
    if ws != [] {
      var n := |ws| - 1;
      CountZero(kind, q, ws[..n]);
      assert ws == ws[..n] + [ws[n]];
    }
  }

  // ---------- control and data shape ----------

  predicate InRamp(c: Cfg, s: State) {
    && s.section.Ramp? && s.section.step < STEPS && c.rate > 1.0
    && s.currentRate == Ladder(c.rate, s.section.step + 1) && |s.rampSteps| == s.section.step + 1
  }

  predicate InSteady(c: Cfg, s: State) { s.section == Steady && c.rate > 0.0 }

  predicate InThroughput(c: Cfg, s: State) { s.section == Throughput && c.kind == Http && c.rate == 0.0 }

  predicate Place(c: Cfg, s: State) {
    match s.at
    case Begin => s.section == Steady && s.rampSteps == []
    case RampCheck =>
      && s.section.Ramp? && s.section.step <= STEPS && c.rate > 1.0
      && s.currentRate == Ladder(c.rate, s.section.step) && |s.rampSteps| == s.section.step
    case Loop => InRamp(c, s) || InSteady(c, s) || InThroughput(c, s)
    case WaitStart => InRamp(c, s) || (InSteady(c, s) && c.kind == Http)
    case Waiting(_, _) => InRamp(c, s) || (InSteady(c, s) && c.kind == Http)
    case Launch(k) =>
      k <= BatchSize(c, s.section) && (InRamp(c, s) || (InSteady(c, s) && s.batches != []) || InThroughput(c, s))
    case Check => InSteady(c, s) || InThroughput(c, s)
    case SteadyTicker => InSteady(c, s)
    case SteadyClock => InSteady(c, s)
    case Stopping => s.cancelled
    case Joining(_) => true
    case Finished(_) => true
  }

  predicate LimiterShape(c: Cfg, s: State) {
    && Limiter.Sound(s.limiter) && s.limiter.burst == 1 && s.limiter.last <= s.now
    && (c.rate > 0.0 ==> s.limiter.rate == c.rate)
    && Limiter.Sound(s.local) && s.local.last <= s.now
  }

  predicate Shape(c: Cfg, s: State) {
    && |s.calls| == c.targets && (forall w | w in s.workers :: w.target < c.targets)
    && s.ticker.interval >= 1 && (c.rate > 0.0 ==> s.floods == 0)
    && LimiterShape(c, s) && Place(c, s)
  }

  lemma LadderStep(rate: real, i: nat)
    requires rate > 1.0
    ensures Ladder(rate, 0) == 1.0
    ensures Ladder(rate, i + 1) == Ladder(rate, i) + (rate - 1.0) / 15.0
    ensures Ladder(rate, i) >= 1.0
  {
    var d := (rate - 1.0) / 15.0;
    assert d > 0.0;
    assert (i + 1) as real * d == i as real * d + d;
    assert i as real * d >= 0.0;
  }

  lemma LadderBelow(rate: real, i: nat)
    requires rate > 1.0 && i <= STEPS
    ensures Ladder(rate, i) <= rate && (Ladder(rate, i) == rate <==> i == STEPS)
  {
    var d := (rate - 1.0) / 15.0;
    assert (15 - i) as real * d == 15.0 * d - i as real * d;
    assert (15 - i) as real * d >= 0.0;
    if i < STEPS {
      assert (15 - i) as real * d > 0.0;
    }
  }

  lemma Shrinks(p: real, x: real)
    requires p < 1.0 && x > 0.0
    ensures p * x < x
  {
    assert (1.0 - p) * x > 0.0;
  }

  lemma IntervalPositive(rate: real)
    requires 0.0 < rate <= MAX_RATE
    ensures Interval(rate) >= 1
  {
    var p := Period(rate);
    assert p * rate == Limiter.SECOND;
    if p < 1.0 {
      Shrinks(p, rate);
    }
  }

  lemma ReserveShape(b: Bucket, t: int)
    requires Limiter.Sound(b) && b.last <= t
    ensures var (b', act) := Reserve(b, t);
            Limiter.Sound(b') && b'.burst == b.burst && b'.rate == b.rate && b'.last == t && act >= t
  {
    BucketIsSchedule(b, t);
    WaitEnds(b, t);
    hide Advance, Limiter.Sound;
    var b' := Reserve(b, t).0;
    if ZeroTime(b') > t as real {
      assert ZeroTime(b').Floor >= t;
    }
  }

  lemma BeginStepShape(c: Cfg, s: State)
    requires Runnable(c) && Shape(c, s) && s.at == RampCheck && s.section.step < STEPS
    ensures Shape(c, BeginRampStep(c, s, s.section.step))
  {
    var i := s.section.step;
    LadderStep(c.rate, i);
    LadderStep(c.rate, i + 1);
    LadderBelow(c.rate, i + 1);
    IntervalPositive(Ladder(c.rate, i + 1));
    hide Ladder, Interval;
  }

  lemma WaitShape(c: Cfg, s: State, choice: Choice, s': State)
    requires Runnable(c) && Shape(c, s) && s.at == WaitStart && MainStep(c, s, choice) == Some(s')
    ensures Shape(c, s')
  {
    ReserveShape(BucketOf(s), s.now);
    hide Reserve, Limiter.Sound, Ladder;
  }

  lemma SteadyShape(c: Cfg, s: State, choice: Choice, s': State)
    requires Runnable(c) && Shape(c, s) && s.at == SteadyTicker && MainStep(c, s, choice) == Some(s')
    ensures Shape(c, s')
  {
    IntervalPositive(c.rate);
    hide Interval, Limiter.Sound, Ladder;
  }

  lemma LaunchShape(c: Cfg, s: State, k: nat)
    requires Runnable(c) && Shape(c, s) && s.at == Launch(k) && k < BatchSize(c, s.section)
    ensures Shape(c, LaunchOne(s, k))
  {
    hide Limiter.Sound, Ladder;
  }

  lemma LoopShape(c: Cfg, s: State, choice: Choice, s': State)
    requires Runnable(c) && Shape(c, s) && s.at == Loop && MainStep(c, s, choice) == Some(s')
    ensures Shape(c, s')
  {
    hide BeginRampStep, LaunchOne, Reserve, LimiterShape, Ladder, Interval, ZeroTimeOr;
    assert LimiterShape(c, s') by { SameLimiters(c, s, s'); }
  }

  lemma SameLimiters(c: Cfg, s: State, s': State)
    requires LimiterShape(c, s) && s'.limiter == s.limiter && s'.local == s.local && s'.now == s.now
    ensures LimiterShape(c, s')
  {
  }

  lemma CheckShape(c: Cfg, s: State, choice: Choice, s': State)
    requires Runnable(c) && Shape(c, s) && s.at == RampCheck && MainStep(c, s, choice) == Some(s')
    ensures Shape(c, s')
  {
    if s.section.step < STEPS && !s.cancelled {
      BeginStepShape(c, s);
    } else {
      hide BeginRampStep, Limiter.Sound, Ladder;
    }
  }

  lemma BeginShape(c: Cfg, s: State, choice: Choice, s': State)
    requires Runnable(c) && Shape(c, s) && s.at == Begin && MainStep(c, s, choice) == Some(s')
    ensures Shape(c, s')
  {
    if c.rate > 1.0 {
      LadderStep(c.rate, 0);
    }
    hide Limiter.Sound, Ladder;
  }

  lemma LaunchStepShape(c: Cfg, s: State, choice: Choice, s': State)
    requires Runnable(c) && Shape(c, s) && s.at.Launch? && MainStep(c, s, choice) == Some(s')
    ensures Shape(c, s')
  {
    if s.at.k < BatchSize(c, s.section) {
      LaunchShape(c, s, s.at.k);
    } else {
      hide LaunchOne, Limiter.Sound, Ladder;
    }
  }

  lemma EndShape(c: Cfg, s: State, choice: Choice, s': State)
    requires Runnable(c) && Shape(c, s) && MainStep(c, s, choice) == Some(s')
    requires s.at.Waiting? || s.at.Check? || s.at.SteadyClock? || s.at.Stopping? || s.at.Joining?
    ensures Shape(c, s')
  {
    hide LimiterShape, Ladder, ZeroTimeOr, DeadlinePassed, BeginRampStep, LaunchOne, Reserve;
    assert LimiterShape(c, s') by { SameLimiters(c, s, s'); }
  }

  lemma MainShape(c: Cfg, s: State, choice: Choice, s': State)
    requires Runnable(c) && Shape(c, s) && MainStep(c, s, choice) == Some(s')
    ensures Shape(c, s')
  {
    assert !s.at.Finished?;
    hide MainStep, Shape, Runnable;
    match s.at {
      case Begin => BeginShape(c, s, choice, s');
      case RampCheck => CheckShape(c, s, choice, s');
      case Loop => LoopShape(c, s, choice, s');
      case WaitStart => WaitShape(c, s, choice, s');
      case Launch(k) => LaunchStepShape(c, s, choice, s');
      case SteadyTicker => SteadyShape(c, s, choice, s');
      case _ => EndShape(c, s, choice, s');
    }
  }

  lemma StepShape(c: Cfg, s: State, a: Action, s': State)
    requires Runnable(c) && Shape(c, s) && Step(c, s, a) == Some(s')
    ensures Shape(c, s')
  {
    match a {
      case Main(choice) => MainShape(c, s, choice, s');
      case Work(w, answer) =>
        hide MainStep, WorkStep, Limiter.Sound, Ladder;
        assert forall x | x in s'.workers :: x in s.workers || x.target == s.workers[w].target;
        assert s.workers[w] in s.workers;
      case _ => hide MainStep, WorkerStep, Limiter.Sound, Ladder;
    }
  }

  // ---------- the books ----------

  function LogCount(log: seq<Event>, m: Message): nat {
    if log == [] then 0
    else LogCount(log[..|log| - 1], m) + if log[|log| - 1].message == m then 1 else 0
  }

  lemma LogCountAppend(log: seq<Event>, e: Event, m: Message)
    ensures LogCount(log + [e], m) == LogCount(log, m) + if e.message == m then 1 else 0
  {
    assert (log + [e])[..|log|] == log;
  }

  function RampBatches(steps: seq<RampStep>): nat {
    if steps == [] then 0 else RampBatches(steps[..|steps| - 1]) + steps[|steps| - 1].batches
  }

  /** The batches that include a target. */
  function BatchesFor(c: Cfg, s: State, t: nat): nat {
    RampBatches(s.rampSteps) + s.floods + if c.kind == Http || t == 0 then |s.batches| else 0
  }

  /** One batch in the middle of its launches may still owe a target its worker. */
  function Owed(c: Cfg, s: State, t: nat): nat {
    if s.at.Launch? && s.at.k <= t < BatchSize(c, s.section) then 1 else 0
  }

  /** Only the HTTP generator's steady workers count successes. */
  predicate CounterShape(kind: Kind, w: Worker) {
    w.work.Counting? || w.work.Storing? ==> kind == Http && w.section == Steady
  }

  /** Workers and what the rest of the system says of them. */
  predicate Books(c: Cfg, s: State) {
    && s.wg == Count(c.kind, Alive, s.workers)
    && LogCount(s.log, SuccessLine) == Count(c.kind, Reported, s.workers)
    && LogCount(s.log, FailedLine) == Count(c.kind, HasOutcome(Rejected), s.workers)
    && (forall w | w in s.workers :: CounterShape(c.kind, w))
    && |s.calls| == c.targets
    && (forall t: nat | t < c.targets :: s.calls[t] == Count(c.kind, Called(t), s.workers))
    && (forall t: nat | t < c.targets :: Count(c.kind, For(t), s.workers) + Owed(c, s, t) == BatchesFor(c, s, t))
  }

  /** The unsynchronised counter: a value read, and so a value written, never exceeds the number
      of increments already written. */
  predicate Tally(c: Cfg, s: State) {
    && s.requestCount <= Count(c.kind, Stored, s.workers)
    && (forall w | w in s.workers && w.work.Storing? :: w.work.read <= Count(c.kind, Stored, s.workers))
    && (Count(c.kind, Stored, s.workers) > 0 ==> s.requestCount > 0)
  }

  lemma {:induction false} CountMono(kind: Kind, p: Query, q: Query, ws: seq<Worker>)
    requires forall w | w in ws :: Matches(kind, p, w) ==> Matches(kind, q, w)
    ensures Count(kind, p, ws) <= Count(kind, q, ws)
  {
    hide Matches;
    if ws != [] {
      var n := |ws| - 1;
      assert ws == ws[..n] + [ws[n]];
      CountMono(kind, p, q, ws[..n]);
    }
  }

  // ---------- every step keeps them ----------

  /** A step that touches no worker, call, log line of a worker, or batch. */
  lemma QuietStep(c: Cfg, s: State, s': State)
    requires Books(c, s) && s'.workers == s.workers && s'.wg == s.wg && s'.calls == s.calls
    requires s'.log == s.log || s'.log == s.log + [Event(ProgressLine, None)]
    requires RampBatches(s'.rampSteps) == RampBatches(s.rampSteps) && s'.floods == s.floods && s'.batches == s.batches
    requires forall t: nat | t < c.targets :: Owed(c, s', t) == Owed(c, s, t)
    ensures Books(c, s')
  {
    hide Owed, CounterShape, Count;
    LogCountAppend(s.log, Event(ProgressLine, None), SuccessLine);
    LogCountAppend(s.log, Event(ProgressLine, None), FailedLine);
  }

  lemma RampBatchesAppend(steps: seq<RampStep>, r: RampStep)
    ensures RampBatches(steps + [r]) == RampBatches(steps) + r.batches
  {
    assert (steps + [r])[..|steps|] == steps;
  }

  lemma RampBatchesLast(steps: seq<RampStep>, r: RampStep)
    requires steps != []
    ensures RampBatches(steps[|steps| - 1 := r]) == RampBatches(steps) - steps[|steps| - 1].batches + r.batches
  {
    var n := |steps| - 1;
    assert steps[n := r][..n] == steps[..n];
  }

  /** Opening a batch owes every one of its targets a worker. */
  lemma OpenBooks(c: Cfg, s: State)
    requires Runnable(c) && Books(c, s) && Shape(c, s) && !s.at.Launch?
    requires InRamp(c, s) || (InSteady(c, s) && c.kind == Http) || InThroughput(c, s)
    ensures Books(c, OpenBatch(s))
  {
    hide Count, LogCount, ZeroTimeOr, CounterShape, LimiterShape, Ladder;
    if s.section.Ramp? {
      var n := |s.rampSteps| - 1;
      RampBatchesLast(s.rampSteps, s.rampSteps[n].(batches := s.rampSteps[n].batches + 1, last := s.recv));
    }
  }

  /** Launching a worker counts it as alive and as its target's, and as nothing else. */
  lemma LaunchCounts(kind: Kind, ws: seq<Worker>, w: Worker)
    requires w.work.Requesting?
    ensures Count(kind, Alive, ws + [w]) == Count(kind, Alive, ws) + 1
    ensures Count(kind, Reported, ws + [w]) == Count(kind, Reported, ws)
    ensures Count(kind, HasOutcome(Rejected), ws + [w]) == Count(kind, HasOutcome(Rejected), ws)
    ensures forall t: nat :: Count(kind, Called(t), ws + [w]) == Count(kind, Called(t), ws)
    ensures forall t: nat :: Count(kind, For(t), ws + [w]) == Count(kind, For(t), ws) + if t == w.target then 1 else 0
  {
    CountAppend(kind, Alive, ws, w);
    CountAppend(kind, Reported, ws, w);
    CountAppend(kind, HasOutcome(Rejected), ws, w);
    forall t: nat
      ensures Count(kind, Called(t), ws + [w]) == Count(kind, Called(t), ws)
      ensures Count(kind, For(t), ws + [w]) == Count(kind, For(t), ws) + if t == w.target then 1 else 0
    {
      CountAppend(kind, Called(t), ws, w);
      CountAppend(kind, For(t), ws, w);
    }
  }

  lemma LaunchOwes(c: Cfg, s: State, k: nat)
    requires s.at == Launch(k) && k < BatchSize(c, s.section)
    ensures forall t: nat ::
              Owed(c, LaunchOne(s, k), t) + (if t == k then 1 else 0) == Owed(c, s, t)
              && BatchesFor(c, LaunchOne(s, k), t) == BatchesFor(c, s, t)
  {
  }

  lemma LaunchFacts(s: State, k: nat)
    ensures var s' := LaunchOne(s, k);
            && s'.workers == s.workers + [Worker(s.section, k, s.now, Requesting)]
            && s'.wg == s.wg + 1 && s'.calls == s.calls && s'.log == s.log && s'.requestCount == s.requestCount
  {
  }

  lemma LaunchBooks(c: Cfg, s: State, k: nat)
    requires Books(c, s) && s.at == Launch(k) && k < BatchSize(c, s.section)
    ensures Books(c, LaunchOne(s, k))
  {
    var w := Worker(s.section, k, s.now, Requesting);
    LaunchFacts(s, k);
    LaunchCounts(c.kind, s.workers, w);
    LaunchOwes(c, s, k);
    hide LaunchOne, Count, Owed, BatchesFor, LogCount, BatchSize;
  }

  lemma TickBooks(c: Cfg, s: State, choice: Choice, s': State)
    requires Runnable(c) && Books(c, s) && Shape(c, s) && s.at == Loop && MainStep(c, s, choice) == Some(s')
    ensures Books(c, s')
  {
    if choice == Go {
      OpenBooks(c, s);
    } else if choice == TakeTick && c.kind == CloudEvent && s.section == Steady {
      hide Count, LogCount, CounterShape, LimiterShape, Ladder, OpenBatch, ZeroTimeOr;
    } else {
      hide Count, LogCount, CounterShape, LimiterShape, Ladder, OpenBatch, ZeroTimeOr, Books;
      QuietStep(c, s, s');
    }
  }

  lemma BeginFacts(c: Cfg, s: State, i: nat)
    requires c.rate > 1.0
    ensures var s' := BeginRampStep(c, s, i);
            && s'.workers == s.workers && s'.wg == s.wg && s'.calls == s.calls && s'.log == s.log
            && s'.floods == s.floods && s'.batches == s.batches
            && (s' == s || (s'.at == Loop && s'.rampSteps == s.rampSteps + [RampStep(s.now, 0, s.now)]))
  {
    hide NewBucket, Burst, Interval;
  }

  lemma NotLaunching(c: Cfg, s: State)
    requires !s.at.Launch?
    ensures forall t: nat :: Owed(c, s, t) == 0
  {
  }

  lemma RampBooks(c: Cfg, s: State, choice: Choice, s': State)
    requires Runnable(c) && Books(c, s) && Shape(c, s) && s.at == RampCheck && MainStep(c, s, choice) == Some(s')
    ensures Books(c, s')
  {
    AtRampCheck(c, s, choice);
    BeginFacts(c, s, s.section.step);
    RampBatchesAppend(s.rampSteps, RampStep(s.now, 0, s.now));
    NotLaunching(c, s);
    hide MainStep, Books, Shape, RampBatches, BeginRampStep, Owed, Runnable;
    NotLaunching(c, s');
    QuietStep(c, s, s');
  }

  lemma LaunchStepBooks(c: Cfg, s: State, choice: Choice, s': State)
    requires Runnable(c) && Books(c, s) && s.at.Launch? && MainStep(c, s, choice) == Some(s')
    ensures Books(c, s')
  {
    AtLaunch(c, s, choice);
    hide MainStep, Runnable, Books, LaunchOne, RampBatches;
    if s.at.k < BatchSize(c, s.section) {
      LaunchBooks(c, s, s.at.k);
    } else {
      QuietStep(c, s, s');
    }
  }

  lemma WaitBooks(c: Cfg, s: State, choice: Choice, s': State)
    requires Runnable(c) && Books(c, s) && Shape(c, s) && s.at.Waiting? && MainStep(c, s, choice) == Some(s')
    ensures Books(c, s')
  {
    hide Books, LimiterShape, Ladder, OpenBatch;
    if choice == Go {
      OpenBooks(c, s);
    } else {
      QuietStep(c, s, s');
    }
  }

  lemma MainBooks(c: Cfg, s: State, choice: Choice, s': State)
    requires Runnable(c) && Books(c, s) && Shape(c, s) && MainStep(c, s, choice) == Some(s')
    ensures Books(c, s')
  {
    match s.at {
      case Loop => hide *; TickBooks(c, s, choice, s');
      case RampCheck => hide *; RampBooks(c, s, choice, s');
      case Launch(_) => hide *; LaunchStepBooks(c, s, choice, s');
      case Waiting(_, _) => hide *; WaitBooks(c, s, choice, s');
      case _ =>
        hide Books, Shape, Runnable, OpenBatch, LaunchOne, Reserve, BeginRampStep, DeadlinePassed, RampBatches, BatchSize,
          ZeroTimeOr, Interval, Period, Limiter.Sound;
        QuietStep(c, s, s');
    }
  }

  /** The counts of a worker's step. */
  lemma WorkCounts(kind: Kind, ws: seq<Worker>, i: nat, w: Worker, count: nat, answer: Answer)
    requires i < |ws| && !ws[i].work.Gone? && CounterShape(kind, ws[i])
    requires w == ws[i].(work := WorkStep(kind, ws[i].section, ws[i].work, count, answer).0)
    ensures Count(kind, Alive, ws[i := w]) == Count(kind, Alive, ws) - if ws[i].work.Leaving? then 1 else 0
    ensures var line := WorkStep(kind, ws[i].section, ws[i].work, count, answer).1;
            && Count(kind, Reported, ws[i := w]) == Count(kind, Reported, ws) + (if line == Some(SuccessLine) then 1 else 0)
            && Count(kind, HasOutcome(Rejected), ws[i := w])
            == Count(kind, HasOutcome(Rejected), ws) + (if line == Some(FailedLine) then 1 else 0)
    ensures CounterShape(kind, w)
  {
    CountUpdate(kind, Alive, ws, i, w);
    CountUpdate(kind, Reported, ws, i, w);
    CountUpdate(kind, HasOutcome(Rejected), ws, i, w);
    hide Count;
  }

  lemma WorkCalls(kind: Kind, ws: seq<Worker>, i: nat, w: Worker, t: nat)
    requires i < |ws| && !ws[i].work.Gone? && w == ws[i].(work := w.work) && !w.work.Requesting?
    ensures Count(kind, Called(t), ws[i := w])
         == Count(kind, Called(t), ws) + if ws[i].work.Requesting? && ws[i].target == t then 1 else 0
    ensures Count(kind, For(t), ws[i := w]) == Count(kind, For(t), ws)
  {
    CountUpdate(kind, Called(t), ws, i, w);
    CountUpdate(kind, For(t), ws, i, w);
  }

  lemma WorkBooks(c: Cfg, s: State, w: nat, answer: Answer, s': State)
    requires Runnable(c) && Books(c, s) && Shape(c, s) && WorkerStep(c, s, w, answer) == Some(s')
    ensures Books(c, s')
  {
    hide LogCount, LimiterShape, Place, Owed, BatchesFor, Count, Runnable;
    var before, after := s.workers[w], s'.workers[w];
    assert before in s.workers;
    WorkCounts(c.kind, s.workers, w, after, s.requestCount, answer);
    var line := WorkStep(c.kind, before.section, before.work, s.requestCount, answer).1;
    assert !after.work.Requesting?;
    hide WorkStep;
    forall t: nat | t < c.targets
      ensures s'.calls[t] == Count(c.kind, Called(t), s'.workers)
      ensures Count(c.kind, For(t), s'.workers) == Count(c.kind, For(t), s.workers)
    {
      WorkCalls(c.kind, s.workers, w, after, t);
    }
    if line.Some? {
      LogCountAppend(s.log, Event(line.value, Some(w)), SuccessLine);
      LogCountAppend(s.log, Event(line.value, Some(w)), FailedLine);
    }
    assert forall x | x in s'.workers :: x in s.workers || x == after;
    SameBatches(c, s, s');
  }

  lemma SameBatches(c: Cfg, s: State, s': State)
    requires s'.at == s.at && s'.section == s.section && s'.rampSteps == s.rampSteps
    requires s'.floods == s.floods && s'.batches == s.batches
    ensures forall t: nat :: Owed(c, s', t) == Owed(c, s, t) && BatchesFor(c, s', t) == BatchesFor(c, s, t)
  {
  }

  lemma StepBooks(c: Cfg, s: State, a: Action, s': State)
    requires Runnable(c) && Books(c, s) && Shape(c, s) && Step(c, s, a) == Some(s')
    ensures Books(c, s')
  {
    match a {
      case Main(choice) => hide *; MainBooks(c, s, choice, s');
      case Work(w, answer) => hide *; WorkBooks(c, s, w, answer, s');
      case _ =>
        hide MainStep, WorkerStep, Books, Shape;
        QuietStep(c, s, s');
    }
  }

  /** Steps of anything but a worker only ever add requests that have not run. */
  ghost predicate Extends(s: State, s': State) {
    && s'.requestCount == s.requestCount
    && (s'.workers == s.workers
        || (exists w: Worker :: w.work.Requesting? && s'.workers == s.workers + [w]))
  }

  lemma MainExtends(c: Cfg, s: State, choice: Choice, s': State)
    requires Runnable(c) && MainStep(c, s, choice) == Some(s')
    ensures Extends(s, s')
  {
    hide Reserve, Limiter.Sound, ZeroTimeOr, DeadlinePassed, Interval, Period, BatchSize, Runnable, NewBucket, LaunchOne;
    if s.at.Launch? {
      AtLaunch(c, s, choice);
      hide MainStep;
      LaunchFacts(s, s.at.k);
      assert Worker(s.section, s.at.k, s.now, Requesting).work.Requesting?;
    }
  }

  lemma ExtendsTally(c: Cfg, s: State, s': State)
    requires Tally(c, s) && Extends(s, s')
    ensures Tally(c, s')
  {
    if s'.workers != s.workers {
      var w: Worker :| w.work.Requesting? && s'.workers == s.workers + [w];
      CountAppend(c.kind, Stored, s.workers, w);
      assert !Matches(c.kind, Stored, w);
      hide Count, Matches, Extends;
      assert forall x | x in s'.workers :: x in s.workers || x == w;
    }
  }

  lemma WorkTally(c: Cfg, s: State, w: nat, answer: Answer, s': State)
    requires Books(c, s) && Tally(c, s) && WorkerStep(c, s, w, answer) == Some(s')
    ensures Tally(c, s')
  {
    hide LogCount, Owed, BatchesFor, Count;
    var before, after := s.workers[w], s'.workers[w];
    assert before in s.workers;
    CountUpdate(c.kind, Stored, s.workers, w, after);
    assert forall x | x in s'.workers :: x in s.workers || x == after;
  }

  lemma StepTally(c: Cfg, s: State, a: Action, s': State)
    requires Runnable(c) && Books(c, s) && Tally(c, s) && Step(c, s, a) == Some(s')
    ensures Tally(c, s')
  {
    hide MainStep, WorkerStep, Books, Tally;
    match a {
      case Main(choice) => MainExtends(c, s, choice, s'); ExtendsTally(c, s, s');
      case Work(w, answer) => WorkTally(c, s, w, answer, s');
      case _ => ExtendsTally(c, s, s');
    }
  }

  // ---------- every run keeps them ----------

  predicate Invariant(c: Cfg, s: State) {
    Shape(c, s) && Books(c, s) && Tally(c, s) && (s.at.Finished? ==> s.wg == 0)
  }

  lemma InitHolds(c: Cfg)
    requires Runnable(c)
    ensures Invariant(c, Init(c))
  {
  }

  /** When the count is zero no worker can move. */
  lemma AllGone(c: Cfg, s: State)
    requires Books(c, s) && s.wg == 0
    ensures forall w | w in s.workers :: w.work.Gone?
  {
    CountZero(c.kind, Alive, s.workers);
    hide Count, LogCount, Owed, BatchesFor;
    assert forall w | w in s.workers :: !Matches(c.kind, Alive, w);
  }

  /** Only from wg.Wait, at zero, does Start return. */
  lemma FinishesAtZero(c: Cfg, s: State, choice: Choice, s': State)
    requires Runnable(c) && MainStep(c, s, choice) == Some(s') && s'.at.Finished?
    ensures s'.wg == 0
  {
    hide Reserve, Limiter.Sound, BatchSize, Interval, DeadlinePassed, ZeroTimeOr, NewBucket, Burst, Runnable;
  }

  lemma FinishedAtZero(c: Cfg, s: State, a: Action, s': State)
    requires Runnable(c) && Step(c, s, a) == Some(s') && s'.at.Finished?
    requires s.at.Finished? ==> s.wg == 0 && forall w | w in s.workers :: w.work.Gone?
    ensures s'.wg == 0
  {
    hide MainStep, WorkStep, Runnable;
    if a.Main? {
      FinishesAtZero(c, s, a.choice, s');
    }
    assert forall i | 0 <= i < |s.workers| :: s.workers[i] in s.workers;
  }

  lemma StepHolds(c: Cfg, s: State, a: Action, s': State)
    requires Runnable(c) && Invariant(c, s) && Step(c, s, a) == Some(s')
    ensures Invariant(c, s')
  {
    hide Shape, Books, Tally, Step, Runnable;
    StepShape(c, s, a, s');
    StepBooks(c, s, a, s');
    StepTally(c, s, a, s');
    if s'.at.Finished? {
      if s.at.Finished? {
        AllGone(c, s);
      }
      FinishedAtZero(c, s, a, s');
    }
  }

  lemma {:induction false} RunHolds(c: Cfg, s: State, acts: seq<Action>, s': State)
    requires Runnable(c) && Invariant(c, s) && Run(c, s, acts) == Some(s')
    ensures Invariant(c, s')
    decreases |acts|
  {
    hide Invariant, Step, Runnable;
    if acts != [] {
      var next := Step(c, s, acts[0]).value;
      StepHolds(c, s, acts[0], next);
      RunHolds(c, next, acts[1..], s');
    }
  }

  lemma ReachableHolds(c: Cfg, s: State)
    requires Runnable(c) && Reachable(c, s)
    ensures Invariant(c, s)
  {
    var acts :| Run(c, Init(c), acts) == Some(s);
    InitHolds(c);
    RunHolds(c, Init(c), acts, s);
  }
}
