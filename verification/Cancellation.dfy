/** What is still launched after cancellation. A select may prefer a ready tick to the closed Done
    channel, and a cancelled ramp-up lets run continue; yet the HTTP generator launches at most one
    more batch, because a limiter wait that begins after cancellation fails. The cloud-event
    generator has no limiter in its steady loop, and no such bound. */
module Cancellation {
  import opened Options
  import opened Limiter
  import opened Machine
  import opened Accounting
  import opened Progress
  import opened Scenarios

  /** What the batch under way still launches. */
  function Budget(c: Cfg, s: State): (b: nat)
    ensures b <= c.targets
  {
    match s.at
    case Waiting(_, _) => c.targets
    case Launch(k) => if k <= c.targets then c.targets - k else 0
    case _ => 0
  }

  function Pending(c: Cfg, s: State, t: nat): (b: nat)
    ensures b <= 1
  {
    match s.at
    case Waiting(_, _) => if t < c.targets then 1 else 0
    case Launch(k) => if k <= t < c.targets then 1 else 0
    case _ => 0
  }

  predicate Spends(c: Cfg, s: State, s': State, t: nat) {
    && |s'.workers| + Budget(c, s') <= |s.workers| + Budget(c, s)
    && Count(c.kind, For(t), s'.workers) + Pending(c, s', t) <= Count(c.kind, For(t), s.workers) + Pending(c, s, t)
  }

  lemma LaunchSpends(c: Cfg, s: State, choice: Choice, s': State, t: nat)
    requires Runnable(c) && Place(c, s) && s.at.Launch? && c.kind == Http && MainStep(c, s, choice) == Some(s')
    ensures Spends(c, s, s', t)
  {
    AtLaunch(c, s, choice);
    LaunchFacts(s, s.at.k);
    CountAppend(c.kind, For(t), s.workers, Worker(s.section, s.at.k, s.now, Requesting));
    hide MainStep, Count, Runnable, Ladder;
  }

  lemma MainSpends(c: Cfg, s: State, choice: Choice, s': State, t: nat)
    requires Runnable(c) && Place(c, s) && c.kind == Http && s.cancelled && MainStep(c, s, choice) == Some(s')
    ensures Spends(c, s, s', t)
  {
    if s.at.Launch? {
      hide *;
      LaunchSpends(c, s, choice, s', t);
    } else {
      QuietSpends(c, s, choice, s', t);
      hide MainStep, Place, Runnable, Count;
    }
  }

  /** Nothing else launches, and after cancellation nothing new is owed. */
  lemma QuietSpends(c: Cfg, s: State, choice: Choice, s': State, t: nat)
    requires Runnable(c) && Place(c, s) && c.kind == Http && s.cancelled && !s.at.Launch? && MainStep(c, s, choice) == Some(s')
    ensures s'.workers == s.workers && Budget(c, s') <= Budget(c, s) && Pending(c, s', t) <= Pending(c, s, t)
  {
    hide LaunchOne, Reserve, Limiter.Sound, ZeroTimeOr, DeadlinePassed, Interval, Ladder, Period, BatchSize, Runnable, NewBucket,
      BeginRampStep, NewTicker, Burst;
  }

  lemma StepSpends(c: Cfg, s: State, a: Action, s': State, t: nat)
    requires Runnable(c) && Shape(c, s) && c.kind == Http && s.cancelled && Step(c, s, a) == Some(s')
    ensures Spends(c, s, s', t) && s'.cancelled
  {
    match a {
      case Main(choice) =>
        hide MainStep, Runnable, Shape, Spends;
        MainSpends(c, s, choice, s', t);
        StaysCancelled(c, s, choice, s');
      case Work(w, _) =>
        CountUpdate(c.kind, For(t), s.workers, w, s'.workers[w]);
        hide MainStep, WorkStep, Count, Shape, Runnable;
      case _ => hide MainStep, WorkerStep, Shape, Count, Runnable;
    }
  }

  /** After cancellation the HTTP generator launches no more than the rest of the one batch whose
      wait had begun: at most n requests, at most one to each target. */
  lemma {:induction false} AfterCancel(c: Cfg, s: State, acts: seq<Action>, s': State, t: nat)
    requires Runnable(c) && Invariant(c, s) && c.kind == Http && s.cancelled && Run(c, s, acts) == Some(s')
    ensures Spends(c, s, s', t)
    ensures |s'.workers| <= |s.workers| + c.targets
    ensures Count(c.kind, For(t), s'.workers) <= Count(c.kind, For(t), s.workers) + 1
    decreases |acts|
  {
    hide Step, Shape, Books, Tally, Count, Runnable, Budget, Pending;
    if acts != [] {
      var next := Step(c, s, acts[0]).value;
      StepSpends(c, s, acts[0], next, t);
      StepHolds(c, s, acts[0], next);
      AfterCancel(c, next, acts[1..], s', t);
    }
  }

  ghost predicate OneMoreBatch(c: Cfg)
    requires Runnable(c)
  {
    forall s, acts, s', t: nat ::
      Reachable(c, s) && s.cancelled && Run(c, s, acts) == Some(s')
      ==> Count(c.kind, For(t), s'.workers) <= Count(c.kind, For(t), s.workers) + 1
  }

  // ---------- the cloud-event generator ----------

  /** In its steady loop, cancelled. */
  predicate Deaf(c: Cfg, s: State) {
    c.kind == CloudEvent && InSteady(c, s) && s.at == Loop && s.cancelled && s.ticker.interval >= 1
  }

  /** The next tick is preferred to the closed Done channel, and its request is launched. */
  lemma LaunchAnother(c: Cfg, s: State) returns (acts: seq<Action>, s': State)
    requires Runnable(c) && Deaf(c, s)
    ensures Run(c, s, acts) == Some(s') && s'.at == Check
    ensures |s'.workers| == |s.workers| + 1
    ensures Count(c.kind, For(0), s'.workers) == Count(c.kind, For(0), s.workers) + 1
    ensures Deaf(c, s'.(at := Loop)) && s'.startTime == s.startTime
    ensures Due(s.ticker, s.now) ==> s'.now == s.now
  {
    hide Run, Count, MainStep, Runnable;
    var due := s.ticker.start + (s.ticker.fired + 1) * s.ticker.interval;
    var tick := if due > s.now then due else s.now;
    var xs, s1 := TakeOne(c, s, tick);
    var s2 := LaunchOne(s1, 0);
    CountAppend(c.kind, For(0), s.workers, Worker(Steady, 0, tick, Requesting));
    s' := s2.(at := Check);
    AtLaunch(c, s1, Go);
    AtLaunch(c, s2, Go);
    RunThen(c, s, xs, s1, Main(Go), s2);
    RunThen(c, s, xs + [Main(Go)], s2, Main(Go), s');
    acts := xs + [Main(Go)] + [Main(Go)];
  }

  function Stopped(c: Cfg): State
    requires Runnable(c)
  {
    Init(c).(cancelled := true)
  }

  /** Stop called at once: a cancelled ramp-up returns nil, and run goes on into its steady loop. */
  lemma BecomeDeaf(c: Cfg) returns (acts: seq<Action>, s: State)
    requires Runnable(c) && c.kind == CloudEvent
    ensures Run(c, Stopped(c), acts) == Some(s) && Deaf(c, s) && s.workers == []
    ensures s.startTime == s.now && Due(s.ticker, s.now)
  {
    IntervalPositive(c.rate);
    hide Run, Count, ZeroTimeOr, BeginRampStep, Reserve, Limiter.Sound, Interval, NewBucket;
    var s0 := Stopped(c);
    var s1 := MainStep(c, s0, Go).value;
    assert Run(c, s0, []) == Some(s0) by { NoSteps(c, s0); }
    RunThen(c, s0, [], s0, Main(Go), s1);
    acts := [] + [Main(Go)];
    var s2 := if c.rate > 1.0 then s1.(section := Steady, at := SteadyTicker) else s1;
    if c.rate > 1.0 {
      RunThen(c, s0, acts, s1, Main(Go), s2);
      acts := acts + [Main(Go)];
    }
    var s3 := MainStep(c, s2, Go).value;
    RunThen(c, s0, acts, s2, Main(Go), s3);
    acts := acts + [Main(Go)];
    var dt := Interval(c.rate);
    var s4 := s3.(now := s3.now + dt);
    RunThen(c, s0, acts, s3, Pass(dt), s4);
    acts := acts + [Pass(dt)];
    s := s4.(startTime := s4.now, at := Loop);
    RunThen(c, s0, acts, s4, Main(Go), s);
    acts := acts + [Main(Go)];
  }

  lemma StoppedReachable(c: Cfg)
    requires Runnable(c)
    ensures Reachable(c, Stopped(c)) && Stopped(c).cancelled && Stopped(c).workers == []
  {
    assert Run(c, Init(c), []) == Some(Init(c));
    assert Step(c, Init(c), Cancel) == Some(Stopped(c));
    RunThen(c, Init(c), [], Init(c), Cancel, Stopped(c));
  }

  /** Two batches after Stop. */
  lemma TwoMoreBatches(c: Cfg)
    requires Runnable(c) && c.kind == CloudEvent
    ensures !OneMoreBatch(c)
  {
    hide Run, Count, Step, Init, Runnable;
    var s0 := Stopped(c);
    var acts, s1 := BecomeDeaf(c);
    var more, s2 := LaunchAnother(c, s1);
    RunJoin(c, s0, acts, s1, more, s2);
    var s3 := s2.(at := Loop);
    GoOn(c, s2);
    RunThen(c, s0, acts + more, s2, Main(Go), s3);
    var again, s4 := LaunchAnother(c, s3);
    RunJoin(c, s0, acts + more + [Main(Go)], s3, again, s4);
    StoppedReachable(c);
    assert Count(c.kind, For(0), s4.workers) == Count(c.kind, For(0), []) + 2;
    hide Deaf, DeadlinePassed, Due;
    assert Count(c.kind, For(0), s4.workers) > Count(c.kind, For(0), s0.workers) + 1;
  }

  /** At most one more request per target after Stop: so it is for the HTTP generator in all its
      modes, and for no configuration of the cloud-event generator. */
  lemma CancellationSafety(c: Cfg)
    requires Runnable(c)
    ensures OneMoreBatch(c) <==> c.kind == Http
  {
    if c.kind == Http {
      forall s, acts, s', t: nat | Reachable(c, s) && s.cancelled && Run(c, s, acts) == Some(s')
        ensures Count(c.kind, For(t), s'.workers) <= Count(c.kind, For(t), s.workers) + 1
      {
        ReachableHolds(c, s);
        hide Run, Count, Reachable, Invariant;
        AfterCancel(c, s, acts, s', t);
      }
    } else {
      hide OneMoreBatch;
      TwoMoreBatches(c);
    }
  }

  /** Without a deadline the cloud-event generator may launch any number more. */
  lemma {:induction false} ManyMore(c: Cfg, s: State, n: nat) returns (acts: seq<Action>, s': State)
    requires Runnable(c) && Deaf(c, s) && c.duration <= 0
    ensures Run(c, s, acts) == Some(s') && Deaf(c, s') && |s'.workers| == |s.workers| + n
  {
    hide Count, Step, Runnable, Deaf, Due;
    if n == 0 {
      acts, s' := [], s;
    } else {
      var xs, mid := ManyMore(c, s, n - 1);
      hide Run;
      var ys, next := LaunchAnother(c, mid);
      RunJoin(c, s, xs, mid, ys, next);
      s' := next.(at := Loop);
      GoOn(c, next);
      RunThen(c, s, xs + ys, next, Main(Go), s');
      acts := xs + ys + [Main(Go)];
    }
  }

  // ---------- when Stop's return is the end ----------

  /** No continuation launches a worker. */
  ghost predicate Quiesced(c: Cfg, s: State)
    requires Runnable(c)
  {
    forall acts, s' :: Run(c, s, acts) == Some(s') ==> |s'.workers| == |s.workers|
  }

  lemma {:induction false} WorkersGrow(c: Cfg, s: State, acts: seq<Action>, s': State)
    requires Runnable(c) && Run(c, s, acts) == Some(s')
    ensures |s.workers| <= |s'.workers|
    decreases |acts|
  {
    hide Step, Runnable;
    if acts != [] {
      var next := Step(c, s, acts[0]).value;
      StepGrows(c, s, acts[0], next);
      WorkersGrow(c, next, acts[1..], s');
    }
  }

  lemma StepGrows(c: Cfg, s: State, a: Action, s': State)
    requires Runnable(c) && Step(c, s, a) == Some(s')
    ensures |s.workers| <= |s'.workers|
  {
    match a {
      case Main(choice) => MainExtends(c, s, choice, s'); hide MainStep, Runnable;
      case _ => hide MainStep, WorkStep, Runnable;
    }
  }

  /** The rest of the batch under way is launched. */
  lemma Finishes(c: Cfg, s: State) returns (acts: seq<Action>, s': State)
    requires Runnable(c) && c.kind == Http && Budget(c, s) > 0
    ensures Run(c, s, acts) == Some(s') && |s'.workers| > |s.workers|
  {
    hide Run, ZeroTimeOr, Runnable;
    NoSteps(c, s);
    if s.at.Launch? {
      s' := LaunchOne(s, s.at.k);
      RunThen(c, s, [], s, Main(Go), s');
      acts := [] + [Main(Go)];
    } else {
      var dt := if s.at.act > s.now then s.at.act - s.now else 0;
      var s1 := s.(now := s.now + dt);
      var s2 := OpenBatch(s1);
      RunThen(c, s, [], s, Pass(dt), s1);
      RunThen(c, s, [] + [Pass(dt)], s1, Main(Go), s2);
      s' := LaunchOne(s2, 0);
      hide OpenBatch;
      assert s2.at == Launch(0) && s2.section == s.section && s2.workers == s.workers by { Opened(s1); }
      RunThen(c, s, [] + [Pass(dt)] + [Main(Go)], s2, Main(Go), s');
      acts := [] + [Pass(dt)] + [Main(Go)] + [Main(Go)];
    }
  }

  lemma Opened(s: State)
    ensures var s' := OpenBatch(s); s'.at == Launch(0) && s'.section == s.section && s'.workers == s.workers
  {
  }

  /** Stop may return while run still has a batch to launch: with the HTTP generator cancelled, no
      worker is ever launched again if and only if the scheduler is neither waiting for the limiter
      nor in the middle of a batch. */
  lemma StopIsFinal(c: Cfg, s: State)
    requires Runnable(c) && Reachable(c, s) && c.kind == Http && s.cancelled
    ensures Quiesced(c, s) <==> Budget(c, s) == 0
  {
    hide Reachable, Run, Step, Runnable, Budget, Invariant;
    if Budget(c, s) == 0 {
      ReachableHolds(c, s);
      forall acts, s' | Run(c, s, acts) == Some(s') ensures |s'.workers| == |s.workers| {
        AfterCancel(c, s, acts, s', 0);
        WorkersGrow(c, s, acts, s');
      }
    } else {
      var acts, s' := Finishes(c, s);
      assert Run(c, s, acts) == Some(s');
    }
  }

  /** Stop's two statements are over: it has cancelled and found no worker under way. */
  predicate StopReturned(s: State) { s.cancelled && s.wg == 0 }

  /** At maximum throughput: cancelled as a batch is opened. */
  lemma StopInFlood(c: Cfg) returns (s: State)
    requires Runnable(c) && c.kind == Http && c.rate == 0.0
    ensures Reachable(c, s) && StopReturned(s) && s.at == Launch(0)
  {
    var s0 := Init(c);
    var s1 := Logged(s0).(section := Throughput, startTime := s0.now, at := Loop);
    var s2 := OpenBatch(s1);
    s := s2.(cancelled := true);
    assert Step(c, s0, Main(Go)) == Some(s1) && Step(c, s1, Main(Go)) == Some(s2) && Step(c, s2, Cancel) == Some(s);
    hide Step, Init, OpenBatch, Run;
    NoSteps(c, s0);
    RunThen(c, s0, [], s0, Main(Go), s1);
    RunThen(c, s0, [] + [Main(Go)], s1, Main(Go), s2);
    RunThen(c, s0, [] + [Main(Go)] + [Main(Go)], s2, Cancel, s);
    assert Run(c, Init(c), [] + [Main(Go)] + [Main(Go)] + [Cancel]) == Some(s);
  }

  /** In the steady loop: cancelled while the first batch's token is being waited for. */
  lemma StopInWait(c: Cfg) returns (s: State)
    requires Runnable(c) && c.kind == Http && c.rate > 0.0
    ensures Reachable(c, s) && StopReturned(s) && s.at.Waiting?
  {
    IntervalPositive(c.rate);
    hide Run, Init, Interval, Reserve, Limiter.Sound, Runnable;
    var xs, s0 := Enter(c, Interval(c.rate));
    assert Due(s0.ticker, s0.now);
    var ys, s1 := TakeOne(c, s0, s0.now);
    RunJoin(c, Init(c), xs, s0, ys, s1);
    assert Limiter.Sound(s1.limiter) && s1.limiter.last <= s1.now by { NewIsSound(c.rate); }
    var s2 := MainStep(c, s1, Go).value;
    assert s2.at.Waiting? && s2.wg == 0;
    hide Taken, Due, Entered;
    RunThen(c, Init(c), xs + ys, s1, Main(Go), s2);
    s := s2.(cancelled := true);
    assert Step(c, s2, Cancel) == Some(s);
    hide Step;
    RunThen(c, Init(c), xs + ys + [Main(Go)], s2, Cancel, s);
  }

  lemma NewIsSound(rate: real)
    requires rate > 0.0
    ensures Limiter.Sound(NewBucket(rate, 1, 0)) && NewBucket(rate, 1, 0).last == 0
  {
  }

  /** And so it goes wrong in some run of every HTTP configuration that has targets: Stop has
      returned and a batch is still launched. */
  lemma StopTooSoon(c: Cfg) returns (s: State)
    requires Runnable(c) && c.kind == Http && c.targets > 0
    ensures Reachable(c, s) && StopReturned(s) && Budget(c, s) == c.targets && !Quiesced(c, s)
  {
    hide Reachable, Quiesced, Init;
    if c.rate == 0.0 {
      s := StopInFlood(c);
    } else {
      s := StopInWait(c);
    }
    StopIsFinal(c, s);
  }

  // ---------- when Start returns an error ----------

  predicate Erred(s: State) { (s.at.Joining? || s.at.Finished?) && s.at.error }

  lemma MainErred(c: Cfg, s: State, choice: Choice, s': State)
    requires Runnable(c) && MainStep(c, s, choice) == Some(s') && (Erred(s) ==> s.cancelled)
    ensures Erred(s') ==> s'.cancelled
  {
    hide Reserve, Limiter.Sound, BatchSize, Interval, ZeroTimeOr, DeadlinePassed, Runnable, NewBucket, NewTicker;
    if s.at.Launch? {
      AtLaunch(c, s, choice);
      hide MainStep;
    }
  }

  lemma StepErred(c: Cfg, s: State, a: Action, s': State)
    requires Runnable(c) && Step(c, s, a) == Some(s') && (Erred(s) ==> s.cancelled)
    ensures Erred(s') ==> s'.cancelled
  {
    hide MainStep, WorkStep, FireTicker, Due, Runnable;
    if a.Main? {
      MainErred(c, s, a.choice, s');
    }
  }

  lemma {:induction false} RunErred(c: Cfg, s: State, acts: seq<Action>, s': State)
    requires Runnable(c) && (Erred(s) ==> s.cancelled) && Run(c, s, acts) == Some(s')
    ensures Erred(s') ==> s'.cancelled
    decreases |acts|
  {
    hide Step, Erred, Runnable;
    if acts != [] {
      StepErred(c, s, acts[0], Step(c, s, acts[0]).value);
      RunErred(c, Step(c, s, acts[0]).value, acts[1..], s');
    }
  }

  /** Start returns an error only after a Stop: an undisturbed run ends with none. */
  lemma ErrorMeansStopped(c: Cfg, s: State)
    requires Runnable(c) && Reachable(c, s) && s.at == Finished(true)
    ensures s.cancelled
  {
    var acts :| Run(c, Init(c), acts) == Some(s);
    assert !Erred(Init(c));
    hide Run, Init;
    RunErred(c, Init(c), acts, s);
  }

  /** And after one that comes between a tick and its wait it does. */
  lemma StoppedBeforeWait(c: Cfg) returns (s: State)
    requires Runnable(c) && c.kind == Http && c.rate > 0.0
    ensures Reachable(c, s) && s.at == Finished(true) && s.workers == []
  {
    IntervalPositive(c.rate);
    hide Run, Init, Interval, Runnable;
    var xs, s0 := Enter(c, Interval(c.rate));
    assert Due(s0.ticker, s0.now);
    var ys, s1 := TakeOne(c, s0, s0.now);
    RunJoin(c, Init(c), xs, s0, ys, s1);
    hide Taken, Due, Entered;
    var s2 := s1.(cancelled := true);
    RunThen(c, Init(c), xs + ys, s1, Cancel, s2);
    var s3 := MainStep(c, s2, Go).value;
    assert s3.at == Joining(true) && s3.wg == 0 && s3.workers == [];
    RunThen(c, Init(c), xs + ys + [Cancel], s2, Main(Go), s3);
    s := s3.(at := Finished(true));
    RunThen(c, Init(c), xs + ys + [Cancel] + [Main(Go)], s3, Main(Go), s);
    assert Run(c, Init(c), xs + ys + [Cancel] + [Main(Go)] + [Main(Go)]) == Some(s);
  }

  /** No limiter is waited for: at maximum throughput, and by a cloud-event generator that does not
      ramp up. */
  predicate Limitless(c: Cfg) { if c.kind == Http then c.rate == 0.0 else c.rate <= 1.0 }

  lemma StepLimitless(c: Cfg, s: State, a: Action, s': State)
    requires Runnable(c) && Limitless(c) && Shape(c, s) && !Erred(s) && Step(c, s, a) == Some(s')
    ensures !Erred(s')
  {
    hide WorkStep, FireTicker, Due, Reserve, LimiterShape, BeginRampStep, BatchSize, Interval, Ladder, ZeroTimeOr,
      DeadlinePassed, Runnable, NewBucket;
    if a.Main? && s.at.Launch? {
      AtLaunch(c, s, a.choice);
      hide MainStep;
    }
  }

  lemma {:induction false} RunLimitless(c: Cfg, s: State, acts: seq<Action>, s': State)
    requires Runnable(c) && Limitless(c) && Invariant(c, s) && !Erred(s) && Run(c, s, acts) == Some(s')
    ensures !Erred(s')
    decreases |acts|
  {
    hide Step, Erred, Shape, Books, Tally, Runnable;
    if acts != [] {
      var next := Step(c, s, acts[0]).value;
      StepLimitless(c, s, acts[0], next);
      StepHolds(c, s, acts[0], next);
      hide Invariant;
      RunLimitless(c, next, acts[1..], s');
    }
  }

  /** Without a limiter to wait for, Start returns nil, stopped from outside or by its deadline. */
  lemma NilWithoutLimiter(c: Cfg, s: State)
    requires Runnable(c) && Limitless(c) && Reachable(c, s) && s.at.Finished?
    ensures !s.at.error
  {
    var acts :| Run(c, Init(c), acts) == Some(s);
    InitHolds(c);
    assert !Erred(Init(c));
    hide Run, Init, Invariant;
    RunLimitless(c, Init(c), acts, s);
  }

  /** And stopped while it waits for a tick, Start returns nil with the limiter, too. */
  lemma StoppedBetweenTicks(c: Cfg) returns (s: State)
    requires Runnable(c) && c.rate > 0.0
    ensures Reachable(c, s) && s.at == Finished(false) && s.workers == []
  {
    IntervalPositive(c.rate);
    hide Run, Init, Interval, Runnable;
    var xs, s0 := Enter(c, 0);
    var s1 := s0.(cancelled := true);
    RunThen(c, Init(c), xs, s0, Cancel, s1);
    AtSteadyLoop(c, s1, TakeDone);
    var s2 := MainStep(c, s1, TakeDone).value;
    assert s2.at == Joining(false) && s2.wg == 0 && s2.workers == [];
    RunThen(c, Init(c), xs + [Cancel], s1, Main(TakeDone), s2);
    s := s2.(at := Finished(false));
    RunThen(c, Init(c), xs + [Cancel] + [Main(TakeDone)], s2, Main(Go), s);
    assert Run(c, Init(c), xs + [Cancel] + [Main(TakeDone)] + [Main(Go)]) == Some(s);
  }
}
