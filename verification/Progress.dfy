/** What the accounts give at the ends of a run: when Start and Stop return, what has become of
    every worker; that no worker waits on the scheduler; and that after Stop is called the HTTP
    generator comes to an end within a known number of steps. */
module Progress {
  import opened Options
  import opened Limiter
  import opened Machine
  import opened Accounting
  import opened Scenarios

  // ---------- the accounts of a run ----------

  lemma {:induction false} Partition(kind: Kind, ws: seq<Worker>)
    ensures |ws| == Count(kind, Ended(Succeeded), ws) + Count(kind, Ended(Failed), ws)
                    + Count(kind, Ended(Rejected), ws) + Count(kind, Alive, ws)
  {
    if ws != [] {
      Partition(kind, ws[..|ws| - 1]);
      var work := ws[|ws| - 1].work;
      assert work.Gone? ==> work.outcome.Succeeded? || work.outcome.Failed? || work.outcome.Rejected?;
    }
  }

  /** At every moment the WaitGroup's count is the number of unfinished workers, and every launched
      worker has succeeded, failed, been rejected or is one of these. */
  lemma WorkerAccounts(c: Cfg, s: State)
    requires Runnable(c) && Reachable(c, s)
    ensures s.wg == Count(c.kind, Alive, s.workers)
    ensures |s.workers| == Count(c.kind, Ended(Succeeded), s.workers) + Count(c.kind, Ended(Failed), s.workers)
                           + Count(c.kind, Ended(Rejected), s.workers) + s.wg
  {
    hide Run, Count, Reachable, Shape, Tally;
    ReachableHolds(c, s);
    Partition(c.kind, s.workers);
  }

  lemma StoredSucceeded(kind: Kind, ws: seq<Worker>)
    ensures Count(kind, Stored, ws) <= Count(kind, HasOutcome(Succeeded), ws)
  {
    CountMono(kind, Stored, HasOutcome(Succeeded), ws);
  }

  /** Reads and writes of requestCount race, yet it never exceeds the successes, and is positive
      once one increment has been written. */
  lemma SuccessCounter(c: Cfg, s: State)
    requires Runnable(c) && Reachable(c, s)
    ensures s.requestCount <= Count(c.kind, HasOutcome(Succeeded), s.workers)
    ensures Count(c.kind, Stored, s.workers) > 0 ==> s.requestCount >= 1
  {
    hide Run, Count, Reachable, Shape, Books;
    ReachableHolds(c, s);
    StoredSucceeded(c.kind, s.workers);
  }

  lemma ReadsCount(c: Cfg, s: State, w: nat)
    requires w < |s.workers| && s.workers[w].work.Counting?
    ensures WorkerStep(c, s, w, Good)
         == Some(s.(workers := s.workers[w := s.workers[w].(work := Storing(s.requestCount))]))
  {
  }

  lemma WritesCount(c: Cfg, s: State, w: nat)
    requires w < |s.workers| && s.workers[w].work.Storing?
    ensures WorkerStep(c, s, w, Good)
         == Some(s.(workers := s.workers[w := s.workers[w].(work := Leaving(Succeeded))],
                    requestCount := s.workers[w].work.read + 1))
  {
  }

  /** The bound is no equality: from any state with two workers about to count, both can count and
      the counter grow by one. */
  lemma LostUpdate(c: Cfg, s: State, i: nat, j: nat) returns (acts: seq<Action>, s': State)
    requires Runnable(c) && i < |s.workers| && j < |s.workers| && i != j
    requires s.workers[i].work.Counting? && s.workers[j].work.Counting?
    ensures Run(c, s, acts) == Some(s') && s'.requestCount == s.requestCount + 1
    ensures s'.workers == s.workers[i := s.workers[i].(work := Leaving(Succeeded))][j := s.workers[j].(work := Leaving(Succeeded))]
  {
    hide Run, WorkerStep, MainStep, Runnable;
    ReadsCount(c, s, i);
    var s1 := WorkerStep(c, s, i, Good).value;
    ReadsCount(c, s1, j);
    var s2 := WorkerStep(c, s1, j, Good).value;
    WritesCount(c, s2, i);
    var s3 := WorkerStep(c, s2, i, Good).value;
    WritesCount(c, s3, j);
    s' := WorkerStep(c, s3, j, Good).value;
    NoSteps(c, s);
    RunThen(c, s, [], s, Work(i, Good), s1);
    RunThen(c, s, [] + [Work(i, Good)], s1, Work(j, Good), s2);
    RunThen(c, s, [] + [Work(i, Good)] + [Work(j, Good)], s2, Work(i, Good), s3);
    acts := [] + [Work(i, Good)] + [Work(j, Good)] + [Work(i, Good)];
    RunThen(c, s, acts, s3, Work(j, Good), s');
    acts := acts + [Work(j, Good)];
  }

  predicate AllEnded(ws: seq<Worker>) { forall w | w in ws :: w.work.Gone? }

  lemma {:induction false} EndedCounts(kind: Kind, ws: seq<Worker>)
    requires AllEnded(ws)
    ensures Count(kind, HasOutcome(Rejected), ws) == Count(kind, Ended(Rejected), ws)
    ensures Count(kind, Reported, ws) == Count(kind, Ended(Succeeded), ws)
    ensures Count(kind, Alive, ws) == 0
    ensures forall t: nat :: Count(kind, Called(t), ws) == Count(kind, For(t), ws)
  {
    if ws != [] {
      EndedCounts(kind, ws[..|ws| - 1]);
      assert ws[|ws| - 1] in ws;
    }
  }

  /** wg.Wait returns at no moment with a worker under way: when the count is zero, every worker
      has ended and the log has one Success line for each success and one Failed line for each
      rejection. */
  lemma NoneInFlight(c: Cfg, s: State)
    requires Runnable(c) && Reachable(c, s) && s.wg == 0
    ensures AllEnded(s.workers)
    ensures LogCount(s.log, SuccessLine) == Count(c.kind, Ended(Succeeded), s.workers)
    ensures LogCount(s.log, FailedLine) == Count(c.kind, Ended(Rejected), s.workers)
    ensures |s.workers| == Count(c.kind, Ended(Succeeded), s.workers) + Count(c.kind, Ended(Failed), s.workers)
                           + Count(c.kind, Ended(Rejected), s.workers)
  {
    hide Run, Count, Reachable, Shape, Tally, LogCount, Owed, BatchesFor;
    ReachableHolds(c, s);
    AllGone(c, s);
    EndedCounts(c.kind, s.workers);
    Partition(c.kind, s.workers);
  }

  /** Start returns only then, and the pool has counted for every target the batches it belongs to:
      for the HTTP generator all of ramp-up and steady loop, the same number for all targets; for the
      cloud-event generator these for the first target, the ramp-up's alone for the others. */
  lemma StartReturns(c: Cfg, s: State, t: nat)
    requires Runnable(c) && Reachable(c, s) && s.at.Finished? && t < c.targets
    ensures s.wg == 0 && AllEnded(s.workers)
    ensures t < |s.calls| && s.calls[t] == BatchesFor(c, s, t)
    ensures c.rate > 0.0 ==>
              s.calls[t] == RampBatches(s.rampSteps) + if c.kind == Http || t == 0 then |s.batches| else 0
  {
    hide Run, Count, Reachable, Tally, LogCount, LimiterShape, Place, RampBatches;
    ReachableHolds(c, s);
    AllGone(c, s);
    EndedCounts(c.kind, s.workers);
  }

  /** Once Start has returned nothing happens any more: later calls of Stop find a count of zero. */
  lemma {:induction false} StaysFinished(c: Cfg, s: State, acts: seq<Action>, s': State)
    requires Runnable(c) && s.at.Finished? && s.wg == 0 && AllEnded(s.workers) && Run(c, s, acts) == Some(s')
    ensures s'.at == s.at && s'.wg == 0 && s'.workers == s.workers && s'.log == s.log && s'.calls == s.calls
    decreases |acts|
  {
    if acts != [] {
      var next := Step(c, s, acts[0]).value;
      FinishedStep(c, s, acts[0], next);
      hide Step, AllEnded, Runnable;
      StaysFinished(c, next, acts[1..], s');
    }
  }

  lemma FinishedStep(c: Cfg, s: State, a: Action, s': State)
    requires Runnable(c) && s.at.Finished? && s.wg == 0 && AllEnded(s.workers) && Step(c, s, a) == Some(s')
    ensures s'.at == s.at && s'.wg == 0 && s'.workers == s.workers && s'.log == s.log && s'.calls == s.calls
  {
    hide WorkStep;
    assert forall i | 0 <= i < |s.workers| :: s.workers[i] in s.workers;
  }

  // ---------- workers do not wait ----------

  /** The most steps a worker still makes. */
  function Distance(w: Work): nat {
    match w
    case Requesting => 7
    case Reading => 6
    case ReadFailed => 5
    case Reporting => 4
    case Counting => 3
    case Failing => 3
    case Storing(_) => 2
    case Complaining => 2
    case Refused => 2
    case Leaving(_) => 1
    case Gone(_) => 0
  }

  function Total(ws: seq<Worker>): nat {
    if ws == [] then 0 else Total(ws[..|ws| - 1]) + Distance(ws[|ws| - 1].work)
  }

  lemma TotalAppend(ws: seq<Worker>, w: Worker)
    ensures Total(ws + [w]) == Total(ws) + Distance(w.work)
  {
    assert (ws + [w])[..|ws|] == ws;
  }

  lemma {:induction false} TotalUpdate(ws: seq<Worker>, i: nat, w: Worker)
    requires i < |ws|
    ensures Total(ws[i := w]) == Total(ws) - Distance(ws[i].work) + Distance(w.work)
  {
    hide Distance;
    var n := |ws| - 1;
    if i == n {
      assert ws[i := w][..n] == ws[..n];
    } else {
      TotalUpdate(ws[..n], i, w);
      assert ws[i := w][..n] == ws[..n][i := w];
    }
  }

  lemma {:induction false} TotalBound(kind: Kind, ws: seq<Worker>)
    ensures Total(ws) <= 7 * Count(kind, Alive, ws)
  {
    if ws != [] {
      TotalBound(kind, ws[..|ws| - 1]);
    }
  }

  lemma Closer(kind: Kind, section: Section, work: Work, count: nat, answer: Answer)
    requires !work.Gone?
    ensures Distance(WorkStep(kind, section, work, count, answer).0) < Distance(work)
  {
  }

  /** An unfinished worker can always make its next step, whatever the scheduler is doing and
      whatever the environment answers, and each step brings it nearer to its end. */
  lemma WorkerMoves(c: Cfg, s: State, w: nat, answer: Answer)
    requires Runnable(c) && w < |s.workers| && !s.workers[w].work.Gone?
    ensures var r := Step(c, s, Work(w, answer));
            && r.Some? && Total(r.value.workers) < Total(s.workers) && r.value.at == s.at
            && (forall other: Where :: Step(c, s.(at := other), Work(w, answer)) == Some(r.value.(at := other)))
  {
    var worker := s.workers[w];
    Closer(c.kind, worker.section, worker.work, s.requestCount, answer);
    TotalUpdate(s.workers, w, worker.(work := WorkStep(c.kind, worker.section, worker.work, s.requestCount, answer).0));
    hide Total, MainStep, WorkStep, Distance, Runnable;
  }

  /** So from any moment the workers alone can bring the count to zero: wg.Wait is never stuck. */
  lemma {:induction false} WorkersFinish(c: Cfg, s: State) returns (acts: seq<Action>, s': State)
    requires Runnable(c) && Invariant(c, s)
    ensures forall a | a in acts :: a.Work?
    ensures |acts| <= Total(s.workers) && Run(c, s, acts) == Some(s') && s'.wg == 0 && s'.at == s.at
    decreases Total(s.workers)
  {
    hide Total, Step, Shape, Tally, LogCount, Owed, BatchesFor, Count, Runnable;
    if s.wg == 0 {
      acts, s' := [], s;
    } else {
      CountZero(c.kind, Alive, s.workers);
      var worker :| worker in s.workers && Matches(c.kind, Alive, worker);
      var w: nat :| w < |s.workers| && s.workers[w] == worker;
      WorkerMoves(c, s, w, Good);
      var next := Step(c, s, Work(w, Good)).value;
      StepHolds(c, s, Work(w, Good), next);
      hide Books;
      var rest, end := WorkersFinish(c, next);
      acts, s' := [Work(w, Good)] + rest, end;
    }
  }

  // ---------- after Stop is called ----------

  /** The most steps the scheduling goroutine and its workers still make after cancellation. */
  function MainRank(c: Cfg, s: State): nat {
    match s.at
    case Begin => 10
    case RampCheck => 6
    case Loop => if s.section.Ramp? then 7 else 3
    case WaitStart => 2
    case Waiting(_, _) => 9 + 8 * c.targets
    case Launch(k) => 8 + 8 * if k <= c.targets then c.targets - k else 0
    case Check => 4
    case SteadyTicker => 5
    case SteadyClock => 4
    case Stopping => 2
    case Joining(_) => 1
    case Finished(_) => 0
  }

  function Rank(c: Cfg, s: State): nat { MainRank(c, s) + Total(s.workers) }

  predicate Moves(a: Action) { a.Main? || a.Work? }

  function MoveCount(acts: seq<Action>): nat
    decreases |acts|
  {
    if acts == [] then 0 else (if Moves(acts[0]) then 1 else 0) + MoveCount(acts[1..])
  }

  lemma LaunchRanks(c: Cfg, s: State, choice: Choice, s': State)
    requires Runnable(c) && Place(c, s) && s.at.Launch? && c.kind == Http && MainStep(c, s, choice) == Some(s')
    ensures Rank(c, s') < Rank(c, s)
  {
    AtLaunch(c, s, choice);
    LaunchFacts(s, s.at.k);
    TotalAppend(s.workers, Worker(s.section, s.at.k, s.now, Requesting));
    hide MainStep, Total, Runnable, Ladder;
  }

  lemma LoopRanks(c: Cfg, s: State, choice: Choice, s': State)
    requires Runnable(c) && Place(c, s) && s.at == Loop && c.kind == Http && s.cancelled
    requires MainStep(c, s, choice) == Some(s')
    ensures Rank(c, s') < Rank(c, s)
  {
    hide Total, Ladder, Runnable;
  }

  lemma SetupRanks(c: Cfg, s: State, choice: Choice, s': State)
    requires Runnable(c) && Place(c, s) && s.cancelled && MainStep(c, s, choice) == Some(s')
    requires s.at.Begin? || s.at.RampCheck? || s.at.SteadyTicker? || s.at.SteadyClock?
    ensures Rank(c, s') < Rank(c, s)
  {
    match s.at {
      case Begin => AtBegin(c, s, choice);
      case RampCheck => AtRampCheck(c, s, choice);
      case SteadyTicker => AtSteadyTicker(c, s, choice);
      case _ => AtSteadyClock(c, s, choice);
    }
    hide MainStep, Total, Ladder, BeginRampStep, Interval, Runnable;
  }

  lemma EndRanks(c: Cfg, s: State, choice: Choice, s': State)
    requires Runnable(c) && Place(c, s) && s.cancelled && MainStep(c, s, choice) == Some(s')
    requires s.at.WaitStart? || s.at.Waiting? || s.at.Check? || s.at.Stopping? || s.at.Joining?
    ensures Rank(c, s') < Rank(c, s)
  {
    hide LaunchOne, Total, Reserve, Limiter.Sound, ZeroTimeOr, DeadlinePassed, BeginRampStep, BatchSize, Ladder, Runnable;
    assert s'.workers == s.workers;
  }

  lemma MainRanks(c: Cfg, s: State, choice: Choice, s': State)
    requires Runnable(c) && Place(c, s) && c.kind == Http && s.cancelled && MainStep(c, s, choice) == Some(s')
    ensures Rank(c, s') < Rank(c, s)
  {
    assert !s.at.Finished?;
    hide MainStep, MainRank, Place, Rank, Runnable;
    match s.at {
      case Launch(_) => LaunchRanks(c, s, choice, s');
      case Loop => LoopRanks(c, s, choice, s');
      case Begin => SetupRanks(c, s, choice, s');
      case RampCheck => SetupRanks(c, s, choice, s');
      case SteadyTicker => SetupRanks(c, s, choice, s');
      case SteadyClock => SetupRanks(c, s, choice, s');
      case _ => EndRanks(c, s, choice, s');
    }
  }

  lemma StepRanks(c: Cfg, s: State, a: Action, s': State)
    requires Runnable(c) && Shape(c, s) && c.kind == Http && s.cancelled && Step(c, s, a) == Some(s')
    ensures Rank(c, s') + (if Moves(a) then 1 else 0) <= Rank(c, s) && s'.cancelled
  {
    match a {
      case Main(choice) =>
        MainRanks(c, s, choice, s');
        hide Rank, Shape, Runnable, Reserve, ZeroTimeOr, BeginRampStep, LaunchOne, OpenBatch, DeadlinePassed;
        StaysCancelled(c, s, choice, s');
      case Work(w, answer) =>
        WorkerMoves(c, s, w, answer);
        hide MainStep, WorkStep, Total, Shape, Runnable;
      case _ => hide MainStep, WorkerStep, Shape, Total, Runnable;
    }
  }

  lemma StaysCancelled(c: Cfg, s: State, choice: Choice, s': State)
    requires Runnable(c) && s.cancelled && MainStep(c, s, choice) == Some(s')
    ensures s'.cancelled
  {
    hide Reserve, Limiter.Sound, ZeroTimeOr, Interval, Period, NewBucket, BatchSize, DeadlinePassed;
  }

  /** However the run goes on after Stop has been called, the HTTP generator's scheduler and
      workers make at most 10 + 8n + 7w more steps, w workers being under way. */
  lemma {:induction false} ShutdownBound(c: Cfg, s: State, acts: seq<Action>, s': State)
    requires Runnable(c) && Invariant(c, s) && c.kind == Http && s.cancelled && Run(c, s, acts) == Some(s')
    ensures MoveCount(acts) + Rank(c, s') <= Rank(c, s) <= 10 + 8 * c.targets + 7 * s.wg
    decreases |acts|
  {
    TotalBound(c.kind, s.workers);
    hide Step, Moves, Shape, Tally, LogCount, Owed, BatchesFor, Total, Count, Runnable;
    if acts != [] {
      var next := Step(c, s, acts[0]).value;
      StepRanks(c, s, acts[0], next);
      StepHolds(c, s, acts[0], next);
      hide Books, Rank;
      ShutdownBound(c, next, acts[1..], s');
    }
  }

  /** And it is never stuck: until Start has returned some step is possible, at the latest after
      the delay of a limiter wait. */
  lemma NeverStuck(c: Cfg, s: State) returns (dt: nat, a: Action)
    requires Runnable(c) && Invariant(c, s) && s.cancelled && !s.at.Finished?
    ensures Moves(a) && Step(c, s, Pass(dt)).Some? && Step(c, Step(c, s, Pass(dt)).value, a).Some?
  {
    if (s.at.Stopping? || s.at.Joining?) && s.wg > 0 {
      hide Shape, Tally, Step;
      var acts, s' := WorkersFinish(c, s);
      assert acts != [] && acts[0] in acts;
      dt, a := 0, acts[0];
      assert Step(c, s, acts[0]).Some?;
      SameNow(c, s);
    } else {
      dt := if s.at.Waiting? && s.at.act > s.now then s.at.act - s.now else 0;
      a := Main(if s.at.Loop? then TakeDone else Go);
      hide Books, Tally;
      CanMove(c, s.(now := s.now + dt), a.choice);
    }
  }

  lemma SameNow(c: Cfg, s: State)
    requires Runnable(c)
    ensures Step(c, s, Pass(0)) == Some(s)
  {
  }

  lemma CanMove(c: Cfg, s: State, choice: Choice)
    requires Runnable(c) && Shape(c, s) && s.cancelled && !s.at.Finished?
    requires s.at.Stopping? || s.at.Joining? ==> s.wg == 0
    requires s.at.Waiting? ==> s.at.act <= s.now
    requires choice == if s.at.Loop? then TakeDone else Go
    ensures MainStep(c, s, choice).Some?
  {
    hide Reserve, ZeroTimeOr, BeginRampStep, LaunchOne, OpenBatch, DeadlinePassed, Interval, Ladder, BatchSize;
  }
}
