/** The unsynchronised success counter of the HTTP generator's steady loop: when exactly it is right. */
module Counter {
  import opened Options
  import opened Machine
  import opened Accounting
  import opened Progress
  import opened Scenarios
  import Rate

  function Increments(c: Cfg, s: State): nat { Count(c.kind, Stored, s.workers) }

  predicate Storing(s: State, i: int) { 0 <= i < |s.workers| && s.workers[i].work.Storing? }

  /** No two workers are between the read and the write of the counter. */
  predicate Alone(s: State) {
    forall i, j | 0 <= i < j < |s.workers| :: !(Storing(s, i) && Storing(s, j))
  }

  /** So it is all along a run. */
  predicate Exclusive(c: Cfg, s: State, acts: seq<Action>)
    requires Runnable(c)
    decreases |acts|
  {
    Alone(s) && (acts == [] || Step(c, s, acts[0]).None? || Exclusive(c, Step(c, s, acts[0]).value, acts[1..]))
  }

  /** Nothing has been lost. */
  ghost predicate Clean(c: Cfg, s: State) {
    s.requestCount == Increments(c, s)
    && forall i | Storing(s, i) :: s.workers[i].work.read == s.requestCount
  }

  /** Something has been lost for good: every value still to be written is too small. */
  ghost predicate Lost(c: Cfg, s: State) {
    s.requestCount < Increments(c, s)
    && forall i | Storing(s, i) :: s.workers[i].work.read < Increments(c, s)
  }

  ghost predicate Stale(c: Cfg, s: State) { exists i :: Storing(s, i) && s.workers[i].work.read < Increments(c, s) }

  ghost predicate Doomed(c: Cfg, s: State) { !Alone(s) || Stale(c, s) || Lost(c, s) }

  // ---------- one step ----------

  /** What a step does to the counter: nothing, a read, or a write. */
  predicate Idles(c: Cfg, s: State, s': State) {
    && s'.requestCount == s.requestCount && Increments(c, s') == Increments(c, s) && |s'.workers| >= |s.workers|
    && (forall i | 0 <= i < |s.workers| :: Storing(s', i) == Storing(s, i) && (Storing(s, i) ==> s'.workers[i] == s.workers[i]))
    && (forall i | |s.workers| <= i < |s'.workers| :: !Storing(s', i))
  }

  predicate Reads(c: Cfg, s: State, s': State, w: nat) {
    && s'.requestCount == s.requestCount && Increments(c, s') == Increments(c, s) && |s'.workers| == |s.workers|
    && !Storing(s, w) && Storing(s', w) && s'.workers[w].work.read == s.requestCount
    && (forall i | 0 <= i < |s.workers| && i != w :: s'.workers[i] == s.workers[i])
  }

  predicate Writes(c: Cfg, s: State, s': State, w: nat) {
    && Storing(s, w) && !Storing(s', w) && s'.requestCount == s.workers[w].work.read + 1
    && Increments(c, s') == Increments(c, s) + 1 && |s'.workers| == |s.workers|
    && (forall i | 0 <= i < |s.workers| && i != w :: s'.workers[i] == s.workers[i])
  }

  lemma MainIdles(c: Cfg, s: State, a: Action, s': State)
    requires Runnable(c) && !a.Work? && Step(c, s, a) == Some(s')
    ensures Idles(c, s, s')
  {
    if a.Main? {
      MainExtends(c, s, a.choice, s');
    }
    hide MainStep, Count, Runnable;
    if s'.workers != s.workers {
      var w: Worker :| w.work.Requesting? && s'.workers == s.workers + [w];
      CountAppend(c.kind, Stored, s.workers, w);
    }
  }

  lemma WorkTouches(c: Cfg, s: State, w: nat, answer: Answer, s': State)
    requires Books(c, s) && WorkerStep(c, s, w, answer) == Some(s')
    ensures Idles(c, s, s') || Reads(c, s, s', w) || Writes(c, s, s', w)
  {
    hide LogCount, Owed, BatchesFor, Count;
    assert s.workers[w] in s.workers;
    CountUpdate(c.kind, Stored, s.workers, w, s'.workers[w]);
    match s.workers[w].work {
      case Counting => assert Reads(c, s, s', w);
      case Storing(_) => assert Writes(c, s, s', w);
      case _ => assert Idles(c, s, s');
    }
  }

  // ---------- a clean run, a doomed one ----------

  lemma OnlyOne(s: State, i: int, j: int)
    requires Alone(s) && Storing(s, i) && Storing(s, j)
    ensures i == j
  {
  }

  lemma CleanStays(c: Cfg, s: State, s': State, w: nat)
    requires Clean(c, s) && Alone(s) && (Idles(c, s, s') || Reads(c, s, s', w) || Writes(c, s, s', w))
    ensures Clean(c, s')
  {
    hide Increments;
    if Writes(c, s, s', w) {
      forall i ensures !Storing(s', i) {
        if Storing(s, i) {
          OnlyOne(s, i, w);
        }
      }
    }
  }

  /** Reads and writes never exceed the increments. */
  ghost predicate Bounded(c: Cfg, s: State) {
    s.requestCount <= Increments(c, s) && forall i | Storing(s, i) :: s.workers[i].work.read <= Increments(c, s)
  }

  lemma TallyBounds(c: Cfg, s: State)
    requires Tally(c, s)
    ensures Bounded(c, s)
  {
    hide Count;
    assert forall i | 0 <= i < |s.workers| :: s.workers[i] in s.workers;
  }

  lemma IdleDoom(c: Cfg, s: State, s': State)
    requires Doomed(c, s) && Idles(c, s, s')
    ensures Doomed(c, s')
  {
    hide Increments;
    if !Alone(s) {
      var i, j :| 0 <= i < j < |s.workers| && Storing(s, i) && Storing(s, j);
      assert Storing(s', i) && Storing(s', j);
    } else if Stale(c, s) {
      var i :| Storing(s, i) && s.workers[i].work.read < Increments(c, s);
      assert Storing(s', i);
    }
  }

  lemma ReadDoom(c: Cfg, s: State, s': State, w: nat)
    requires Doomed(c, s) && Reads(c, s, s', w)
    ensures Doomed(c, s')
  {
    hide Increments;
    if !Alone(s) {
      var i, j :| 0 <= i < j < |s.workers| && Storing(s, i) && Storing(s, j);
      assert Storing(s', i) && Storing(s', j);
    } else if Stale(c, s) {
      var i :| Storing(s, i) && s.workers[i].work.read < Increments(c, s);
      assert Storing(s', i);
    } else {
      assert forall i | Storing(s', i) && i != w :: Storing(s, i);
    }
  }

  lemma WriteDoom(c: Cfg, s: State, s': State, w: nat)
    requires Doomed(c, s) && Bounded(c, s) && Writes(c, s, s', w)
    ensures Doomed(c, s')
  {
    hide Increments;
    assert forall i | Storing(s', i) :: Storing(s, i) && i != w;
    if !Alone(s) {
      var i, j :| 0 <= i < j < |s.workers| && Storing(s, i) && Storing(s, j);
      var other := if i == w then j else i;
      assert Storing(s', other) && s'.workers[other].work.read < Increments(c, s');
    } else {
      if Stale(c, s) {
        var i :| Storing(s, i) && s.workers[i].work.read < Increments(c, s);
        OnlyOne(s, i, w);
      }
      assert s.workers[w].work.read < Increments(c, s);
      assert Lost(c, s');
    }
  }

  lemma {:induction false} RunClean(c: Cfg, s: State, acts: seq<Action>, s': State)
    requires Runnable(c) && Invariant(c, s) && Clean(c, s) && Exclusive(c, s, acts) && Run(c, s, acts) == Some(s')
    ensures Clean(c, s')
    decreases |acts|
  {
    hide Step, Clean, Alone, Shape, Tally, Count, LogCount, Owed, BatchesFor, Runnable;
    if acts != [] {
      var next := Step(c, s, acts[0]).value;
      StepHolds(c, s, acts[0], next);
      Touches(c, s, acts[0], next);
      hide Books, Invariant;
      CleanStays(c, s, next, if acts[0].Work? then acts[0].w else 0);
      RunClean(c, next, acts[1..], s');
    }
  }

  lemma Touches(c: Cfg, s: State, a: Action, s': State)
    requires Runnable(c) && Invariant(c, s) && Step(c, s, a) == Some(s')
    ensures var w := if a.Work? then a.w else 0; Idles(c, s, s') || Reads(c, s, s', w) || Writes(c, s, s', w)
  {
    hide MainStep, WorkerStep, Idles, Reads, Writes, Books, Shape, Tally, Runnable;
    if a.Work? {
      WorkTouches(c, s, a.w, a.answer, s');
    } else {
      MainIdles(c, s, a, s');
    }
  }

  lemma DoomStays(c: Cfg, s: State, a: Action, s': State)
    requires Runnable(c) && Invariant(c, s) && Doomed(c, s) && Step(c, s, a) == Some(s')
    ensures Doomed(c, s')
  {
    var w := if a.Work? then a.w else 0;
    hide Step, Idles, Reads, Writes, Books, Shape, Tally, Runnable, Doomed, Bounded;
    Touches(c, s, a, s');
    TallyBounds(c, s);
    if Idles(c, s, s') {
      IdleDoom(c, s, s');
    } else if Reads(c, s, s', w) {
      ReadDoom(c, s, s', w);
    } else {
      WriteDoom(c, s, s', w);
    }
  }

  lemma {:induction false} RunDoomed(c: Cfg, s: State, acts: seq<Action>, s': State)
    requires Runnable(c) && Invariant(c, s) && (Doomed(c, s) || !Exclusive(c, s, acts)) && Run(c, s, acts) == Some(s')
    ensures Doomed(c, s')
    decreases |acts|
  {
    AloneOrDoomed(c, s);
    hide Step, Alone, Doomed, Invariant, Runnable;
    if acts != [] {
      var next := Step(c, s, acts[0]).value;
      StepHolds(c, s, acts[0], next);
      if Doomed(c, s) {
        DoomStays(c, s, acts[0], next);
      }
      RunDoomed(c, next, acts[1..], s');
    }
  }

  lemma AloneOrDoomed(c: Cfg, s: State)
    ensures Alone(s) || Doomed(c, s)
  {
  }

  /** The counter ends at the number of increments exactly if in no state of the run two workers
      were both between its read and its write. */
  lemma CounterExact(c: Cfg, acts: seq<Action>, s: State)
    requires Runnable(c) && Run(c, Init(c), acts) == Some(s)
    requires forall w | w in s.workers :: !w.work.Storing?
    ensures s.requestCount == Count(c.kind, Stored, s.workers) <==> Exclusive(c, Init(c), acts)
  {
    InitHolds(c);
    assert forall i | 0 <= i < |s.workers| :: s.workers[i] in s.workers;
    assert Clean(c, Init(c));
    hide Init, Run, Invariant, Exclusive, Count;
    if Exclusive(c, Init(c), acts) {
      RunClean(c, Init(c), acts, s);
    } else {
      RunDoomed(c, Init(c), acts, s);
    }
  }

  // ---------- a run that loses an increment ----------

  /** A steady worker that is answered well, one step on. */
  lemma WellAnswered(c: Cfg, s: State, w: nat, next: Work)
    requires c.kind == Http && w < |s.workers| && s.workers[w].section == Steady
    requires match s.workers[w].work
             case Requesting => next == Reading
             case Reading => next == Reporting
             case Reporting => next == Counting
             case _ => false
    ensures var r := WorkerStep(c, s, w, Good);
            && r.Some? && r.value.workers == s.workers[w := s.workers[w].(work := next)]
            && r.value.requestCount == s.requestCount
  {
  }

  /** The steps of a steady worker up to the counter. */
  lemma ToCounting(c: Cfg, s: State, w: nat) returns (acts: seq<Action>, s': State)
    requires Runnable(c) && c.kind == Http && w < |s.workers|
    requires s.workers[w].work == Requesting && s.workers[w].section == Steady
    ensures Run(c, s, acts) == Some(s') && s'.workers == s.workers[w := s.workers[w].(work := Counting)]
    ensures s'.requestCount == s.requestCount
  {
    hide Run, WorkerStep, MainStep, Runnable;
    WellAnswered(c, s, w, Reading);
    var s1 := WorkerStep(c, s, w, Good).value;
    WellAnswered(c, s1, w, Reporting);
    var s2 := WorkerStep(c, s1, w, Good).value;
    WellAnswered(c, s2, w, Counting);
    s' := WorkerStep(c, s2, w, Good).value;
    NoSteps(c, s);
    RunThen(c, s, [], s, Work(w, Good), s1);
    RunThen(c, s, [] + [Work(w, Good)], s1, Work(w, Good), s2);
    RunThen(c, s, [] + [Work(w, Good)] + [Work(w, Good)], s2, Work(w, Good), s');
    acts := [] + [Work(w, Good)] + [Work(w, Good)] + [Work(w, Good)];
  }

  /** Two workers that have succeeded among others that have not begun. */
  lemma TwoSucceeded(kind: Kind, ws: seq<Worker>, i: nat, j: nat, done: seq<Worker>)
    requires i < |ws| && j < |ws| && i != j && kind == Http
    requires forall k | 0 <= k < |ws| :: ws[k].work == Requesting && ws[k].section == Steady
    requires done == ws[i := ws[i].(work := Leaving(Succeeded))][j := ws[j].(work := Leaving(Succeeded))]
    ensures Count(kind, HasOutcome(Succeeded), done) == 2 && Count(kind, Stored, done) == 2
    ensures forall w | w in done :: !w.work.Storing?
  {
    var one := ws[i := ws[i].(work := Leaving(Succeeded))];
    CountZero(kind, HasOutcome(Succeeded), ws);
    CountZero(kind, Stored, ws);
    hide Count;
    CountUpdate(kind, HasOutcome(Succeeded), ws, i, one[i]);
    CountUpdate(kind, Stored, ws, i, one[i]);
    CountUpdate(kind, HasOutcome(Succeeded), one, j, done[j]);
    CountUpdate(kind, Stored, one, j, done[j]);
  }

  /** A run of every HTTP configuration with a rate and a target in which two requests, one of each
      of the first two batches, succeed and the counter ends at one. */
  lemma LostInSomeRun(c: Cfg) returns (acts: seq<Action>, s: State)
    requires Runnable(c) && c.kind == Http && c.rate > 0.0 && c.targets > 0
    ensures Run(c, Init(c), acts) == Some(s) && s.requestCount == 1 && forall w | w in s.workers :: !w.work.Storing?
    ensures Count(c.kind, HasOutcome(Succeeded), s.workers) == 2 && Count(c.kind, Stored, s.workers) == 2
  {
    var xs, s0 := Rate.TwoBatches(c, 0);
    var i, j := 0, c.targets;
    hide Run, Step, Init, Runnable, Count, Rate.OnTime;
    var us, s1 := ToCounting(c, s0, i);
    RunJoin(c, Init(c), xs, s0, us, s1);
    var vs, s2 := ToCounting(c, s1, j);
    RunJoin(c, Init(c), xs + us, s1, vs, s2);
    var ws, s3 := LostUpdate(c, s2, i, j);
    RunJoin(c, Init(c), xs + us + vs, s2, ws, s3);
    acts, s := xs + us + vs + ws, s3;
    TwoSucceeded(c.kind, s0.workers, i, j, s.workers);
  }

  // ---------- on which configurations the counter is always right ----------

  ghost predicate AlwaysCounted(c: Cfg)
    requires Runnable(c)
  {
    forall acts, s | Run(c, Init(c), acts) == Some(s) && (forall w | w in s.workers :: !w.work.Storing?) ::
      s.requestCount == Count(c.kind, Stored, s.workers)
  }

  /** Nothing is counted: the workers belong to another kind or section. */
  predicate Uncounted(c: Cfg, s: State) {
    forall w | w in s.workers :: c.kind == CloudEvent || w.section == Throughput
  }

  lemma UncountedStep(c: Cfg, s: State, a: Action, s': State)
    requires Runnable(c) && (c.kind == CloudEvent || c.rate == 0.0 || c.targets == 0)
    requires Shape(c, s) && Uncounted(c, s) && Step(c, s, a) == Some(s')
    ensures Uncounted(c, s')
  {
    if a.Main? {
      MainExtends(c, s, a.choice, s');
      if s.at.Launch? {
        AtLaunch(c, s, a.choice);
      }
    }
    hide MainStep, WorkStep, LimiterShape, Runnable;
  }

  lemma {:induction false} UncountedRun(c: Cfg, s: State, acts: seq<Action>, s': State)
    requires Runnable(c) && (c.kind == CloudEvent || c.rate == 0.0 || c.targets == 0)
    requires Invariant(c, s) && Uncounted(c, s) && Run(c, s, acts) == Some(s')
    ensures Invariant(c, s') && Uncounted(c, s')
    decreases |acts|
  {
    if acts != [] {
      var next := Step(c, s, acts[0]).value;
      UncountedStep(c, s, acts[0], next);
      StepHolds(c, s, acts[0], next);
      hide Step, Invariant, Uncounted, Runnable;
      UncountedRun(c, next, acts[1..], s');
    }
  }

  /** A caller can tell from the configuration: the counter is right in all runs exactly if it
      counts in none. */
  lemma CounterAlways(c: Cfg)
    requires Runnable(c)
    ensures AlwaysCounted(c) <==> c.kind == CloudEvent || c.rate == 0.0 || c.targets == 0
  {
    hide Run, Init, Shape, Books;
    if c.kind == CloudEvent || c.rate == 0.0 || c.targets == 0 {
      forall acts, s | Run(c, Init(c), acts) == Some(s) && (forall w | w in s.workers :: !w.work.Storing?)
        ensures s.requestCount == Count(c.kind, Stored, s.workers)
      {
        NoneCounted(c, acts, s);
      }
    } else {
      var acts, s := LostInSomeRun(c);
    }
  }

  lemma NoneCounted(c: Cfg, acts: seq<Action>, s: State)
    requires Runnable(c) && (c.kind == CloudEvent || c.rate == 0.0 || c.targets == 0)
    requires Run(c, Init(c), acts) == Some(s)
    ensures s.requestCount == 0 && Count(c.kind, Stored, s.workers) == 0
  {
    InitHolds(c);
    assert Uncounted(c, Init(c));
    hide Run, Init, Shape, Books;
    UncountedRun(c, Init(c), acts, s);
    TallyBounds(c, s);
    CountZero(c.kind, Stored, s.workers);
  }
}
