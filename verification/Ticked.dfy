/** The cloud-event generator's steady loop, which has no limiter: what the one-slot channel of its
    ticker alone makes of the batches in a window of time. */
module Ticked {
  import opened Options
  import opened Machine
  import opened Accounting
  import opened Pacing
  import opened Deadline
  import opened Scenarios

  /** The number of intervals that have passed at a time. */
  function Cell(t: Ticker, x: int): int
    requires t.interval >= 1
  {
    (x - t.start) / t.interval
  }

  /** From the second batch after a batch on, each was launched in an interval of its own after the
      one of that batch: its tick fired into an empty channel, so not before that batch. */
  predicate Celled(s: State) {
    && s.ticker.interval >= 1 && (forall i | 0 <= i < |s.batches| :: s.batches[i].begin == s.batches[i].recv)
    && (forall i, j | 0 <= i < j < |s.batches| :: Cell(s.ticker, s.batches[j].recv) >= Cell(s.ticker, s.batches[i].recv) + (j - i - 1))
    && (forall i | 0 <= i < |s.batches| - 1 :: s.ticker.fired >= Cell(s.ticker, s.batches[i].recv) + (|s.batches| - i - 2))
    && (s.ticker.full ==>
          forall i | 0 <= i < |s.batches| :: s.ticker.fired >= Cell(s.ticker, s.batches[i].recv) + (|s.batches| - i - 1))
  }

  lemma CellMono(t: Ticker, x: int, y: int)
    requires t.interval >= 1 && x <= y
    ensures Cell(t, x) <= Cell(t, y)
  {
    var a, b, i := x - t.start, y - t.start, t.interval;
    assert a == (a / i) * i + a % i && b == (b / i) * i + b % i;
    assert (b / i + 1) * i == (b / i) * i + i;
    Below(a / i, b / i + 1, i);
  }

  lemma CellOf(t: Ticker, n: int, x: int)
    requires t.interval >= 1 && t.start + n * t.interval <= x
    ensures n <= Cell(t, x)
  {
    var a, i := x - t.start, t.interval;
    assert a == (a / i) * i + a % i;
    assert (a / i + 1) * i == (a / i) * i + i;
    Below(n, a / i + 1, i);
  }

  predicate SameTicks(s: State, s': State) {
    && s'.ticker == s.ticker && |s'.batches| == |s.batches|
    && forall i | 0 <= i < |s.batches| :: s'.batches[i].recv == s.batches[i].recv && s'.batches[i].begin == s.batches[i].begin
  }

  lemma QuietCelled(s: State, s': State)
    requires Celled(s) && SameTicks(s, s')
    ensures Celled(s')
  {
    hide Cell;
    assert forall i | 0 <= i < |s.batches| :: s'.batches[i].recv == s.batches[i].recv;
  }

  lemma FireCelled(s: State)
    requires Celled(s) && Timeline(s) && Due(s.ticker, s.now)
    ensures Celled(s.(ticker := FireTicker(s.ticker, s.now)))
  {
    var t := FireTicker(s.ticker, s.now);
    assert t.fired == Cell(s.ticker, s.now);
    hide FireTicker, Due;
    forall i | 0 <= i < |s.batches| ensures Cell(t, s.batches[i].recv) == Cell(s.ticker, s.batches[i].recv) <= t.fired {
      assert Ordered(s.batches[i], s.now);
      CellMono(s.ticker, s.batches[i].recv, s.now);
    }
    hide Cell;
    forall i | 0 <= i < |s.batches| ensures t.fired >= Cell(t, s.batches[i].recv) + (|s.batches| - i - 1) {
      if i < |s.batches| - 1 {
        assert s.ticker.fired >= Cell(s.ticker, s.batches[i].recv) + (|s.batches| - i - 2);
      }
    }
  }

  lemma TakeCelled(s: State)
    requires Celled(s) && s.ticker.full && Sane(s.ticker, s.now)
    ensures Celled(Unlimited(s))
  {
    var s' := Unlimited(s);
    CellOf(s.ticker, s.ticker.fired, s.now);
    assert forall x :: Cell(s'.ticker, x) == Cell(s.ticker, x);
    hide Cell;
  }

  lemma LaunchCelled(s: State, k: nat)
    requires Celled(s)
    ensures Celled(LaunchOne(s, k))
  {
    QuietCelled(s, LaunchOne(s, k));
  }

  lemma FreshCelled(s: State)
    requires s.batches == [] && s.ticker.interval >= 1
    ensures Celled(s)
  {
  }

  lemma MainCelled(c: Cfg, s: State, choice: Choice, s': State)
    requires Runnable(c) && c.kind == CloudEvent && Celled(s) && Sane(s.ticker, s.now) && Timeline(s) && Timeline(s')
    requires Shape(c, s) && Shape(c, s') && MainStep(c, s, choice) == Some(s')
    ensures Celled(s')
  {
    hide Celled, LimiterShape, Ladder, Runnable, Interval;
    if s'.batches == [] {
      FreshCelled(s');
    } else if s.at.Launch? {
      AtLaunch(c, s, choice);
      hide MainStep, LaunchOne;
      if s.at.k < BatchSize(c, s.section) {
        LaunchCelled(s, s.at.k);
      } else {
        QuietCelled(s, s');
      }
    } else if s.at == Loop && choice == TakeTick && s.section == Steady {
      AtSteadyLoop(c, s, choice);
      hide MainStep;
      TakeCelled(s);
    } else {
      hide LaunchOne;
      QuietCelled(s, s');
    }
  }

  lemma StepCelled(c: Cfg, s: State, a: Action, s': State)
    requires Runnable(c) && c.kind == CloudEvent && Celled(s) && Sane(s.ticker, s.now) && Timeline(s) && Timeline(s')
    requires Shape(c, s) && Shape(c, s') && Step(c, s, a) == Some(s')
    ensures Celled(s')
  {
    hide Celled, LimiterShape, Ladder, Runnable, MainStep, WorkStep, FireTicker;
    match a {
      case Main(choice) => MainCelled(c, s, choice, s');
      case Fire => FireCelled(s);
      case _ => QuietCelled(s, s');
    }
  }

  lemma {:induction false} RunCelled(c: Cfg, s: State, acts: seq<Action>, s': State)
    requires Runnable(c) && c.kind == CloudEvent && c.rate > 0.0
    requires Celled(s) && Dated(c, s) && Timed(c, s) && Invariant(c, s)
    requires Run(c, s, acts) == Some(s')
    ensures Celled(s')
    decreases |acts|
  {
    hide Step, Celled, Timeline, Spaced, Numbered, Shape, Books, Tally, Runnable, Heeded, TicksLate;
    if acts != [] {
      var next := Step(c, s, acts[0]).value;
      StepDated(c, s, acts[0], next);
      StepTimed(c, s, acts[0], next);
      StepHolds(c, s, acts[0], next);
      StepCelled(c, s, acts[0], next);
      hide Invariant, Timed, Dated;
      RunCelled(c, next, acts[1..], s');
    }
  }

  lemma ReachableCelled(c: Cfg, s: State)
    requires Runnable(c) && c.kind == CloudEvent && Reachable(c, s)
    ensures Celled(s)
  {
    var acts :| Run(c, Init(c), acts) == Some(s);
    InitHolds(c);
    InitTimed(c);
    assert Celled(Init(c));
    hide Invariant, Timed, Dated, Celled, Run;
    RunCelled(c, Init(c), acts, s);
  }

  lemma CellsApart(t: Ticker, x: int, y: int)
    requires t.interval >= 1
    ensures (Cell(t, y) - Cell(t, x) - 1) * t.interval < y - x
  {
    var a, b, i := x - t.start, y - t.start, t.interval;
    assert a == (a / i) * i + a % i && b == (b / i) * i + b % i;
    assert (b / i - a / i - 1) * i == (b / i) * i - (a / i) * i - i;
  }

  lemma LooseBatches(s: State, i: nat, j: nat)
    requires Timeline(s) && i < j < |s.batches|
    ensures s.batches[i].last <= s.batches[i + 1].recv <= s.batches[i + 1].last
  {
    assert Ordered(s.batches[i + 1], s.now);
  }

  /** The rate of the cloud-event loop, for every run: the batches that launch anything within a
      window of t nanoseconds number less than 4 + t / I. */
  lemma EventWindow(c: Cfg, s: State, i: nat, j: nat, from: int, t: nat)
    requires Runnable(c) && c.kind == CloudEvent && Reachable(c, s) && i <= j < |s.batches|
    requires s.batches[i].last >= from && s.batches[j].begin <= from + t
    ensures (j - i + 1 - 4) * Interval(c.rate) < t
  {
    ReachableCelled(c, s);
    ReachableDated(c, s);
    ReachableTimed(c, s);
    hide Reachable, Runnable, Interval, Heeded, TicksLate, Spaced, Numbered, Cell;
    if j - i > 2 {
      LooseBatches(s, i, j);
      var x, y := s.batches[i + 1].recv, s.batches[j].recv;
      CellsApart(s.ticker, x, y);
      ScaleUp(j - i - 3, Cell(s.ticker, y) - Cell(s.ticker, x) - 1, s.ticker.interval);
    } else {
      ScaleUp(j - i - 3, -1, s.ticker.interval);
    }
  }

  // ---------- three events at one instant ----------

  lemma Received(c: Cfg, s: State) returns (acts: seq<Action>, s': State)
    requires Runnable(c) && c.kind == CloudEvent && c.duration <= 0 && s.at == Loop && s.section == Steady && s.ticker.full
    ensures Run(c, s, acts) == Some(s') && s'.at == Loop && SameFrame(s, s') && s'.now == s.now
    ensures |s'.batches| == |s.batches| + 1 && s'.batches[..|s.batches|] == s.batches
    ensures var b := s'.batches[|s.batches|]; b.begin == s.now && b.last == s.now
    ensures s'.ticker == s.ticker.(full := false, received := s.ticker.received + 1)
  {
    var s1 := Unlimited(s);
    AtSteadyLoop(c, s, TakeTick);
    hide Run, Runnable;
    NoSteps(c, s);
    RunThen(c, s, [], s, Main(TakeTick), s1);
    var ys, s2 := LaunchAll(c, s1);
    RunJoin(c, s, [] + [Main(TakeTick)], s1, ys, s2);
    GoOn(c, s2);
    s' := s2.(at := Loop);
    RunThen(c, s, [] + [Main(TakeTick)] + ys, s2, Main(Go), s');
    acts := [] + [Main(TakeTick)] + ys + [Main(Go)];
  }

  /** A batch whose launch is held up for two intervals, during the first of which a tick fires. */
  lemma HeldUp(c: Cfg, s: State) returns (acts: seq<Action>, s': State)
    requires Runnable(c) && c.kind == CloudEvent && c.duration <= 0 && s.section == Steady
    requires s.at == Launch(0) && |s.batches| == 1 && s.ticker.interval >= 1 && s.ticker.start <= s.now
    requires !Due(s.ticker, s.now) && s.ticker.start + s.ticker.fired * s.ticker.interval <= s.now && !s.ticker.full
    ensures Run(c, s, acts) == Some(s') && s'.at == Loop && SameFrame(s, s')
    ensures |s'.batches| == 1 && s'.batches[0].last == s'.now
    ensures s'.ticker.full && Due(s'.ticker, s'.now) && s'.ticker.interval == s.ticker.interval
  {
    var i := s.ticker.interval;
    var s1 := s.(now := s.now + i);
    assert (s.ticker.fired + 1) * i == s.ticker.fired * i + i;
    var s2 := s1.(ticker := FireTicker(s.ticker, s1.now));
    var s3 := s2.(now := s2.now + i);
    StillDue(s2.ticker, s1.now);
    var s4 := LaunchOne(s3, 0);
    var s5 := s4.(at := Check);
    AtLaunch(c, s3, Go);
    AtLaunch(c, s4, Go);
    s' := s5.(at := Loop);
    GoOn(c, s5);
    assert Step(c, s, Pass(i)) == Some(s1) && Step(c, s1, Fire) == Some(s2) && Step(c, s2, Pass(i)) == Some(s3);
    assert Step(c, s3, Main(Go)) == Some(s4) && Step(c, s4, Main(Go)) == Some(s5);
    hide Step, Run, Runnable, FireTicker, Due;
    NoSteps(c, s);
    acts := [];
    RunThen(c, s, acts, s, Pass(i), s1);
    acts := acts + [Pass(i)];
    RunThen(c, s, acts, s1, Fire, s2);
    acts := acts + [Fire];
    RunThen(c, s, acts, s2, Pass(i), s3);
    acts := acts + [Pass(i)];
    RunThen(c, s, acts, s3, Main(Go), s4);
    acts := acts + [Main(Go)];
    RunThen(c, s, acts, s4, Main(Go), s5);
    acts := acts + [Main(Go)];
    RunThen(c, s, acts, s5, Main(Go), s');
    acts := acts + [Main(Go)];
  }

  lemma StillDue(t: Ticker, now: int)
    requires t.interval >= 1 && t.start + t.fired * t.interval <= now
    ensures Due(t, now + t.interval)
  {
    assert (t.fired + 1) * t.interval == t.fired * t.interval + t.interval;
  }

  /** The first event, sent two intervals late. */
  lemma LateEvent(c: Cfg) returns (acts: seq<Action>, s: State)
    requires Runnable(c) && c.kind == CloudEvent && c.duration <= 0
    ensures Run(c, Init(c), acts) == Some(s) && s.at == Loop && s.section == Steady
    ensures |s.batches| == 1 && s.batches[0].last == s.now && s.ticker.full && Due(s.ticker, s.now)
  {
    IntervalPositive(c.rate);
    hide Run, Init, Interval, Runnable, Due;
    var xs, s0 := Enter(c, Interval(c.rate));
    assert Due(s0.ticker, s0.now) by { EntersDue(c, s0); }
    var ys, s1 := TakeOne(c, s0, s0.now);
    RunJoin(c, Init(c), xs, s0, ys, s1);
    var zs, s2 := HeldUp(c, s1);
    RunJoin(c, Init(c), xs + ys, s1, zs, s2);
    acts, s := xs + ys + zs, s2;
  }

  /** The bound is the least whole one: three events may be sent at one instant. */
  lemma EventsAtOnce(c: Cfg) returns (s: State)
    requires Runnable(c) && c.kind == CloudEvent && c.duration <= 0
    ensures Reachable(c, s) && |s.batches| == 3 && s.batches[0].last == s.batches[2].begin
  {
    hide Run, Init, Runnable, Due, FireTicker;
    var xs, s2 := LateEvent(c);
    var us, s3 := Received(c, s2);
    RunJoin(c, Init(c), xs, s2, us, s3);
    assert Due(s3.ticker, s3.now) by { SameDue(s2.ticker, s3.ticker, s3.now); }
    var s4 := s3.(ticker := FireTicker(s3.ticker, s3.now));
    RunThen(c, Init(c), xs + us, s3, Fire, s4);
    var ws, s5 := Received(c, s4);
    RunJoin(c, Init(c), xs + us + [Fire], s4, ws, s5);
    s := s5;
    assert s.batches[..2] == s3.batches && s3.batches[..1] == s2.batches;
    assert Run(c, Init(c), xs + us + [Fire] + ws) == Some(s);
  }

  lemma SameDue(t: Ticker, t': Ticker, now: int)
    requires Due(t, now) && t' == t.(full := t'.full, received := t'.received)
    ensures Due(t', now)
  {
  }

  lemma EntersDue(c: Cfg, s: State)
    requires c.rate > 0.0 && Entered(c, s, Interval(c.rate)) && Interval(c.rate) >= 1
    ensures Due(s.ticker, s.now)
  {
    hide Interval;
  }
}
