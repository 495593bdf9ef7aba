/** Ticks that fall due before the steady loop begins are dropped but for one in the channel, so a
    late beginning costs at most a few batches, however late it is. */
module Dropped {
  import opened Options
  import opened Limiter
  import opened Machine
  import opened Accounting
  import opened Pacing
  import opened Deadline

  /** The intervals that had passed at the start time. */
  function Missed(s: State): int
    requires s.ticker.interval >= 1
  {
    (s.startTime - s.ticker.start) / s.ticker.interval
  }

  /** Tick number n after the missed ones is due. */
  function Grid(s: State, n: int): int
    requires s.ticker.interval >= 1
  {
    s.ticker.start + (Missed(s) + n) * s.ticker.interval
  }

  /** The second tick received, and each one after, fired after the start time. */
  predicate Skipped(s: State) {
    && (s.at.SteadyClock? ==> s.ticker.received == 0)
    && (Looping(s) && s.ticker.interval >= 1 ==>
          && (s.ticker.received >= 1 && s.ticker.full ==> s.ticker.fired >= Missed(s) + s.ticker.received - 1)
          && (s.ticker.received >= 2 ==> s.ticker.fired >= Missed(s) + s.ticker.received - 2)
          && (forall i | 1 <= i < |s.batches| :: s.batches[i].recv >= Grid(s, i - 1))
          && (Between(s) && s.batches != [] ==> s.recv >= Grid(s, |s.batches| - 1)))
  }

  lemma QuietSkipped(s: State, s': State)
    requires Skipped(s) && s'.ticker == s.ticker && s'.startTime == s.startTime && s'.batches == s.batches && s'.recv == s.recv
    requires s'.at.SteadyClock? ==> s.at.SteadyClock?
    requires Looping(s') ==> Looping(s)
    requires Looping(s') && Between(s') ==> Between(s)
    ensures Skipped(s')
  {
    assert s.ticker.interval >= 1 ==> Missed(s') == Missed(s) && forall n :: Grid(s', n) == Grid(s, n);
    hide Missed, Grid, Early;
  }

  lemma MissedBefore(s: State)
    requires Due(s.ticker, s.now) && s.startTime <= s.now
    ensures Missed(s) <= FireTicker(s.ticker, s.now).fired
  {
    var i := s.ticker.interval;
    var a, b := s.startTime - s.ticker.start, s.now - s.ticker.start;
    assert a == (a / i) * i + a % i && b == (b / i) * i + b % i;
    assert (a / i) * i < (b / i + 1) * i;
    Below(a / i, b / i + 1, i);
  }

  lemma FireSkipped(s: State)
    requires Skipped(s) && Due(s.ticker, s.now) && (Looping(s) ==> s.startTime <= s.now)
    ensures Skipped(s.(ticker := FireTicker(s.ticker, s.now)))
  {
    var s' := s.(ticker := FireTicker(s.ticker, s.now));
    assert Missed(s') == Missed(s);
    assert forall n :: Grid(s', n) == Grid(s, n);
    if Looping(s) {
      MissedBefore(s);
    }
    hide Missed, Grid, Early, FireTicker;
  }

  lemma TakeSkipped(s: State, place: Where)
    requires Skipped(s) && s.at == Loop && s.ticker.full && Sane(s.ticker, s.now) && s.ticker.interval >= 1
    requires Looping(s) ==> s.ticker.received >= |s.batches|
    requires place == WaitStart
    ensures Skipped(s.(ticker := s.ticker.(full := false, received := s.ticker.received + 1), recv := s.now, at := place))
  {
    var t := s.ticker;
    var s' := s.(ticker := t.(full := false, received := t.received + 1), recv := s.now, at := place);
    assert Missed(s') == Missed(s);
    assert forall n :: Grid(s', n) == Grid(s, n);
    if Looping(s) && s.batches != [] {
      GridBelow(s, |s.batches| - 1, t.fired);
    }
    hide Missed, Grid;
  }

  lemma GridBelow(s: State, n: int, fired: int)
    requires s.ticker.interval >= 1 && Missed(s) + n <= fired
    ensures Grid(s, n) <= s.ticker.start + fired * s.ticker.interval
  {
    assert (fired - (Missed(s) + n)) * s.ticker.interval >= 0;
  }

  lemma AddSkipped(s: State, b: Batch)
    requires Skipped(s) && Between(s) && b.recv == s.recv
    ensures Skipped(s.(at := Launch(0), batches := s.batches + [b]))
  {
    var s' := s.(at := Launch(0), batches := s.batches + [b]);
    assert s.ticker.interval >= 1 ==> Missed(s') == Missed(s) && forall n :: Grid(s', n) == Grid(s, n);
    hide Missed, Grid;
  }

  lemma LaunchSkipped(s: State, k: nat)
    requires Skipped(s) && s.at == Launch(k)
    ensures Skipped(LaunchOne(s, k))
  {
    var s' := LaunchOne(s, k);
    assert s.ticker.interval >= 1 ==> Missed(s') == Missed(s) && forall n :: Grid(s', n) == Grid(s, n);
    hide Missed, Grid;
  }

  lemma LoopSkipped(c: Cfg, s: State, choice: Choice, s': State)
    requires Runnable(c) && c.rate > 0.0 && Skipped(s) && Dated(c, s) && Timeline(s) && Shape(c, s) && s.at == Loop
    requires MainStep(c, s, choice) == Some(s')
    ensures Skipped(s')
  {
    hide Skipped, LimiterShape, Ladder, OpenBatch, Interval, Heeded;
    if choice == TakeTick {
      TakeSkipped(s, WaitStart);
      if c.kind == CloudEvent && s.section == Steady {
        AddSkipped(s.(ticker := s'.ticker, recv := s.now, at := WaitStart), Batch(s.now, s.now as real, s.now, s.now, |s.workers|));
      }
    } else {
      QuietSkipped(s, s');
    }
  }

  lemma WaitingSkipped(c: Cfg, s: State, choice: Choice, s': State)
    requires Runnable(c) && Skipped(s) && Shape(c, s) && s.at.Waiting? && MainStep(c, s, choice) == Some(s')
    ensures Skipped(s')
  {
    hide Skipped, LimiterShape, Ladder, ZeroTimeOr, Interval;
    if choice == Go && s.section == Steady {
      AddSkipped(s, Batch(s.recv, ZeroTimeOr(s), s.now, s.now, |s.workers|));
    } else {
      QuietSkipped(s, s');
    }
  }

  lemma SetupSkipped(c: Cfg, s: State, choice: Choice, s': State)
    requires Runnable(c) && c.rate > 0.0 && Skipped(s) && Timeline(s) && Shape(c, s) && MainStep(c, s, choice) == Some(s')
    requires s.at.RampCheck? || s.at.SteadyTicker? || s.at.SteadyClock?
    ensures Skipped(s')
  {
    if s.at.RampCheck? {
      AtRampCheck(c, s, choice);
    } else if s.at.SteadyTicker? {
      AtSteadyTicker(c, s, choice);
    } else {
      AtSteadyClock(c, s, choice);
    }
    hide MainStep, LimiterShape, Ladder, Interval, NewBucket, Missed, Grid, Runnable;
  }

  lemma MainSkipped(c: Cfg, s: State, choice: Choice, s': State)
    requires Runnable(c) && c.rate > 0.0 && Skipped(s) && Dated(c, s) && Timeline(s) && Shape(c, s)
    requires MainStep(c, s, choice) == Some(s')
    ensures Skipped(s')
  {
    match s.at {
      case Loop => hide *; LoopSkipped(c, s, choice, s');
      case Waiting(_, _) => hide *; WaitingSkipped(c, s, choice, s');
      case SteadyTicker => hide *; SetupSkipped(c, s, choice, s');
      case SteadyClock => hide *; SetupSkipped(c, s, choice, s');
      case RampCheck => hide *; SetupSkipped(c, s, choice, s');
      case Launch(k) =>
        AtLaunch(c, s, choice);
        hide MainStep, Skipped, Shape, LaunchOne, Dated, Timeline, Runnable;
        if k < BatchSize(c, s.section) {
          LaunchSkipped(s, k);
        } else {
          QuietSkipped(s, s');
        }
      case _ =>
        hide Skipped, LimiterShape, Ladder, Reserve, Interval, Period, Limiter.Sound, Runnable, Timeline, Dated;
        QuietSkipped(s, s');
    }
  }

  lemma StepSkipped(c: Cfg, s: State, a: Action, s': State)
    requires Runnable(c) && c.rate > 0.0 && Skipped(s) && Dated(c, s) && Timeline(s) && Shape(c, s) && Step(c, s, a) == Some(s')
    ensures Skipped(s')
  {
    match a {
      case Main(choice) => hide *; MainSkipped(c, s, choice, s');
      case Fire => hide MainStep, WorkerStep, Skipped, Shape, Runnable, FireTicker, Interval; FireSkipped(s);
      case _ => hide MainStep, WorkStep, Skipped, Shape, Runnable, Dated; QuietSkipped(s, s');
    }
  }

  lemma {:induction false} RunSkipped(c: Cfg, s: State, acts: seq<Action>, s': State)
    requires Runnable(c) && c.rate > 0.0 && Skipped(s) && Dated(c, s) && Timed(c, s) && Invariant(c, s)
    requires Run(c, s, acts) == Some(s')
    ensures Skipped(s')
    decreases |acts|
  {
    hide Step, Skipped, Dated, Timeline, Spaced, Numbered, Shape, Books, Tally, Runnable;
    if acts != [] {
      var next := Step(c, s, acts[0]).value;
      StepSkipped(c, s, acts[0], next);
      StepDated(c, s, acts[0], next);
      StepTimed(c, s, acts[0], next);
      StepHolds(c, s, acts[0], next);
      hide Invariant, Timed;
      RunSkipped(c, next, acts[1..], s');
    }
  }

  lemma ReachableSkipped(c: Cfg, s: State)
    requires Runnable(c) && c.rate > 0.0 && Reachable(c, s)
    ensures Skipped(s)
  {
    var acts :| Run(c, Init(c), acts) == Some(s);
    InitHolds(c);
    InitTimed(c);
    assert Skipped(Init(c));
    hide Invariant, Timed, Dated, Skipped, Run;
    RunSkipped(c, Init(c), acts, s);
  }

  /** However long before the loop its ticker was started, at most D/I + 4 batches are launched:
      three, and as many as fit in the duration and the ticker's phase at the start. */
  lemma LateStart(c: Cfg, s: State)
    requires Runnable(c) && c.rate > 0.0 && c.duration > 0 && Reachable(c, s) && Looping(s) && Interval(c.rate) > 0
    ensures Gap(s) >= 0
    ensures |s.batches| <= 3 + (c.duration + Gap(s) % Interval(c.rate)) / Interval(c.rate)
    ensures |s.batches| <= 4 + c.duration / Interval(c.rate)
  {
    var i := Interval(c.rate);
    ReachableSkipped(c, s);
    ReachableDated(c, s);
    DeadlineBound(c, s);
    if |s.batches| > 2 {
      var n := |s.batches| - 2;
      BatchDates(c, s, n);
      Phase(Gap(s), c.duration, i, n);
    } else {
      FewFit(c.duration, Gap(s) % i, i);
    }
    Remainder(c.duration, Gap(s) % i, i);
  }

  lemma FewFit(d: int, r: int, i: int)
    requires d > 0 && r >= 0 && i > 0
    ensures (d + r) / i >= 0
  {
  }

  lemma Phase(gap: int, d: int, i: int, n: int)
    requires i > 0 && gap >= 0 && n >= 1
    ensures (gap / i + n - 1) * i <= gap + d ==> n + 2 <= 3 + (d + gap % i) / i
  {
    var q, r := gap / i, gap % i;
    var x := (d + r) / i;
    assert gap == q * i + r && d + r == x * i + (d + r) % i;
    assert (q + n - 1) * i == q * i + (n - 1) * i;
    if (q + n - 1) * i <= gap + d {
      Below(n - 1, x + 1, i);
    }
  }

  lemma Remainder(d: int, r: int, i: int)
    requires d > 0 && 0 <= r < i
    ensures (d + r) / i <= d / i + 1
  {
    var x, y := (d + r) / i, d / i;
    assert d + r == x * i + (d + r) % i && d == y * i + d % i;
    assert x * i < (y + 2) * i;
    Below(x, y + 2, i);
  }
}
