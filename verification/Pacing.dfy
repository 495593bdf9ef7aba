/** When the steady loop's batches are launched: in order, spaced by the limiter's tokens, and never
    more than a fixed number in a window, whatever the delays of ticks, goroutines and timers. */
module Pacing {
  import opened Options
  import opened Limiter
  import opened Machine
  import opened Accounting

  // ---------- what every step keeps ----------

  predicate Ordered(b: Batch, now: int) {
    b.recv <= b.begin <= b.last <= now && b.recv as real <= b.grant < (b.begin + 1) as real
  }

  /** In the steady section between a tick and its batch. */
  predicate Between(s: State) { s.section == Steady && (s.at.WaitStart? || s.at.Waiting?) }

  predicate Early(s: State) {
    s.section != Steady || s.at.Begin? || s.at.SteadyTicker? || s.at.SteadyClock?
  }

  predicate Timeline(s: State) {
    && (Early(s) ==> s.batches == [])
    && (forall i | 0 <= i < |s.batches| :: Ordered(s.batches[i], s.now))
    && (forall i | 0 <= i < |s.batches| - 1 :: s.batches[i].last <= s.batches[i + 1].recv)
    && (Between(s) ==> s.recv <= s.now)
    && (Between(s) && s.batches != [] ==> s.batches[|s.batches| - 1].last <= s.recv)
  }

  /** Consecutive tokens are due at least one period apart. */
  predicate Spaced(c: Cfg, s: State)
    requires c.rate > 0.0
  {
    var n, p := |s.batches|, Period(c.rate);
    && Limiter.Sound(s.limiter)
    && (forall i | 0 <= i < n - 1 :: s.batches[i].grant + p <= s.batches[i + 1].grant)
    && (n > 0 ==> s.batches[n - 1].grant + (if Between(s) && s.at.Waiting? then p else 0.0) <= ZeroTime(s.limiter))
    && (Between(s) && s.at.Waiting? ==> s.recv as real <= ZeroTime(s.limiter) < (s.at.act + 1) as real)
  }

  /** Workers are launched batch after batch, each within its batch's time. */
  predicate Numbered(c: Cfg, s: State) {
    var n, size := |s.batches|, BatchSize(c, Steady);
    && (forall i | 0 <= i < n - 1 :: s.batches[i + 1].first == s.batches[i].first + size)
    && (forall i, j | 0 <= i < j < n :: s.batches[i].first + size <= s.batches[j].first)
    && (n > 0 ==> |s.workers| == s.batches[n - 1].first + if s.at.Launch? then s.at.k else size)
    && (forall i, q | 0 <= i < n && s.batches[i].first <= q < s.batches[i].first + size && q < |s.workers| ::
          s.batches[i].begin <= s.workers[q].at <= s.batches[i].last)
  }

  predicate Timed(c: Cfg, s: State)
    requires c.rate > 0.0
  {
    Timeline(s) && (c.kind == Http ==> Spaced(c, s)) && Numbered(c, s)
  }

  // ---------- the steps ----------

  /** A step that neither waits nor launches. */
  lemma QuietTimed(c: Cfg, s: State, s': State)
    requires c.rate > 0.0 && Timed(c, s)
    requires s'.batches == s.batches && s'.limiter == s.limiter && s'.workers == s.workers && s'.now == s.now
    requires !Between(s') && !s'.at.Launch? && (s.at.Launch? ==> s.at.k == BatchSize(c, Steady) || s.batches == [])
    requires Early(s') ==> s.batches == []
    ensures Timed(c, s')
  {
    hide Ordered, Period, Limiter.Sound, ZeroTime;
    assert Timeline(s');
    assert c.kind == Http && Between(s) && s.at.Waiting? ==> Period(c.rate) > 0.0;
  }

  lemma OrderedLater(b: Batch, now: int, later: int)
    requires Ordered(b, now) && now <= later
    ensures Ordered(b, later)
  {
  }

  lemma PassTimed(c: Cfg, s: State, dt: nat)
    requires c.rate > 0.0 && Timed(c, s)
    ensures Timed(c, s.(now := s.now + dt))
  {
    var s' := s.(now := s.now + dt);
    forall i | 0 <= i < |s.batches| ensures Ordered(s'.batches[i], s'.now) {
      OrderedLater(s.batches[i], s.now, s'.now);
    }
    hide Ordered, Period, Limiter.Sound, ZeroTime;
  }

  lemma WorkTimed(c: Cfg, s: State, s': State)
    requires c.rate > 0.0 && Timed(c, s)
    requires s' == s.(workers := s'.workers, calls := s'.calls, requestCount := s'.requestCount, wg := s'.wg, log := s'.log)
    requires |s'.workers| == |s.workers| && forall q | 0 <= q < |s.workers| :: s'.workers[q].at == s.workers[q].at
    ensures Timed(c, s')
  {
    hide Ordered, Period, Limiter.Sound, ZeroTime;
    assert Timeline(s');
    assert c.kind == Http ==> Spaced(c, s');
  }

  lemma TickTimed(c: Cfg, s: State, t: Ticker)
    requires c.rate > 0.0 && Timed(c, s) && s.at == Loop
    ensures Timed(c, s.(ticker := t, recv := s.now, at := WaitStart))
  {
    hide Period, Limiter.Sound, ZeroTime;
  }

  lemma ReserveTimed(c: Cfg, s: State)
    requires c.rate > 0.0 && Timed(c, s) && s.at == WaitStart && Shape(c, s) && s.section == Steady
    ensures var (b, act) := Reserve(s.limiter, s.now);
            Timed(c, s.(limiter := b, at := Waiting(act, act > s.now)))
  {
    BucketIsSchedule(s.limiter, s.now);
    WaitEnds(s.limiter, s.now);
    hide Reserve, Period, ZeroTime, Place;
  }

  lemma RampWaitTimed(c: Cfg, s: State, b: Bucket, at: Where)
    requires c.rate > 0.0 && Timed(c, s) && s.section.Ramp? && !s.at.Launch?
    ensures !at.Launch? ==> Timed(c, s.(local := b, at := at))
  {
    hide Ordered, Period, Limiter.Sound, ZeroTime;
  }

  lemma AddNumbered(c: Cfg, s: State, s': State, b: Batch)
    requires Numbered(c, s) && !s.at.Launch? && b.first == |s.workers|
    requires s'.batches == s.batches + [b] && s'.workers == s.workers && s'.at == Launch(0)
    ensures Numbered(c, s')
  {
    hide BatchSize;
  }

  lemma AddTimeline(s: State, s': State, b: Batch)
    requires Timeline(s) && s.section == Steady && Ordered(b, s.now)
    requires s.batches != [] ==> s.batches[|s.batches| - 1].last <= b.recv
    requires s'.batches == s.batches + [b] && s'.section == Steady && s'.at == Launch(0) && s'.now == s.now
    ensures Timeline(s')
  {
    hide Ordered;
  }

  lemma AddSpaced(c: Cfg, s: State, s': State, b: Batch)
    requires c.rate > 0.0 && Spaced(c, s) && Between(s) && s.at.Waiting? && b.grant == ZeroTime(s.limiter)
    requires s'.batches == s.batches + [b] && s'.limiter == s.limiter && s'.at == Launch(0)
    ensures Spaced(c, s')
  {
    hide Limiter.Sound, ZeroTime, Period;
  }

  lemma OpenTimed(c: Cfg, s: State)
    requires c.rate > 0.0 && Timed(c, s) && s.at.Waiting? && s.now >= s.at.act && s.section == Steady && c.kind == Http
    ensures Timed(c, OpenBatch(s))
  {
    var b := Batch(s.recv, ZeroTime(s.limiter), s.now, s.now, |s.workers|);
    assert OpenBatch(s) == s.(at := Launch(0), batches := s.batches + [b]);
    assert Ordered(b, s.now);
    hide OpenBatch, Ordered, Period, Limiter.Sound, ZeroTime;
    var s' := s.(at := Launch(0), batches := s.batches + [b]);
    AddTimeline(s, s', b);
    hide Timeline;
    AddSpaced(c, s, s', b);
    AddNumbered(c, s, s', b);
  }

  lemma CloudTickTimed(c: Cfg, s: State, t: Ticker)
    requires c.rate > 0.0 && Timed(c, s) && s.at == Loop && s.section == Steady && c.kind == CloudEvent
    ensures Timed(c, s.(ticker := t, recv := s.now, at := Launch(0),
                        batches := s.batches + [Batch(s.now, s.now as real, s.now, s.now, |s.workers|)]))
  {
    var b := Batch(s.now, s.now as real, s.now, s.now, |s.workers|);
    assert Ordered(b, s.now);
    var s' := s.(ticker := t, recv := s.now, at := Launch(0), batches := s.batches + [b]);
    if s.batches != [] {
      assert Ordered(s.batches[|s.batches| - 1], s.now);
    }
    AddTimeline(s, s', b);
    hide Timeline, Ordered;
    AddNumbered(c, s, s', b);
  }

  lemma LaunchNumbered(c: Cfg, s: State)
    requires Numbered(c, s) && s.at.Launch? && s.at.k < BatchSize(c, s.section) && (Early(s) ==> s.batches == [])
    requires forall i | 0 <= i < |s.batches| :: Ordered(s.batches[i], s.now)
    ensures Numbered(c, LaunchOne(s, s.at.k))
  {
    hide BatchSize;
  }

  lemma LaunchTimeline(c: Cfg, s: State)
    requires Timeline(s) && s.at.Launch?
    ensures Timeline(LaunchOne(s, s.at.k))
  {
  }

  lemma LaunchSpaced(c: Cfg, s: State)
    requires c.rate > 0.0 && Spaced(c, s) && s.at.Launch?
    ensures Spaced(c, LaunchOne(s, s.at.k))
  {
    hide Period, Limiter.Sound, ZeroTime;
  }

  lemma LaunchTimed(c: Cfg, s: State)
    requires c.rate > 0.0 && Timed(c, s) && s.at.Launch? && s.at.k < BatchSize(c, s.section)
    ensures Timed(c, LaunchOne(s, s.at.k))
  {
    LaunchTimeline(c, s);
    if c.kind == Http {
      LaunchSpaced(c, s);
    }
    hide Spaced, LaunchOne;
    LaunchNumbered(c, s);
    hide Timeline, Numbered, BatchSize;
  }

  lemma LoopTimed(c: Cfg, s: State, choice: Choice, s': State)
    requires Runnable(c) && c.rate > 0.0 && Timed(c, s) && Shape(c, s) && s.at == Loop && MainStep(c, s, choice) == Some(s')
    ensures Timed(c, s')
  {
    hide Timed, LimiterShape, Ladder, OpenBatch;
    if choice == TakeTick {
      if c.kind == CloudEvent && s.section == Steady {
        CloudTickTimed(c, s, s'.ticker);
      } else {
        TickTimed(c, s, s'.ticker);
      }
    } else {
      TimedEarly(c, s);
      QuietTimed(c, s, s');
    }
  }

  lemma TimedEarly(c: Cfg, s: State)
    requires c.rate > 0.0 && Timed(c, s)
    ensures Early(s) ==> s.batches == []
  {
  }

  lemma WaitTimed(c: Cfg, s: State, choice: Choice, s': State)
    requires Runnable(c) && c.rate > 0.0 && Timed(c, s) && Shape(c, s) && s.at == WaitStart
    requires MainStep(c, s, choice) == Some(s')
    ensures Timed(c, s')
  {
    hide Timed, LimiterShape, Ladder, Reserve;
    TimedEarly(c, s);
    if s.cancelled {
      QuietTimed(c, s, s');
    } else if s.section == Steady {
      ReserveTimed(c, s);
    } else {
      RampWaitTimed(c, s, s'.local, s'.at);
    }
  }

  lemma WaitingTimed(c: Cfg, s: State, choice: Choice, s': State)
    requires Runnable(c) && c.rate > 0.0 && Timed(c, s) && Shape(c, s) && s.at.Waiting?
    requires MainStep(c, s, choice) == Some(s')
    ensures Timed(c, s')
  {
    TimedEarly(c, s);
    if choice == Go && s.section == Steady {
      hide Timed, LimiterShape, Ladder, OpenBatch;
      OpenTimed(c, s);
    } else if choice == Go {
      hide LimiterShape, Ladder, Ordered, Spaced;
      assert Timeline(s');
      assert c.kind == Http ==> Spaced(c, s') by { RampSpaced(c, s, s'); }
    } else {
      hide Timed, LimiterShape, Ladder, OpenBatch;
      QuietTimed(c, s, s');
    }
  }

  lemma RampSpaced(c: Cfg, s: State, s': State)
    requires c.rate > 0.0 && (c.kind == Http ==> Spaced(c, s)) && s'.batches == s.batches == [] && s'.limiter == s.limiter && !Between(s')
    ensures c.kind == Http ==> Spaced(c, s')
  {
  }

  lemma MainTimed(c: Cfg, s: State, choice: Choice, s': State)
    requires Runnable(c) && c.rate > 0.0 && Timed(c, s) && Shape(c, s) && MainStep(c, s, choice) == Some(s')
    ensures Timed(c, s')
  {
    TimedEarly(c, s);
    match s.at {
      case Loop => hide *; LoopTimed(c, s, choice, s');
      case WaitStart => hide *; WaitTimed(c, s, choice, s');
      case Waiting(_, _) => hide *; WaitingTimed(c, s, choice, s');
      case Launch(k) =>
        AtLaunch(c, s, choice);
        hide MainStep, Timed, LimiterShape, Ladder, LaunchOne;
        if k < BatchSize(c, s.section) {
          LaunchTimed(c, s);
        } else {
          QuietTimed(c, s, s');
        }
      case _ =>
        hide Timed, LimiterShape, Ladder, OpenBatch, LaunchOne, Reserve, DeadlinePassed, BatchSize, ZeroTimeOr, Interval, Period,
          Limiter.Sound, Runnable;
        QuietTimed(c, s, s');
    }
  }

  lemma StepTimed(c: Cfg, s: State, a: Action, s': State)
    requires Runnable(c) && c.rate > 0.0 && Timed(c, s) && Shape(c, s) && Step(c, s, a) == Some(s')
    ensures Timed(c, s')
  {
    match a {
      case Main(choice) => hide *; MainTimed(c, s, choice, s');
      case Pass(dt) => hide MainStep, WorkerStep, Timed, Shape, Runnable; PassTimed(c, s, dt);
      case _ =>
        hide MainStep, WorkStep, Timed, Shape, Runnable;
        WorkTimed(c, s.(ticker := s'.ticker, cancelled := s'.cancelled), s') by { Untouched(c, s, s'.ticker, s'.cancelled); }
    }
  }

  lemma Untouched(c: Cfg, s: State, t: Ticker, cancelled: bool)
    requires c.rate > 0.0 && Timed(c, s)
    ensures Timed(c, s.(ticker := t, cancelled := cancelled))
  {
    hide Ordered, Period, Limiter.Sound, ZeroTime;
  }

  lemma {:induction false} RunTimed(c: Cfg, s: State, acts: seq<Action>, s': State)
    requires Runnable(c) && c.rate > 0.0 && Timed(c, s) && Invariant(c, s) && Run(c, s, acts) == Some(s')
    ensures Timed(c, s')
    decreases |acts|
  {
    hide Step, Timed, Shape, Books, Tally, Runnable;
    if acts != [] {
      var next := Step(c, s, acts[0]).value;
      StepTimed(c, s, acts[0], next);
      StepHolds(c, s, acts[0], next);
      hide Invariant;
      RunTimed(c, next, acts[1..], s');
    }
  }

  lemma ReachableTimed(c: Cfg, s: State)
    requires Runnable(c) && c.rate > 0.0 && Reachable(c, s)
    ensures Timed(c, s)
  {
    var acts :| Run(c, Init(c), acts) == Some(s);
    InitHolds(c);
    hide Invariant, Run;
    RunTimed(c, Init(c), acts, s);
  }

  // ---------- the rate ----------

  /** n periods. */
  function Spread(c: Cfg, n: int): real
    requires c.rate > 0.0
  {
    n as real * Period(c.rate)
  }

  lemma SpreadStep(c: Cfg, n: int)
    requires c.rate > 0.0
    ensures Spread(c, n) == Spread(c, n - 1) + Period(c.rate) && Spread(c, 0) == 0.0
  {
    var p := Period(c.rate);
    assert n as real * p == (n - 1) as real * p + p;
  }

  lemma {:induction false} GrantsApart(c: Cfg, s: State, i: nat, j: nat)
    requires c.rate > 0.0 && Spaced(c, s) && i <= j < |s.batches|
    ensures s.batches[i].grant + Spread(c, j - i) <= s.batches[j].grant
    decreases j - i
  {
    hide Limiter.Sound, ZeroTime, Period, Spread;
    SpreadStep(c, j - i);
    if i < j {
      GrantsApart(c, s, i + 1, j);
    }
  }

  lemma Between3(first: Batch, next: Batch, last: Batch, now: int, a: real, b: real)
    requires first.grant + a <= last.grant && next.grant + b <= last.grant
    requires Ordered(next, now) && Ordered(last, now) && first.last <= next.recv
    ensures a < (last.begin - first.begin + 1) as real + (first.begin as real - first.grant)
    ensures b < (last.begin - first.last + 1) as real
  {
  }

  lemma SteadyTimes(c: Cfg, s: State, i: nat, j: nat)
    requires Timeline(s) && i < j < |s.batches|
    ensures Ordered(s.batches[i + 1], s.now) && Ordered(s.batches[j], s.now) && s.batches[i].last <= s.batches[i + 1].recv
  {
  }

  /** Over any stretch of batches the tokens are due a period apart; a batch begins less than a
      nanosecond before its token, so only the lateness of the first of them can be made up. */
  lemma BatchesApart(c: Cfg, s: State, i: nat, j: nat)
    requires Runnable(c) && c.kind == Http && c.rate > 0.0 && Reachable(c, s) && i < j < |s.batches|
    ensures Spread(c, j - i) < (s.batches[j].begin - s.batches[i].begin + 1) as real + (s.batches[i].begin as real - s.batches[i].grant)
    ensures Spread(c, j - i - 1) < (s.batches[j].begin - s.batches[i].last + 1) as real
  {
    ReachableTimed(c, s);
    hide Reachable, Run, Period, Numbered, Ordered, Spread, Spaced, Timeline;
    SteadyTimes(c, s, i, j);
    GrantsApart(c, s, i, j);
    GrantsApart(c, s, i + 1, j);
    Between3(s.batches[i], s.batches[i + 1], s.batches[j], s.now, Spread(c, j - i), Spread(c, j - i - 1));
  }

  lemma Rearrange(rate: real, n: int, t: int)
    requires rate > 0.0 && n as real * Period(rate) < t as real
    ensures n as real < rate * t as real / SECOND
  {
    var p := Period(rate);
    assert p * rate == SECOND;
    assert (t as real - n as real * p) * rate > 0.0;
    assert n as real * p * rate == n as real * (p * rate);
    assert n as real * SECOND < t as real * rate;
  }

  /** Two, and the rate times the window and one nanosecond. */
  function WindowBound(rate: real, t: nat): real { 2.0 + rate * (t + 1) as real / SECOND }

  /** The rate guarantee of the HTTP generator's steady loop: the batches that launch anything
      within a window of t nanoseconds number less than 2 + R(t + 1 ns), for every run. */
  lemma BatchWindow(c: Cfg, s: State, i: nat, j: nat, from: int, t: nat)
    requires Runnable(c) && c.kind == Http && c.rate > 0.0 && Reachable(c, s) && i <= j < |s.batches|
    requires s.batches[i].last >= from && s.batches[j].begin <= from + t
    ensures (j - i + 1) as real < WindowBound(c.rate, t)
  {
    hide Reachable, Period;
    if i < j {
      BatchesApart(c, s, i, j);
      Rearrange(c.rate, j - i - 1, t + 1);
    } else {
      Positive(c.rate, t + 1);
    }
  }

  lemma Positive(rate: real, t: int)
    requires rate > 0.0 && t > 0
    ensures rate * t as real / SECOND > 0.0
  {
    assert rate * t as real > 0.0;
  }

  lemma {:induction false} Firsts(c: Cfg, s: State, i: nat, j: nat)
    requires Numbered(c, s) && i <= j < |s.batches|
    ensures s.batches[j].first == s.batches[i].first + (j - i) * BatchSize(c, Steady)
    decreases j - i
  {
    hide BatchSize;
    if i < j {
      Firsts(c, s, i + 1, j);
      var n := BatchSize(c, Steady);
      assert (j - i) * n == (j - (i + 1)) * n + n;
    }
  }

  /** The batch that launched a steady worker. */
  lemma {:induction false} BatchOf(c: Cfg, s: State, q: nat, n: nat) returns (i: nat)
    requires Numbered(c, s) && n < |s.batches| && s.batches[0].first <= q < |s.workers|
    requires n < |s.batches| - 1 ==> q < s.batches[n + 1].first
    requires s.at.Launch? ==> s.at.k <= BatchSize(c, Steady)
    ensures i <= n && s.batches[i].first <= q < s.batches[i].first + BatchSize(c, Steady)
    ensures s.batches[i].begin <= s.workers[q].at <= s.batches[i].last
  {
    hide BatchSize;
    if s.batches[n].first <= q {
      i := n;
    } else {
      i := BatchOf(c, s, q, n - 1);
    }
  }

  lemma SteadyNumbers(c: Cfg, s: State)
    requires Runnable(c) && c.rate > 0.0 && Reachable(c, s) && s.batches != []
    ensures Numbered(c, s) && (s.at.Launch? ==> s.at.k <= BatchSize(c, Steady))
  {
    ReachableTimed(c, s);
    ReachableHolds(c, s);
    hide Reachable, Shape, Books, Tally, Spaced, Numbered;
    if s.at.Launch? {
      LaunchPlace(c, s);
    }
  }

  /** So requests: if the first and the last steady request within a window of t nanoseconds are
      numbers f and l, they and those between are less than n(2 + R(t + 1 ns)). */
  lemma RequestWindow(c: Cfg, s: State, f: nat, l: nat, from: int, t: nat)
    requires Runnable(c) && c.kind == Http && c.rate > 0.0 && Reachable(c, s)
    requires s.batches != [] && s.batches[0].first <= f <= l < |s.workers|
    requires from <= s.workers[f].at && s.workers[l].at <= from + t
    ensures (l - f + 1) as real < c.targets as real * WindowBound(c.rate, t)
  {
    SteadyNumbers(c, s);
    hide Reachable, Runnable, Numbered, WindowBound;
    var i := BatchOf(c, s, f, |s.batches| - 1);
    var j := BatchOf(c, s, l, |s.batches| - 1);
    LaterBatch(c, s, f, l, i, j);
    BatchWindow(c, s, i, j, from, t);
    SpanScaled(c, s, f, l, i, j, WindowBound(c.rate, t));
  }

  lemma LaunchPlace(c: Cfg, s: State)
    requires Runnable(c) && c.rate > 0.0 && Shape(c, s) && Timed(c, s) && s.batches != [] && s.at.Launch?
    ensures s.at.k <= BatchSize(c, Steady)
  {
    hide Spaced, Numbered, LimiterShape;
  }

  lemma SmallerTimes(x: real, y: real, n: real)
    requires x < y && n > 0.0
    ensures x * n < n * y
  {
    assert (y - x) * n > 0.0;
  }

  lemma Scale(n: nat, k: int, m: int, bound: real)
    requires k <= m * n && m as real < bound && k >= 1
    ensures k as real < n as real * bound
  {
    assert n >= 1 by { assert n == 0 ==> m * n == 0; }
    SmallerTimes(m as real, bound, n as real);
    assert (m * n) as real == m as real * n as real;
  }

  /** A later worker is of a later batch, or of the same one. */
  lemma LaterBatch(c: Cfg, s: State, f: nat, l: nat, i: nat, j: nat)
    requires Numbered(c, s) && i < |s.batches| && j < |s.batches| && f <= l
    requires s.batches[i].first <= f && l < s.batches[j].first + BatchSize(c, Steady)
    ensures i <= j
  {
    hide BatchSize;
  }

  lemma SpanScaled(c: Cfg, s: State, f: nat, l: nat, i: nat, j: nat, bound: real)
    requires c.kind == Http && Numbered(c, s) && i <= j < |s.batches| && f <= l
    requires s.batches[i].first <= f && l < s.batches[j].first + BatchSize(c, Steady)
    requires (j - i + 1) as real < bound
    ensures (l - f + 1) as real < c.targets as real * bound
  {
    SpanCount(c, s, f, l, i, j);
    hide *;
    Scale(c.targets, l - f + 1, j - i + 1, bound);
  }

  lemma OneMoreBatch(n: int, size: nat)
    ensures (n + 1) * size == n * size + size
  {
  }

  lemma SpanCount(c: Cfg, s: State, f: nat, l: nat, i: nat, j: nat)
    requires c.kind == Http && Numbered(c, s) && i <= j < |s.batches| && f <= l
    requires s.batches[i].first <= f && l < s.batches[j].first + BatchSize(c, Steady)
    ensures l - f + 1 <= (j - i + 1) * c.targets
  {
    Firsts(c, s, i, j);
    hide Numbered;
    OneMoreBatch(j - i, c.targets);
  }
}
