/** How many batches there can be before the deadline, exactly, however long the steady loop's ticker
    had been running when the start time was read. */
module Soonest {
  import opened Options
  import opened Limiter
  import opened Machine
  import opened Accounting
  import opened Pacing
  import opened Scenarios
  import opened Deadline
  import opened Dropped

  /** Batch number n + 1 at its soonest, after the start time. With the limiter its tokens decide.
      Without, the ticks: one may wait in the channel, the next may fire as it is received, and the
      others come at the intervals after these. */
  function SoonestAt(c: Cfg, gap: nat, n: nat): int
    requires c.rate > 0.0 && Interval(c.rate) > 0
  {
    var i := Interval(c.rate);
    if c.kind == Http then Earliest(c, gap, n) else AtLeast((AtLeast(gap / i, 2) + n - 1) * i - gap, 0)
  }

  lemma NoneSooner(c: Cfg, s: State, n: nat)
    requires Runnable(c) && c.rate > 0.0 && Reachable(c, s) && Looping(s) && n < |s.batches| && Interval(c.rate) > 0
    ensures Gap(s) >= 0 && s.batches[n].last - s.startTime >= SoonestAt(c, Gap(s), n)
  {
    ReachableDated(c, s);
    hide Reachable, Interval, Runnable, Early;
    if c.kind == Http {
      NoneEarlier(c, s, n);
    } else {
      ReachableSkipped(c, s);
      BatchDates(c, s, n);
      assert n > 0 ==> s.batches[n].recv >= Grid(s, n - 1);
      NoEventSooner(c, s, n);
    }
  }

  /** The ticks a batch must have waited for. */
  lemma NoEventSooner(c: Cfg, s: State, n: nat)
    requires c.kind == CloudEvent && c.rate > 0.0 && Interval(c.rate) > 0 && s.ticker.interval == Interval(c.rate)
    requires Gap(s) >= 0 && n < |s.batches| && s.batches[n].recv <= s.batches[n].last
    requires s.batches[n].recv >= s.ticker.start + (n + 1) * Interval(c.rate) && s.batches[n].recv >= s.startTime
    requires n > 0 ==> s.batches[n].recv >= Grid(s, n - 1)
    ensures s.batches[n].last - s.startTime >= SoonestAt(c, Gap(s), n)
  {
    var i, q := Interval(c.rate), Gap(s) / Interval(c.rate);
    hide Interval;
    if q > 2 && n == 0 {
      assert Gap(s) == q * i + Gap(s) % i;
      ScaleUp(q - 1, q, i);
    }
  }

  // ---------- every number up to it is reached ----------

  /** After batch number n + 1, each at its soonest, without a limiter. */
  predicate Gridded(c: Cfg, gap: nat, s: State, n: nat)
    requires c.rate > 0.0
  {
    && Interval(c.rate) > 0 && Ready(c, s) && s.at == Check && |s.batches| == n + 1
    && s.ticker.start == s.startTime - gap && s.ticker.interval == Interval(c.rate)
    && s.ticker.fired == AtLeast(gap / Interval(c.rate), 2) + n - 1
    && s.now == s.startTime + SoonestAt(c, gap, n)
  }

  /** A tick that fires as soon as it is due. */
  lemma FiredOnce(t: Ticker, n: nat)
    requires t.interval >= 1 && n == t.fired + 1
    ensures Due(t, t.start + n * t.interval) && FireTicker(t, t.start + n * t.interval).fired == n
  {
    assert (n + 1) * t.interval == n * t.interval + t.interval;
    Quotient(n * t.interval, t.interval, n);
  }

  lemma Later(gap: nat, i: int, r: int, n: nat)
    requires i > 0 && r == AtLeast(gap / i, 2) && (gap / i < 2 || n > 0)
    ensures (r + n) * i - gap >= AtLeast((r + n - 1) * i - gap, 0)
  {
    assert (r + n) * i == (r + n - 1) * i + i;
    var q := gap / i;
    assert gap == q * i + gap % i;
    assert (q + 1) * i == q * i + i;
    if q + 1 < r + n {
      ScaleUp(q + 1, r + n, i);
    }
  }

  lemma NextGridded(c: Cfg, gap: nat, s: State, n: nat) returns (acts: seq<Action>, s': State)
    requires Runnable(c) && c.rate > 0.0 && c.kind == CloudEvent && Gridded(c, gap, s, n)
    requires (gap / Interval(c.rate) < 2 || n > 0) && SoonestAt(c, gap, n) <= c.duration
    ensures Run(c, s, acts) == Some(s') && Gridded(c, gap, s', n + 1) && s'.startTime == s.startTime
  {
    var i := Interval(c.rate);
    var r := AtLeast(gap / i, 2);
    Later(gap, i, r, n);
    hide Interval, Run, Due, Ready, Runnable, AtLeast;
    var tick := s.ticker.start + (r + n) * i;
    assert tick == s.startTime + SoonestAt(c, gap, n + 1) by { assert AtLeast((r + n) * i - gap, 0) == (r + n) * i - gap by { Most((r + n) * i - gap, AtLeast((r + n - 1) * i - gap, 0)); } }
    FiredOnce(s.ticker, r + n);
    GoOn(c, s);
    var s1 := s.(at := Loop);
    NoSteps(c, s);
    RunThen(c, s, [], s, Main(Go), s1);
    StillReady(c, s);
    var ys, s2 := OneBatch(c, s1, tick, tick);
    RunJoin(c, s, [] + [Main(Go)], s1, ys, s2);
    acts, s' := [] + [Main(Go)] + ys, s2;
  }

  lemma Most(x: int, y: int)
    requires x >= y >= 0
    ensures AtLeast(x, 0) == x
  {
  }

  lemma StillReady(c: Cfg, s: State)
    requires Ready(c, s)
    ensures Ready(c, s.(at := Loop))
  {
  }

  lemma FirstGridded(c: Cfg, gap: nat) returns (acts: seq<Action>, s: State)
    requires Runnable(c) && c.rate > 0.0 && c.kind == CloudEvent && Interval(c.rate) > 0 && gap / Interval(c.rate) < 2
    ensures Run(c, Init(c), acts) == Some(s) && Gridded(c, gap, s, 0)
  {
    var i := Interval(c.rate);
    var xs, s0 := Enter(c, gap);
    assert Ready(c, s0);
    assert s0.now == s0.startTime && s0.ticker == NewTicker(s0.startTime - gap, i) && s0.at == Loop && s0.batches == [];
    hide Entered, Interval, Run, Runnable, Ready, Init;
    var tick := s0.startTime + AtLeast(i - gap, 0);
    FirstTick(s0.ticker, gap, tick);
    assert SoonestAt(c, gap, 0) == AtLeast(i - gap, 0);
    hide Due;
    var ys, s1 := OneBatch(c, s0, tick, tick);
    RunJoin(c, Init(c), xs, s0, ys, s1);
    acts, s := xs + ys, s1;
  }

  /** The first tick of a ticker that has not been running for two intervals. */
  lemma FirstTick(t: Ticker, gap: nat, tick: int)
    requires t.interval >= 1 && t.fired == 0 && tick == t.start + gap + AtLeast(t.interval - gap, 0) && gap / t.interval < 2
    ensures Due(t, tick) && FireTicker(t, tick).fired == 1
  {
    var i := t.interval;
    assert gap == (gap / i) * i + gap % i;
    assert gap < 2 * i by {
      ScaleUp(gap / i, 1, i);
    }
    assert (0 + 1) * i == i && 1 * i == i;
    Quotient(tick - t.start, i, 1);
  }

  /** The waiting tick is received at once, and the next one fires in its place. */
  lemma SecondGridded(c: Cfg, gap: nat) returns (acts: seq<Action>, s: State)
    requires Runnable(c) && c.rate > 0.0 && c.kind == CloudEvent && Interval(c.rate) > 0 && gap / Interval(c.rate) >= 2
    requires c.duration >= 0
    ensures Run(c, Init(c), acts) == Some(s) && Gridded(c, gap, s, 1)
  {
    var i := Interval(c.rate);
    TwoMissed(gap, i);
    var xs, s0 := EnterBuffered(c, gap);
    assert Ready(c, s0);
    assert s0.now == s0.startTime && s0.ticker == Ticker(s0.startTime - gap, i, 1, 0, true) && s0.at == Loop && s0.batches == [];
    hide Buffered, Interval, Run, Runnable, Init;
    var s1 := Unlimited(s0);
    AtSteadyLoop(c, s0, TakeTick);
    RunThen(c, Init(c), xs, s0, Main(TakeTick), s1);
    var ys, s2 := LaunchAll(c, s1);
    RunJoin(c, Init(c), xs + [Main(TakeTick)], s1, ys, s2);
    assert Ready(c, s2);
    hide Ready;
    GoOn(c, s2);
    var s3 := s2.(at := Loop);
    RunThen(c, Init(c), xs + [Main(TakeTick)] + ys, s2, Main(Go), s3);
    StillReady(c, s2);
    SecondTick(s3.ticker, gap, s3.now);
    assert SoonestAt(c, gap, 1) == 0 by { SecondAtOnce(c, gap); }
    hide Due, SoonestAt;
    var zs, s4 := OneBatch(c, s3, s3.now, s3.now);
    RunJoin(c, Init(c), xs + [Main(TakeTick)] + ys + [Main(Go)], s3, zs, s4);
    acts, s := xs + [Main(TakeTick)] + ys + [Main(Go)] + zs, s4;
  }

  lemma TwoMissed(gap: nat, i: int)
    requires i > 0 && gap / i >= 2
    ensures 2 * i <= gap
  {
    assert gap == (gap / i) * i + gap % i;
    ScaleUp(2, gap / i, i);
  }

  lemma SecondTick(t: Ticker, gap: nat, tick: int)
    requires t.interval >= 1 && t.fired == 1 && tick == t.start + gap && gap / t.interval >= 2
    ensures Due(t, tick) && FireTicker(t, tick).fired == gap / t.interval
  {
    TwoMissed(gap, t.interval);
  }

  lemma SecondAtOnce(c: Cfg, gap: nat)
    requires c.rate > 0.0 && c.kind == CloudEvent && Interval(c.rate) > 0 && gap / Interval(c.rate) >= 2
    ensures SoonestAt(c, gap, 1) == 0
  {
    hide Interval;
  }

  lemma SoonestOrder(c: Cfg, gap: nat, n: nat)
    requires Runnable(c) && c.rate > 0.0 && Interval(c.rate) > 0
    ensures SoonestAt(c, gap, n) <= SoonestAt(c, gap, n + 1)
  {
    EarliestOrder(c, gap, n, n + 1);
    hide Interval, Earliest;
    var i := Interval(c.rate);
    ScaleUp(AtLeast(gap / i, 2) + n - 1, AtLeast(gap / i, 2) + n, i);
  }

  lemma {:induction false} GridChain(c: Cfg, gap: nat, n: nat) returns (acts: seq<Action>, s: State)
    requires Runnable(c) && c.rate > 0.0 && c.kind == CloudEvent && c.duration > 0 && Interval(c.rate) > 0
    requires gap / Interval(c.rate) < 2 || n > 0
    requires n > 0 ==> SoonestAt(c, gap, n - 1) <= c.duration
    ensures Run(c, Init(c), acts) == Some(s) && Gridded(c, gap, s, n)
    decreases n
  {
    hide Run, Init, Gridded, Runnable, Interval, SoonestAt;
    var q := gap / Interval(c.rate);
    if n == 0 {
      acts, s := FirstGridded(c, gap);
    } else if n == 1 && q >= 2 {
      acts, s := SecondGridded(c, gap);
    } else {
      if n > 1 {
        SoonestOrder(c, gap, n - 2);
      }
      var xs, mid := GridChain(c, gap, n - 1);
      var ys, end := NextGridded(c, gap, mid, n - 1);
      RunJoin(c, Init(c), xs, mid, ys, end);
      acts, s := xs + ys, end;
    }
  }

  lemma Found(c: Cfg, gap: nat, acts: seq<Action>, s: State, n: nat)
    requires Runnable(c) && c.rate > 0.0 && Run(c, Init(c), acts) == Some(s) && Ready(c, s) && s.at == Check
    requires Gap(s) == gap && |s.batches| > n
    ensures Exceeds(c, gap, n)
  {
    Loops(c, s);
    hide Ready, Looping;
    assert Reachable(c, s);
  }

  lemma GriddedFacts(c: Cfg, gap: nat, s: State, n: nat)
    requires c.rate > 0.0 && Gridded(c, gap, s, n)
    ensures Ready(c, s) && s.at == Check && Gap(s) == gap && |s.batches| == n + 1
  {
    hide Interval;
  }

  lemma PromptFacts(c: Cfg, s0: State, gap: nat, s: State, n: nat)
    requires c.rate > 0.0 && Entered(c, s0, gap) && Prompt(c, s0, gap, s, n)
    ensures Ready(c, s) && s.at == Check && Gap(s) == gap && |s.batches| == n + 1
  {
    hide Interval, Earliest, Period;
  }

  /** Some run has more than n batches. */
  ghost predicate Exceeds(c: Cfg, gap: nat, n: nat)
    requires Runnable(c)
  {
    exists s :: Reachable(c, s) && Looping(s) && Gap(s) == gap && |s.batches| > n
  }

  /** The exact maximum for every distance between ticker start and start time: there is a batch
      number n + 2 in some run if and only if number n + 1, at its soonest, ends by the deadline. */
  lemma BatchesExact(c: Cfg, gap: nat, n: nat)
    requires Runnable(c) && c.rate > 0.0 && c.duration > 0 && Interval(c.rate) > 0
    ensures Exceeds(c, gap, n + 1) <==> SoonestAt(c, gap, n) <= c.duration
  {
    hide Interval, Reachable, Looping, Runnable, Prompt, Gridded, Entered, Ready, Run;
    if SoonestAt(c, gap, n) <= c.duration {
      if c.kind == Http {
        var xs, s0 := Enter(c, gap);
        var ys, s := Chain(c, s0, gap, n + 1);
        RunJoin(c, Init(c), xs, s0, ys, s);
        PromptFacts(c, s0, gap, s, n + 1);
        Found(c, gap, xs + ys, s, n + 1);
      } else {
        hide SoonestAt;
        var acts, s := GridChain(c, gap, n + 1);
        GriddedFacts(c, gap, s, n + 1);
        Found(c, gap, acts, s, n + 1);
      }
    } else {
      hide SoonestAt;
      forall s | Reachable(c, s) && Looping(s) && Gap(s) == gap ensures |s.batches| <= n + 1 {
        if |s.batches| > n + 1 {
          DeadlineBound(c, s);
          NoneSooner(c, s, n);
        }
      }
    }
  }

  /** So the bound for a late start is attained without a limiter as soon as two ticks have been missed. */
  lemma LateStartAttained(c: Cfg, gap: nat) returns (s: State)
    requires Runnable(c) && c.rate > 0.0 && c.duration > 0 && Interval(c.rate) > 0
    requires c.kind == CloudEvent && gap / Interval(c.rate) >= 2
    ensures Reachable(c, s) && Looping(s) && Gap(s) == gap
    ensures |s.batches| == 3 + (c.duration + gap % Interval(c.rate)) / Interval(c.rate)
  {
    var i := Interval(c.rate);
    hide Interval, Reachable, Looping, Runnable;
    var m := (c.duration + gap % i) / i;
    Fill(gap, c.duration, i);
    assert SoonestAt(c, gap, m + 1) <= c.duration;
    hide SoonestAt;
    BatchesExact(c, gap, m + 1);
    s :| Reachable(c, s) && Looping(s) && Gap(s) == gap && |s.batches| > m + 2;
    LateStart(c, s);
  }

  lemma Fill(gap: nat, d: int, i: int)
    requires i > 0 && d > 0
    ensures (d + gap % i) / i >= 0
    ensures (gap / i + (d + gap % i) / i) * i - gap <= d
  {
    var q, m := gap / i, (d + gap % i) / i;
    FewFit(d, gap % i, i);
    assert gap == q * i + gap % i && d + gap % i == m * i + (d + gap % i) % i;
    assert (q + m) * i == q * i + m * i;
  }

  // ---------- after cancellation ----------

  function Cancelled(s: State): State { s.(cancelled := true) }

  /** The cloud-event steady loop does the same whether it has been cancelled or not. */
  lemma MainDeaf(c: Cfg, s: State, choice: Choice, s': State)
    requires Runnable(c) && c.kind == CloudEvent && s.section == Steady && Place(c, s)
    requires MainStep(c, s, choice) == Some(s')
    requires !s.at.Begin?
    ensures MainStep(c, Cancelled(s), choice) == Some(Cancelled(s')) && s'.section == Steady && !s'.at.Begin?
  {
    hide BatchSize, DeadlinePassed, Interval, Ladder, Reserve, Limiter.Sound, ZeroTimeOr, BeginRampStep, NewTicker, Runnable;
    assert DeadlinePassed(c, Cancelled(s)) == DeadlinePassed(c, s) by { SameDeadline(c, s); }
  }

  lemma SameDeadline(c: Cfg, s: State)
    ensures DeadlinePassed(c, Cancelled(s)) == DeadlinePassed(c, s)
  {
  }

  lemma StepDeaf(c: Cfg, s: State, a: Action, s': State)
    requires Runnable(c) && c.kind == CloudEvent && s.section == Steady && Place(c, s) && !s.at.Begin?
    requires Step(c, s, a) == Some(s')
    ensures Step(c, Cancelled(s), a) == Some(Cancelled(s')) && s'.section == Steady && !s'.at.Begin?
  {
    hide MainStep, WorkStep, FireTicker, Due, Place, Runnable;
    if a.Main? {
      MainDeaf(c, s, a.choice, s');
    }
  }

  lemma {:induction false} RunDeaf(c: Cfg, s: State, acts: seq<Action>, s': State)
    requires Runnable(c) && c.kind == CloudEvent && s.section == Steady && !s.at.Begin? && Invariant(c, s)
    requires Run(c, s, acts) == Some(s')
    ensures Run(c, Cancelled(s), acts) == Some(Cancelled(s'))
    decreases |acts|
  {
    if acts != [] {
      var next := Step(c, s, acts[0]).value;
      StepHolds(c, s, acts[0], next);
      assert Place(c, s);
      StepDeaf(c, s, acts[0], next);
      hide Step, Invariant, Runnable, Place, Cancelled;
      RunDeaf(c, next, acts[1..], s');
    }
  }

  /** The loop is entered by reading the clock. */
  lemma EntryStep(c: Cfg, s: State, a: Action, s': State)
    requires Runnable(c) && Place(c, s) && Step(c, s, a) == Some(s') && !Looping(s) && Looping(s')
    ensures s.at == SteadyClock && s.section == Steady
  {
    hide WorkStep, FireTicker, Due, Interval, Ladder, Reserve, BatchSize, ZeroTimeOr, NewBucket, Burst, Runnable;
  }

  /** A run in the loop, split where it is about to be entered. */
  lemma {:induction false} SplitAtEntry(c: Cfg, s: State, acts: seq<Action>, s': State)
      returns (xs: seq<Action>, mid: State, ys: seq<Action>)
    requires Runnable(c) && Invariant(c, s) && !Looping(s) && Run(c, s, acts) == Some(s') && Looping(s')
    ensures Run(c, s, xs) == Some(mid) && Run(c, mid, ys) == Some(s') && mid.at == SteadyClock && mid.section == Steady
    ensures Invariant(c, mid)
    decreases |acts|
  {
    assert acts != [];
    var next := Step(c, s, acts[0]).value;
    StepHolds(c, s, acts[0], next);
    if Looping(next) {
      assert Place(c, s);
      EntryStep(c, s, acts[0], next);
      xs, mid, ys := [], s, acts;
    } else {
      hide Step, Invariant, Looping, Runnable;
      var more;
      more, mid, ys := SplitAtEntry(c, next, acts[1..], s');
      xs := [acts[0]] + more;
      assert xs[1..] == more;
    }
  }

  /** After its cancellation some run sends more than n events from the loop. */
  ghost predicate SendsAfter(c: Cfg, gap: nat, n: nat)
    requires Runnable(c)
  {
    exists s, acts, s' ::
      && Reachable(c, s) && s.cancelled && Run(c, s, acts) == Some(s') && Looping(s') && Gap(s') == gap
      && |s'.batches| - |s.batches| > n
  }

  /** What a cancelled cloud-event generator may still send before its deadline: as many events as if
      it had not been cancelled. */
  lemma CancelledExact(c: Cfg, gap: nat, n: nat)
    requires Runnable(c) && c.kind == CloudEvent && c.duration > 0 && Interval(c.rate) > 0
    ensures SendsAfter(c, gap, n + 1) <==> SoonestAt(c, gap, n) <= c.duration
  {
    BatchesExact(c, gap, n);
    if SendsAfter(c, gap, n + 1) {
      SentIsLaunched(c, gap, n + 1);
    }
    if Exceeds(c, gap, n + 1) {
      LaunchedIsSent(c, gap, n + 1);
    }
  }

  lemma SentIsLaunched(c: Cfg, gap: nat, n: nat)
    requires Runnable(c) && SendsAfter(c, gap, n)
    ensures Exceeds(c, gap, n)
  {
    hide Looping, Run, Init, Runnable;
    var s, acts, s' :|
      && Reachable(c, s) && s.cancelled && Run(c, s, acts) == Some(s') && Looping(s') && Gap(s') == gap
      && |s'.batches| - |s.batches| > n;
    var before :| Run(c, Init(c), before) == Some(s);
    RunJoin(c, Init(c), before, s, acts, s');
    assert Reachable(c, s');
  }

  lemma LaunchedIsSent(c: Cfg, gap: nat, n: nat)
    requires Runnable(c) && c.kind == CloudEvent && Exceeds(c, gap, n)
    ensures SendsAfter(c, gap, n)
  {
    var s :| Reachable(c, s) && Looping(s) && Gap(s) == gap && |s.batches| > n;
    var acts :| Run(c, Init(c), acts) == Some(s);
    InitHolds(c);
    assert !Looping(Init(c));
    hide Run, Init, Invariant, Looping, Runnable;
    var xs, mid, ys := SplitAtEntry(c, Init(c), acts, s);
    EmptyAtEntry(c, xs, mid);
    RunDeaf(c, mid, ys, s);
    RunThen(c, Init(c), xs, mid, Cancel, Cancelled(mid));
    assert Reachable(c, Cancelled(mid));
    assert Looping(Cancelled(s)) by { SameLoop(s); }
    assert Run(c, Cancelled(mid), ys) == Some(Cancelled(s));
  }

  lemma SameLoop(s: State)
    ensures Looping(Cancelled(s)) == Looping(s)
  {
  }

  lemma EmptyAtEntry(c: Cfg, xs: seq<Action>, mid: State)
    requires Runnable(c) && c.rate > 0.0 && Run(c, Init(c), xs) == Some(mid) && mid.at == SteadyClock
    ensures mid.batches == []
  {
    assert Reachable(c, mid);
    hide Run, Init, Spaced, Numbered;
    ReachableTimed(c, mid);
  }
}
