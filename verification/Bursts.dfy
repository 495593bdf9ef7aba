/** The bucket of a ramp step: what it holds, which batches never wait for it, and for which rates
    the next one may. */
module Bursts {
  import opened Options
  import opened Limiter
  import opened Machine
  import opened Accounting
  import opened Pacing
  import opened Deadline
  import opened Ramp
  import opened Ticked
  import opened Scenarios

  /** The rate of the step under way. */
  function StepRate(c: Cfg, s: State): real
    requires s.section.Ramp?
  {
    Ladder(c.rate, s.section.step + 1)
  }

  // ---------- what a step is set up with ----------

  /** A whole number of nanoseconds or tokens, the fraction dropped. */
  predicate Truncated(n: int, x: real) { n as real <= x < n as real + 1.0 }

  /** Bucket, ticker and timer of a step: its rate, as many tokens as whole requests a second, its
      period in nanoseconds, and one second. */
  predicate Equipped(c: Cfg, s: State) {
    Climbing(s) && InRamp(c, s) ==>
      && StepRate(c, s) >= 1.0 && s.local.rate == StepRate(c, s) && Truncated(s.local.burst, StepRate(c, s))
      && Truncated(s.ticker.interval, Limiter.SECOND / StepRate(c, s))
      && s.ticker.start == s.rampSteps[s.section.step].start
      && s.stepEnd == s.rampSteps[s.section.step].start + 1_000_000_000
  }

  lemma BeginEquipped(c: Cfg, s: State)
    requires Runnable(c) && c.rate > 1.0 && Shape(c, s) && s.at == RampCheck && s.section.step < STEPS
    ensures Equipped(c, BeginRampStep(c, s, s.section.step))
  {
    var i := s.section.step;
    LadderStep(c.rate, i);
    LadderStep(c.rate, i + 1);
    hide Ladder, LimiterShape;
  }

  predicate SameSetup(s: State, s': State) {
    && s'.section == s.section && s'.local.rate == s.local.rate && s'.local.burst == s.local.burst
    && s'.ticker.interval == s.ticker.interval && s'.ticker.start == s.ticker.start && s'.stepEnd == s.stepEnd
    && |s'.rampSteps| == |s.rampSteps| && forall i | 0 <= i < |s.rampSteps| :: s'.rampSteps[i].start == s.rampSteps[i].start
  }

  lemma SetupKept(c: Cfg, s: State, s': State)
    requires Equipped(c, s) && Climbing(s) && InRamp(c, s) && SameSetup(s, s')
    ensures Equipped(c, s')
  {
    hide Ladder;
  }

  /** Outside RampCheck the scheduler leaves a step's setup alone, or leaves the step. */
  lemma MainSetup(c: Cfg, s: State, choice: Choice, s': State)
    requires Runnable(c) && c.rate > 1.0 && Shape(c, s) && !s.at.RampCheck? && MainStep(c, s, choice) == Some(s')
    ensures Climbing(s') ==> Climbing(s) && InRamp(c, s) && SameSetup(s, s')
  {
    if !Climbing(s) {
      StaysOff(c, s, choice, s');
    } else {
      assert InRamp(c, s);
      match s.at
      case Loop => AtRampLoop(c, s, choice);
      case WaitStart =>
        AtWaitStart(c, s, choice);
        ReserveShape(BucketOf(s), s.now);
      case Waiting(_, _) => AtWaiting(c, s, choice);
      case Launch(_) => AtLaunch(c, s, choice);
      hide MainStep, Shape, LimiterShape, Ladder, BatchSize, Reserve, Limiter.Sound, Runnable;
    }
  }

  lemma StaysOff(c: Cfg, s: State, choice: Choice, s': State)
    requires Runnable(c) && Shape(c, s) && !s.at.RampCheck? && !Climbing(s) && MainStep(c, s, choice) == Some(s')
    ensures !Climbing(s')
  {
    hide LimiterShape, Ladder, DeadlinePassed, Interval, BatchSize, ZeroTimeOr, NewBucket, Reserve, BeginRampStep, Limiter.Sound, NewTicker;
  }

  lemma StepEquipped(c: Cfg, s: State, a: Action, s': State)
    requires Runnable(c) && c.rate > 1.0 && Shape(c, s) && Equipped(c, s) && Step(c, s, a) == Some(s')
    ensures Equipped(c, s')
  {
    match a {
      case Main(choice) =>
        if s.at.RampCheck? {
          AtRampCheck(c, s, choice);
          hide MainStep, LimiterShape, Ladder, BeginRampStep, Interval;
          if s.section.step < STEPS && !s.cancelled {
            BeginEquipped(c, s);
          }
        } else {
          MainSetup(c, s, choice, s');
          hide MainStep, Shape;
          if Climbing(s') {
            SetupKept(c, s, s');
          }
        }
      case _ =>
        hide MainStep, WorkStep, Shape, Ladder, Runnable, FireTicker, Due;
        if Climbing(s') && InRamp(c, s') {
          assert InRamp(c, s);
          SetupKept(c, s, s');
        }
    }
  }

  lemma {:induction false} RunEquipped(c: Cfg, s: State, acts: seq<Action>, s': State)
    requires Runnable(c) && c.rate > 1.0 && Equipped(c, s) && Invariant(c, s) && Run(c, s, acts) == Some(s')
    ensures Equipped(c, s')
    decreases |acts|
  {
    hide Step, Equipped, Shape, Books, Tally, Runnable;
    if acts != [] {
      var next := Step(c, s, acts[0]).value;
      StepEquipped(c, s, acts[0], next);
      StepHolds(c, s, acts[0], next);
      hide Invariant;
      RunEquipped(c, next, acts[1..], s');
    }
  }

  /** In every reachable state inside step i of the ramp-up. */
  lemma StepSetup(c: Cfg, s: State)
    requires Runnable(c) && Reachable(c, s) && Climbing(s)
    ensures c.rate > 1.0 && InRamp(c, s)
    ensures var r := StepRate(c, s);
            && r >= 1.0 && s.local.rate == r && s.local.burst as real <= r < s.local.burst as real + 1.0
            && s.ticker.interval as real <= Limiter.SECOND / r < s.ticker.interval as real + 1.0
            && s.stepEnd == s.rampSteps[s.section.step].start + 1_000_000_000
  {
    var acts :| Run(c, Init(c), acts) == Some(s);
    InitHolds(c);
    assert Equipped(c, Init(c));
    ReachableHolds(c, s);
    assert Place(c, s);
    hide Invariant, Run, Ladder, Init;
    RunEquipped(c, Init(c), acts, s);
  }

  // ---------- a step takes its second ----------

  /** Each step of the ramp-up begins a second or more after the one before. */
  predicate Lasting(s: State) {
    && (forall i | 0 <= i < |s.rampSteps| - 1 :: s.rampSteps[i].start + NANOS <= s.rampSteps[i + 1].start)
    && (s.at.RampCheck? && s.rampSteps != [] ==> s.rampSteps[|s.rampSteps| - 1].start + NANOS <= s.now)
  }

  predicate SameStarts(s: State, s': State) {
    |s'.rampSteps| == |s.rampSteps| && forall i | 0 <= i < |s.rampSteps| :: s'.rampSteps[i].start == s.rampSteps[i].start
  }

  lemma StartsKept(c: Cfg, s: State, choice: Choice, s': State)
    requires Runnable(c) && !s.at.RampCheck? && MainStep(c, s, choice) == Some(s')
    ensures SameStarts(s, s') && (s'.at.RampCheck? ==> s.at.Begin? || (s.at == Loop && s.section.Ramp? && s'.now == s.now >= s.stepEnd))
  {
    if s.at.Launch? {
      AtLaunch(c, s, choice);
      hide MainStep, BatchSize, Runnable;
    } else {
      hide DeadlinePassed, Interval, BatchSize, ZeroTimeOr, Reserve, BeginRampStep, Limiter.Sound, LaunchOne, NewTicker, Runnable;
    }
  }

  lemma MainLasting(c: Cfg, s: State, choice: Choice, s': State)
    requires Runnable(c) && c.rate > 1.0 && Shape(c, s) && Equipped(c, s) && Lasting(s) && MainStep(c, s, choice) == Some(s')
    ensures Lasting(s')
  {
    if s.at.RampCheck? {
      AtRampCheck(c, s, choice);
      hide MainStep, LimiterShape, Ladder, Interval, NewBucket;
    } else {
      StartsKept(c, s, choice, s');
      hide MainStep, LimiterShape, Ladder, Runnable;
    }
  }

  lemma {:induction false} RunLasting(c: Cfg, s: State, acts: seq<Action>, s': State)
    requires Runnable(c) && c.rate > 1.0 && Equipped(c, s) && Lasting(s) && Invariant(c, s) && Run(c, s, acts) == Some(s')
    ensures Lasting(s')
    decreases |acts|
  {
    if acts != [] {
      var a, next := acts[0], Step(c, s, acts[0]).value;
      assert Lasting(next) by {
        hide MainStep, WorkStep, Shape, Books, Tally, Equipped, Runnable, FireTicker, Due;
        if a.Main? {
          MainLasting(c, s, a.choice, next);
        }
      }
      hide Step, Equipped, Lasting, Shape, Books, Tally, Runnable;
      StepEquipped(c, s, a, next);
      StepHolds(c, s, a, next);
      hide Invariant;
      RunLasting(c, next, acts[1..], s');
    }
  }

  lemma StepsLast(c: Cfg, s: State, i: nat)
    requires Runnable(c) && c.rate > 1.0 && Reachable(c, s) && i < |s.rampSteps| - 1
    ensures s.rampSteps[i + 1].start - s.rampSteps[i].start >= 1_000_000_000
  {
    var acts :| Run(c, Init(c), acts) == Some(s);
    InitHolds(c);
    assert Equipped(c, Init(c)) && Lasting(Init(c));
    hide Invariant, Run, Equipped, Init;
    RunLasting(c, Init(c), acts, s);
  }

  // ---------- what is left in the bucket ----------

  function Batches(s: State): nat
    requires s.rampSteps != []
  {
    s.rampSteps[|s.rampSteps| - 1].batches
  }

  /** Tokens taken in the step: one a batch, and one for the batch that is being waited for. */
  function Taken(s: State): nat
    requires s.rampSteps != []
  {
    Batches(s) + if s.at.Waiting? then 1 else 0
  }

  /** Either as many as were left have been added to in the time since the first was taken, or the
      bucket has been full since. */
  predicate Left(b: Bucket, k: nat, w: int)
    requires b.rate > 0.0
  {
    var p, n := Period(b.rate), b.burst as real - k as real;
    b.tokens >= n + 1.0 || b.tokens * p >= n * p + (b.last - w) as real
  }

  /** The bucket after k tokens, the first of them taken at w. */
  predicate Stocked(b: Bucket, k: nat, w: int) {
    && Limiter.Sound(b) && b.tokens >= b.burst as real - k as real
    && (if k == 0 then b.tokens == b.burst as real else w <= b.last && Left(b, k, w))
  }

  /** From the third on, each tick fired in an interval of its own, the third no earlier than w. */
  predicate Celling(t: Ticker, w: int) {
    && t.interval >= 1
    && (t.received + (if t.full then 1 else 0) >= 3 ==>
          t.fired >= Cell(t, w) + t.received + (if t.full then 1 else 0) - 3)
  }

  /** A wait that has begun is for a token not yet there only beyond the burst; the token after it
      only in small bursts. */
  predicate Delays(b: Bucket, k: nat, at: Where) {
    at.Waiting? && at.delayed ==> k > b.burst && (k == b.burst + 1 ==> b.burst <= 3)
  }

  predicate Drawn(c: Cfg, s: State, w: int) {
    Climbing(s) && InRamp(c, s) ==>
      && Stocked(s.local, Taken(s), w) && Celling(s.ticker, w) && Delays(s.local, Taken(s), s.at)
      && s.ticker.received == Batches(s) + (if Held(s) then 1 else 0)
  }

  lemma Scaled(x: real, y: real, p: real)
    requires p > 0.0 && x * p >= y * p
    ensures x >= y
  {
    assert x < y ==> (y - x) * p > 0.0;
  }

  lemma Gain(tokens: real, n: real, gained: real, p: real, since: real, more: real)
    requires tokens * p >= n * p + since && gained * p == more
    ensures (tokens + gained - 1.0) * p >= (n - 1.0) * p + (since + more)
  {
    Limiter.Distribute(tokens + gained, 1.0, p);
    Limiter.Distribute(tokens, gained, p);
    Limiter.Distribute(n, 1.0, p);
  }

  lemma ReserveTakes(b: Bucket, now: int, gained: real)
    requires Limiter.Sound(b) && b.last <= now && gained == (now - b.last) as real * b.rate / Limiter.SECOND
    ensures var (b', act) := Reserve(b, now);
            && Limiter.Sound(b') && b'.last == now && b'.burst == b.burst && b'.rate == b.rate
            && b'.tokens == Min(b.burst as real, b.tokens + gained) - 1.0 && (b'.tokens >= 0.0 ==> act == now)
  {
    ReserveSound(b, now);
  }

  /** A token more is taken at `now`. */
  lemma ReserveStocked(b: Bucket, k: nat, w: int, now: int)
    requires Stocked(b, k, w) && b.last <= now
    ensures var (b', act) := Reserve(b, now);
            && Stocked(b', k + 1, if k == 0 then now else w) && b'.burst == b.burst && b'.rate == b.rate
            && (b'.tokens >= 0.0 ==> act == now)
  {
    var p, e := Period(b.rate), (now - b.last) as real;
    var gained := e * b.rate / Limiter.SECOND;
    PeriodTimesRate(b.rate, e);
    assert gained >= 0.0;
    ReserveTakes(b, now, gained);
    var n := b.burst as real - k as real;
    assert n - 1.0 == b.burst as real - (k + 1) as real;
    hide Period, Reserve, Limiter.Sound;
    if k > 0 && b.tokens + gained < b.burst as real && b.tokens < n + 1.0 {
      Gain(b.tokens, n, gained, p, (b.last - w) as real, e);
    }
  }

  /** The fifth tick comes more than an interval after the first token was taken. */
  lemma FifthLate(t: Ticker, w: int, now: int)
    requires Celling(t, w) && t.received >= 5 && t.start + t.fired * t.interval <= now
    ensures now - w > t.interval
  {
    var i, q := t.interval, Cell(t, w);
    assert w - t.start == q * i + (w - t.start) % i;
    assert (q + 2) * i == q * i + 2 * i;
    ScaleUp(q + 2, t.fired, i);
    hide Cell;
  }

  /** So in a bucket of four and more the token after the burst is there. */
  lemma NextThere(b: Bucket, w: int)
    requires Stocked(b, b.burst + 1, w) && (b.last - w) as real >= Period(b.rate)
    ensures b.tokens >= 0.0
  {
    var n := b.burst as real - (b.burst + 1) as real;
    assert n == -1.0;
    if b.tokens < n + 1.0 {
      Covered(b.tokens, n, Period(b.rate), (b.last - w) as real);
    }
  }

  lemma Covered(tokens: real, n: real, p: real, since: real)
    requires p > 0.0 && n == -1.0 && tokens * p >= n * p + since && since >= p
    ensures tokens >= 0.0
  {
    assert n * p == -p;
    assert 0.0 * p == 0.0;
    Scaled(tokens, 0.0, p);
  }

  lemma WaitDrawn(c: Cfg, s: State, choice: Choice, s': State, w: int) returns (w': int)
    requires Runnable(c) && c.rate > 1.0 && Shape(c, s) && Equipped(c, s) && Sane(s.ticker, s.now) && Drawn(c, s, w)
    requires s.at == WaitStart && s.section.Ramp? && MainStep(c, s, choice) == Some(s')
    ensures Drawn(c, s', w')
  {
    w' := w;
    if !s.cancelled {
      var k := Taken(s);
      assert InRamp(c, s) && Climbing(s);
      AtWaitStart(c, s, choice);
      ReserveStocked(s.local, k, w, s.now);
      w' := if k == 0 then s.now else w;
      var b := s'.local;
      assert Reserve(s.local, s.now).0 == b && b.last == s.now;
      hide MainStep, Reserve, Shape, Ladder;
      if b.tokens < 0.0 && k == b.burst && b.burst >= 4 {
        FifthLate(s.ticker, w, s.now);
        Later(b, s.ticker.interval, w, StepRate(c, s));
        NextThere(b, w);
      }
      hide Stocked, Celling;
      assert Taken(s') == k + 1;
      assert Celling(s'.ticker, w') by { SameCells(s.ticker, w, w', k == 0); }
    }
  }

  lemma Later(b: Bucket, i: int, w: int, rate: real)
    requires rate > 0.0 && b.rate == rate && Truncated(i, Limiter.SECOND / rate) && b.last - w > i
    ensures (b.last - w) as real >= Period(b.rate)
  {
  }

  lemma SameCells(t: Ticker, w: int, w': int, first: bool)
    requires Celling(t, w) && (if first then t.received + (if t.full then 1 else 0) < 3 else w' == w)
    ensures Celling(t, w')
  {
  }

  lemma FireCelling(t: Ticker, w: int, now: int)
    requires Celling(t, w) && Due(t, now) && (t.received >= 2 ==> w <= now)
    ensures Celling(FireTicker(t, now), w)
  {
    var t' := FireTicker(t, now);
    assert t'.fired == Cell(t, now);
    assert Cell(t', w) == Cell(t, w);
    if t.received >= 2 {
      CellMono(t, w, now);
    }
    hide FireTicker, Cell;
  }

  predicate SameDraw(s: State, s': State) {
    && s'.section == s.section && s'.local == s.local && s'.rampSteps != [] && s.rampSteps != []
    && |s'.rampSteps| == |s.rampSteps| && Taken(s') == Taken(s) && s'.at.Waiting? == s.at.Waiting? && (s'.at.Waiting? ==> s'.at == s.at)
    && Batches(s') + (if Held(s') then 1 else 0) == Batches(s) + (if Held(s) then 1 else 0)
  }

  lemma DrawKept(c: Cfg, s: State, s': State, w: int)
    requires Drawn(c, s, w) && Climbing(s) && InRamp(c, s) && SameDraw(s, s') && s'.ticker == s.ticker
    ensures Drawn(c, s', w)
  {
    hide Stocked, Celling, Ladder;
  }

  lemma TakeDrawn(c: Cfg, s: State, w: int)
    requires Drawn(c, s, w) && s.at == Loop && s.section.Ramp? && s.ticker.full && InRamp(c, s)
    ensures Drawn(c, s.(ticker := s.ticker.(full := false, received := s.ticker.received + 1), recv := s.now, at := WaitStart), w)
  {
    hide Stocked, Ladder;
    var t := s.ticker;
    var t' := t.(full := false, received := t.received + 1);
    assert Cell(t', w) == Cell(t, w);
  }

  lemma OpenDrawn(c: Cfg, s: State, w: int)
    requires Drawn(c, s, w) && s.at.Waiting? && s.section.Ramp? && InRamp(c, s)
    ensures Drawn(c, OpenBatch(s), w)
  {
    hide Stocked, Celling, Ladder;
  }

  lemma BeginDrawn(c: Cfg, s: State, w: int)
    requires Runnable(c) && c.rate > 1.0 && Shape(c, s) && s.at == RampCheck && s.section.step < STEPS
    ensures Drawn(c, BeginRampStep(c, s, s.section.step), w)
  {
    var i := s.section.step;
    BeginStepShape(c, s);
    LadderStep(c.rate, i);
    LadderStep(c.rate, i + 1);
    IntervalPositive(Ladder(c.rate, i + 1)) by { LadderBelow(c.rate, i + 1); }
    hide Ladder, LimiterShape, Interval, Cell;
  }

  lemma LaunchDrawn(c: Cfg, s: State, choice: Choice, s': State, w: int)
    requires Runnable(c) && c.rate > 1.0 && Shape(c, s) && Drawn(c, s, w) && s.at.Launch? && MainStep(c, s, choice) == Some(s')
    ensures Drawn(c, s', w)
  {
    AtLaunch(c, s, choice);
    hide MainStep, LimiterShape, Ladder, Drawn, Runnable;
    if Climbing(s') {
      DrawKept(c, s, s', w);
    } else {
      NotClimbing(c, s', w);
    }
  }

  lemma NotClimbing(c: Cfg, s: State, w: int)
    requires !Climbing(s)
    ensures Drawn(c, s, w)
  {
  }

  lemma MainDrawn(c: Cfg, s: State, choice: Choice, s': State, w: int) returns (w': int)
    requires Runnable(c) && c.rate > 1.0 && Shape(c, s) && Equipped(c, s) && Sane(s.ticker, s.now) && Drawn(c, s, w)
    requires MainStep(c, s, choice) == Some(s')
    ensures Drawn(c, s', w')
  {
    w' := w;
    if !Climbing(s') {
      NotClimbing(c, s', w);
      return;
    }
    hide Drawn, LimiterShape, Ladder, Equipped;
    match s.at {
      case RampCheck =>
        AtRampCheck(c, s, choice);
        hide MainStep, BeginRampStep;
        BeginDrawn(c, s, w);
      case Loop =>
        AtRampLoop(c, s, choice);
        hide MainStep;
        TakeDrawn(c, s, w);
      case WaitStart => w' := WaitDrawn(c, s, choice, s', w);
      case Waiting(_, _) =>
        AtWaiting(c, s, choice);
        hide MainStep, LimiterError, OpenBatch;
        LeavesRamp(s);
        OpenDrawn(c, s, w);
      case Launch(_) => LaunchDrawn(c, s, choice, s', w);
      case _ =>
        hide OpenBatch, LaunchOne, Reserve, BeginRampStep, Interval;
        assert false;
    }
  }

  lemma LeavesRamp(s: State)
    ensures !Climbing(LimiterError(s))
  {
  }

  lemma FireDrawn(c: Cfg, s: State, w: int)
    requires Shape(c, s) && Drawn(c, s, w) && Due(s.ticker, s.now)
    ensures Drawn(c, s.(ticker := FireTicker(s.ticker, s.now)), w)
  {
    var s' := s.(ticker := FireTicker(s.ticker, s.now));
    if Climbing(s) && InRamp(c, s) {
      if s.ticker.received >= 2 {
        FirstBefore(c, s, w);
      }
      FireCelling(s.ticker, w, s.now);
      assert s'.ticker.received == s.ticker.received;
      hide Stocked, Celling, Shape, Ladder, FireTicker, Due;
    } else {
      NoneDrawn(c, s', w);
    }
  }

  lemma QuietDrawn(c: Cfg, s: State, s': State, w: int)
    requires Drawn(c, s, w) && s'.section == s.section && s'.at == s.at && s'.rampSteps == s.rampSteps
    requires s'.local == s.local && s'.ticker == s.ticker && s'.currentRate == s.currentRate
    ensures Drawn(c, s', w)
  {
    hide Stocked, Celling, Ladder, Delays;
  }

  lemma StepDrawn(c: Cfg, s: State, a: Action, s': State, w: int) returns (w': int)
    requires Runnable(c) && c.rate > 1.0 && Shape(c, s) && Equipped(c, s) && Sane(s.ticker, s.now) && Drawn(c, s, w)
    requires Step(c, s, a) == Some(s')
    ensures Drawn(c, s', w')
  {
    hide MainStep, WorkStep, Drawn, Shape, Sane, Runnable, FireTicker, Due, Equipped;
    w' := w;
    match a {
      case Main(choice) => w' := MainDrawn(c, s, choice, s', w);
      case Fire => FireDrawn(c, s, w);
      case _ => QuietDrawn(c, s, s', w);
    }
  }

  lemma NoneDrawn(c: Cfg, s: State, w: int)
    requires !(Climbing(s) && InRamp(c, s))
    ensures Drawn(c, s, w)
  {
  }

  lemma FirstBefore(c: Cfg, s: State, w: int)
    requires Shape(c, s) && Drawn(c, s, w) && Climbing(s) && InRamp(c, s) && s.ticker.received >= 2
    ensures w <= s.now
  {
    hide Ladder, Left, Celling;
  }

  lemma {:induction false} RunDrawn(c: Cfg, s: State, acts: seq<Action>, s': State, w: int) returns (w': int)
    requires Runnable(c) && c.rate > 1.0 && Drawn(c, s, w) && Equipped(c, s) && Dated(c, s) && Timed(c, s) && Invariant(c, s)
    requires Run(c, s, acts) == Some(s')
    ensures Drawn(c, s', w')
    decreases |acts|
  {
    hide Step, Drawn, Equipped, Sane, Looping, TicksLate, Heeded, Timeline, Spaced, Numbered, Shape, Books, Tally, Runnable;
    w' := w;
    if acts != [] {
      var next := Step(c, s, acts[0]).value;
      var w1 := StepDrawn(c, s, acts[0], next, w);
      StepEquipped(c, s, acts[0], next);
      StepDated(c, s, acts[0], next);
      StepTimed(c, s, acts[0], next);
      StepHolds(c, s, acts[0], next);
      hide Invariant, Timed, Dated;
      w' := RunDrawn(c, next, acts[1..], s', w1);
    }
  }

  lemma ReachableDrawn(c: Cfg, s: State) returns (w: int)
    requires Runnable(c) && c.rate > 1.0 && Reachable(c, s)
    ensures Drawn(c, s, w)
  {
    var acts :| Run(c, Init(c), acts) == Some(s);
    InitHolds(c);
    InitTimed(c);
    assert Equipped(c, Init(c)) && Drawn(c, Init(c), 0);
    hide Invariant, Timed, Dated, Run, Equipped, Drawn;
    w := RunDrawn(c, Init(c), acts, s, 0);
  }

  /** Within a whole number of requests a second a step's batches never wait for the limiter, however
      its ticks come, and in steps of four requests a second and more nor does the batch after. */
  lemma NoneDelayed(c: Cfg, s: State)
    requires Runnable(c) && Reachable(c, s) && s.section.Ramp? && s.at.Waiting? && s.at.delayed
    ensures s.rampSteps != [] && Batches(s) as real > StepRate(c, s) - 1.0
    ensures StepRate(c, s) >= 4.0 ==> Batches(s) as real > StepRate(c, s)
  {
    StepSetup(c, s);
    var w := ReachableDrawn(c, s);
    hide Reachable, Runnable, Ladder, Stocked, Celling;
  }

  // ---------- in small bursts the next batch may wait ----------

  lemma Passing(c: Cfg, acts: seq<Action>, s: State, dt: nat) returns (more: seq<Action>, s': State)
    requires Runnable(c) && Run(c, Init(c), acts) == Some(s)
    ensures Run(c, Init(c), more) == Some(s') && s' == s.(now := s.now + dt)
  {
    s' := s.(now := s.now + dt);
    assert Step(c, s, Pass(dt)) == Some(s');
    RunThen(c, Init(c), acts, s, Pass(dt), s');
    more := acts + [Pass(dt)];
  }

  lemma Firing(c: Cfg, acts: seq<Action>, s: State, n: nat) returns (more: seq<Action>, s': State)
    requires Runnable(c) && Run(c, Init(c), acts) == Some(s) && s.ticker.interval >= 1 && n > s.ticker.fired
    requires s.ticker.start + n * s.ticker.interval <= s.now < s.ticker.start + (n + 1) * s.ticker.interval
    ensures Run(c, Init(c), more) == Some(s') && s' == s.(ticker := s.ticker.(fired := n, full := true))
  {
    ScaleUp(s.ticker.fired + 1, n, s.ticker.interval);
    Quotient(s.now - s.ticker.start, s.ticker.interval, n);
    s' := s.(ticker := s.ticker.(fired := n, full := true));
    assert Step(c, s, Fire) == Some(s');
    hide Due, FireTicker, Step;
    RunThen(c, Init(c), acts, s, Fire, s');
    more := acts + [Fire];
  }

  lemma Taking(c: Cfg, acts: seq<Action>, s: State) returns (more: seq<Action>, s': State)
    requires Runnable(c) && Run(c, Init(c), acts) == Some(s) && s.at == Loop && s.section.Ramp? && s.ticker.full
    ensures Run(c, Init(c), more) == Some(s')
    ensures s' == s.(ticker := s.ticker.(full := false, received := s.ticker.received + 1), recv := s.now, at := WaitStart)
  {
    AtRampLoop(c, s, TakeTick);
    s' := s.(ticker := s.ticker.(full := false, received := s.ticker.received + 1), recv := s.now, at := WaitStart);
    hide MainStep;
    RunThen(c, Init(c), acts, s, Main(TakeTick), s');
    more := acts + [Main(TakeTick)];
  }

  /** A wait begins; with a token there it is over at once. */
  lemma Waits(c: Cfg, acts: seq<Action>, s: State) returns (more: seq<Action>, s': State)
    requires Runnable(c) && Run(c, Init(c), acts) == Some(s) && s.at == WaitStart && s.section.Ramp? && !s.cancelled
    requires Limiter.Sound(s.local) && s.local.last <= s.now
    ensures Run(c, Init(c), more) == Some(s')
    ensures var (b, act) := Reserve(s.local, s.now); s' == s.(local := b, at := Waiting(act, act > s.now))
  {
    AtWaitStart(c, s, Go);
    hide MainStep, Limiter.Sound, Reserve;
    var (b, act) := Reserve(s.local, s.now);
    s' := s.(local := b, at := Waiting(act, act > s.now));
    RunThen(c, Init(c), acts, s, Main(Go), s');
    more := acts + [Main(Go)];
  }

  lemma {:induction false} Launching(c: Cfg, acts: seq<Action>, s: State) returns (more: seq<Action>, s': State)
    requires Runnable(c) && Run(c, Init(c), acts) == Some(s) && s.at.Launch? && s.section.Ramp?
    ensures Run(c, Init(c), more) == Some(s') && s' == s.(at := Loop, workers := s'.workers, wg := s'.wg)
    decreases c.targets - (if s.at.Launch? then s.at.k else 0)
  {
    AtLaunch(c, s, Go);
    var next := if s.at.k < c.targets then LaunchOne(s, s.at.k) else s.(at := Loop);
    assert Step(c, s, Main(Go)) == Some(next);
    hide MainStep, Step;
    RunThen(c, Init(c), acts, s, Main(Go), next);
    more, s' := acts + [Main(Go)], next;
    if s.at.k < c.targets {
      more, s' := Launching(c, more, next);
    }
  }

  lemma Opening(c: Cfg, acts: seq<Action>, s: State) returns (more: seq<Action>, s': State)
    requires Runnable(c) && Run(c, Init(c), acts) == Some(s) && s.at.Waiting? && s.at.act <= s.now && s.section.Ramp?
    requires s.rampSteps != []
    ensures Run(c, Init(c), more) == Some(s') && s'.at == Loop && s'.section == s.section && s'.now == s.now
    ensures s'.ticker == s.ticker && s'.local == s.local && s'.cancelled == s.cancelled
    ensures |s'.rampSteps| == |s.rampSteps| && Batches(s') == Batches(s) + 1
  {
    AtWaiting(c, s, Go);
    var s1 := OpenBatch(s);
    assert Step(c, s, Main(Go)) == Some(s1);
    hide MainStep, Step;
    RunThen(c, Init(c), acts, s, Main(Go), s1);
    more, s' := Launching(c, acts + [Main(Go)], s1);
  }

  /** A tick received and a token that is there: a batch. */
  lemma Batching(c: Cfg, acts: seq<Action>, s: State) returns (more: seq<Action>, s': State)
    requires Runnable(c) && Run(c, Init(c), acts) == Some(s) && s.at == WaitStart && s.section.Ramp? && !s.cancelled
    requires Limiter.Sound(s.local) && s.local.last <= s.now && Reserve(s.local, s.now).1 <= s.now && s.rampSteps != []
    ensures Run(c, Init(c), more) == Some(s') && s'.at == Loop && s'.section == s.section && s'.now == s.now
    ensures s'.ticker == s.ticker && s'.local == Reserve(s.local, s.now).0 && !s'.cancelled
    ensures |s'.rampSteps| == |s.rampSteps| && Batches(s') == Batches(s) + 1
  {
    hide Reserve, Limiter.Sound;
    var xs, s1 := Waits(c, acts, s);
    more, s' := Opening(c, xs, s1);
  }

  /** In step i with the bucket and the ticker given, after b batches. */
  predicate Inside(c: Cfg, s: State, i: nat, t: Ticker, bucket: Bucket, b: nat) {
    && s.section == Section.Ramp(i) && !s.cancelled && s.ticker == t && s.local == bucket
    && |s.rampSteps| == i + 1 && Batches(s) == b && Limiter.Sound(bucket)
  }

  lemma {:induction false} ToStep(c: Cfg, i: nat) returns (acts: seq<Action>, s: State)
    requires Runnable(c) && c.rate > 1.0 && i < STEPS
    ensures Run(c, Init(c), acts) == Some(s) && Fresh(c, s) && Shape(c, s) && s.at == RampCheck && s.section == Section.Ramp(i)
    decreases i
  {
    if i == 0 {
      InitHolds(c);
      var s0 := Init(c);
      s := MainStep(c, s0, Go).value;
      StepShape(c, s0, Main(Go), s);
      assert Step(c, s0, Main(Go)) == Some(s);
      hide Step, Init, Shape, Invariant;
      NoSteps(c, s0);
      RunThen(c, s0, [], s0, Main(Go), s);
      acts := [] + [Main(Go)];
    } else {
      var xs, s0 := ToStep(c, i - 1);
      hide Run, Init, Shape, Runnable, Fresh;
      var ys, s1 := IdleStep(c, s0);
      RunJoin(c, Init(c), xs, s0, ys, s1);
      acts, s := xs + ys, s1;
    }
  }

  lemma IntoStep(c: Cfg, i: nat, r: real) returns (acts: seq<Action>, s: State)
    requires Runnable(c) && c.rate > 1.0 && i < STEPS && r == Ladder(c.rate, i + 1)
    ensures r > 0.0 && Run(c, Init(c), acts) == Some(s) && s.at == Loop
    ensures Inside(c, s, i, NewTicker(s.now, Interval(r)), NewBucket(r, Burst(r), s.now), 0)
  {
    var xs, s0 := ToStep(c, i);
    LadderStep(c.rate, i);
    LadderStep(c.rate, i + 1);
    RateUp(c, s0);
    assert s0.currentRate == Ladder(c.rate, i) && |s0.rampSteps| == i;
    hide Ladder, Run, Init, Shape, Interval;
    s := BeginRampStep(c, s0, i);
    AtRampCheck(c, s0, Go);
    assert Step(c, s0, Main(Go)) == Some(s);
    hide Step, MainStep, Burst;
    RunThen(c, Init(c), xs, s0, Main(Go), s);
    acts := xs + [Main(Go)];
  }

  // What the bucket does at an instant.

  lemma FullNow(r: real, burst: nat, t0: int, now: int)
    requires r > 0.0 && burst >= 1 && t0 <= now
    ensures Reserve(NewBucket(r, burst, t0), now) == (Bucket(r, burst, burst as real - 1.0, now), now)
  {
    var e := (now - t0) as real;
    assert e * r >= 0.0;
    assert e * r / Limiter.SECOND >= 0.0;
  }

  lemma SpareNow(r: real, burst: nat, tokens: real, now: int)
    requires r > 0.0 && burst >= 1 && 1.0 <= tokens <= burst as real
    ensures Reserve(Bucket(r, burst, tokens, now), now) == (Bucket(r, burst, tokens - 1.0, now), now)
  {
    assert (now - now) as real * r / Limiter.SECOND == 0.0;
  }

  lemma NoneNow(r: real, burst: nat, now: int, dt: nat)
    requires 0.0 < r < 4.0 && burst >= 1 && dt <= 1
    ensures Reserve(Bucket(r, burst, 0.0, now), now + dt).1 > now + dt
  {
    var p := Period(r);
    PeriodTimesRate(r, dt as real);
    var gained := dt as real * r / Limiter.SECOND;
    assert gained < 0.5;
    assert p > 4.0 by { PeriodTimesRate(r, 1.0); assert p * r == Limiter.SECOND; }
    var tokens := gained - 1.0;
    PeriodTimesRate(r, -tokens);
    assert -tokens * p > 2.0 by { assert (-tokens - 0.5) * p > 0.0; }
  }

  /** Two ticks, the second in the channel, and the first token asked for one nanosecond before the
      fourth tick is due. */
  lemma TwoTicks(c: Cfg, i: nat, r: real) returns (acts: seq<Action>, s: State, t0: int)
    requires Runnable(c) && c.rate > 1.0 && i < STEPS && r == Ladder(c.rate, i + 1) && r > 0.0 && Interval(r) >= 1
    ensures Run(c, Init(c), acts) == Some(s) && s.at == WaitStart && s.now == t0 + 4 * Interval(r) - 1
    ensures Inside(c, s, i, Ticker(t0, Interval(r), 2, 1, true), NewBucket(r, Burst(r), t0), 0)
  {
    var n := Interval(r);
    var xs, s0 := IntoStep(c, i, r);
    t0 := s0.now;
    hide Run, Init, Ladder, Interval, Runnable, Burst;
    assert 1 * n == n;
    var a1, s1 := Passing(c, xs, s0, n);
    var a2, s2 := Firing(c, a1, s1, 1);
    var a3, s3 := Taking(c, a2, s2);
    var a4, s4 := Passing(c, a3, s3, n);
    var a5, s5 := Firing(c, a4, s4, 2);
    acts, s := Passing(c, a5, s5, 2 * n - 1);
  }

  /** The second tick taken at the same instant as the first token. */
  lemma SecondWait(c: Cfg, i: nat, r: real) returns (acts: seq<Action>, s: State, t0: int)
    requires Runnable(c) && c.rate > 1.0 && i < STEPS && r == Ladder(c.rate, i + 1) && r > 0.0 && Interval(r) >= 1 && Burst(r) >= 1
    ensures Run(c, Init(c), acts) == Some(s) && s.at == WaitStart && s.now == t0 + 4 * Interval(r) - 1
    ensures Inside(c, s, i, Ticker(t0, Interval(r), 2, 2, false), Bucket(r, Burst(r), Burst(r) as real - 1.0, s.now), 1)
  {
    var xs, s0;
    xs, s0, t0 := TwoTicks(c, i, r);
    FullNow(r, Burst(r), t0, s0.now);
    hide Run, Init, Ladder, Interval, Runnable, Burst, Reserve;
    var a1, s1 := Batching(c, xs, s0);
    acts, s := Taking(c, a1, s1);
  }

  /** The third tick fires then, too. */
  lemma ThirdWait(c: Cfg, i: nat, r: real) returns (acts: seq<Action>, s: State, t0: int)
    requires Runnable(c) && c.rate > 1.0 && i < STEPS && r == Ladder(c.rate, i + 1) && r > 0.0 && Interval(r) >= 1 && Burst(r) >= 2
    ensures Run(c, Init(c), acts) == Some(s) && s.at == WaitStart && s.now == t0 + 4 * Interval(r) - 1
    ensures Inside(c, s, i, Ticker(t0, Interval(r), 3, 3, false), Bucket(r, Burst(r), Burst(r) as real - 2.0, s.now), 2)
  {
    var xs, s0;
    xs, s0, t0 := SecondWait(c, i, r);
    SpareNow(r, Burst(r), Burst(r) as real - 1.0, s0.now);
    hide Run, Init, Ladder, Interval, Runnable, Burst, Reserve;
    var a1, s1 := Batching(c, xs, s0);
    var a2, s2 := Firing(c, a1, s1, 3);
    acts, s := Taking(c, a2, s2);
  }

  /** And the fourth a nanosecond later. */
  lemma FourthWait(c: Cfg, i: nat, r: real) returns (acts: seq<Action>, s: State, t0: int)
    requires Runnable(c) && c.rate > 1.0 && i < STEPS && r == Ladder(c.rate, i + 1) && r > 0.0 && Interval(r) >= 1 && Burst(r) >= 3
    ensures Run(c, Init(c), acts) == Some(s) && s.at == WaitStart && s.now == t0 + 4 * Interval(r)
    ensures Inside(c, s, i, Ticker(t0, Interval(r), 4, 4, false), Bucket(r, Burst(r), Burst(r) as real - 3.0, s.now - 1), 3)
  {
    var xs, s0;
    xs, s0, t0 := ThirdWait(c, i, r);
    SpareNow(r, Burst(r), Burst(r) as real - 2.0, s0.now);
    hide Run, Init, Ladder, Interval, Runnable, Burst, Reserve;
    var a1, s1 := Batching(c, xs, s0);
    var a2, s2 := Passing(c, a1, s1, 1);
    var a3, s3 := Firing(c, a2, s2, 4);
    acts, s := Taking(c, a3, s3);
  }

  /** In step i some run waits for the token of the batch after the burst. */
  ghost predicate MayWait(c: Cfg, i: nat)
    requires Runnable(c)
  {
    exists s :: Reachable(c, s) && s.section == Section.Ramp(i) && s.at.Waiting? && s.at.delayed
                && s.rampSteps != [] && Truncated(Batches(s), Ladder(c.rate, i + 1))
  }

  lemma WaitFound(c: Cfg, i: nat, acts: seq<Action>, s: State, t: Ticker, tokens: real, last: int)
    requires Runnable(c) && c.rate > 1.0 && i < STEPS && Run(c, Init(c), acts) == Some(s) && s.at == WaitStart
    requires var r := Ladder(c.rate, i + 1);
             && 0.0 < r < 4.0 && tokens == 0.0 && last <= s.now <= last + 1
             && Inside(c, s, i, t, Bucket(r, Burst(r), tokens, last), Burst(r)) && Truncated(Burst(r), r)
    ensures MayWait(c, i)
  {
    var r := Ladder(c.rate, i + 1);
    NoneNow(r, Burst(r), last, s.now - last);
    hide Ladder, Run, Init, Reserve, Burst, Runnable;
    var xs, s1 := Waits(c, acts, s);
    assert Reachable(c, s1);
    assert Batches(s1) == Burst(r);
  }

  /** The batch after the burst may wait exactly in the steps of less than four requests a second: at
      most three ticks can come together with the first token or a nanosecond later. */
  lemma NextWaits(c: Cfg, i: nat)
    requires Runnable(c) && c.rate > 1.0 && i < STEPS
    ensures MayWait(c, i) <==> Ladder(c.rate, i + 1) < 4.0
  {
    var r := Ladder(c.rate, i + 1);
    LadderBelow(c.rate, i + 1);
    LadderStep(c.rate, i + 1);
    IntervalPositive(r);
    if r < 4.0 {
      assert Truncated(Burst(r), r) && 1 <= Burst(r) <= 3;
      SmallBursts(c, i, r);
    } else {
      hide Ladder;
      forall s | Reachable(c, s) && s.section == Section.Ramp(i) && s.at.Waiting? && s.at.delayed
        ensures s.rampSteps != [] && !Truncated(Batches(s), r)
      {
        NoneDelayed(c, s);
      }
    }
  }

  lemma SmallBursts(c: Cfg, i: nat, r: real)
    requires Runnable(c) && c.rate > 1.0 && i < STEPS && r == Ladder(c.rate, i + 1) && 0.0 < r < 4.0 && Interval(r) >= 1
    requires Truncated(Burst(r), r) && 1 <= Burst(r) <= 3
    ensures MayWait(c, i)
  {
    hide Ladder, Run, Init, Interval, Burst, Runnable, MayWait;
    var acts, s, t0;
    if Burst(r) == 1 {
      acts, s, t0 := SecondWait(c, i, r);
      WaitFound(c, i, acts, s, Ticker(t0, Interval(r), 2, 2, false), Burst(r) as real - 1.0, s.now);
    } else if Burst(r) == 2 {
      acts, s, t0 := ThirdWait(c, i, r);
      WaitFound(c, i, acts, s, Ticker(t0, Interval(r), 3, 3, false), Burst(r) as real - 2.0, s.now);
    } else {
      acts, s, t0 := FourthWait(c, i, r);
      WaitFound(c, i, acts, s, Ticker(t0, Interval(r), 4, 4, false), Burst(r) as real - 3.0, s.now - 1);
    }
  }
}
