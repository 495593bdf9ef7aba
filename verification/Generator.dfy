/** The generators' methods as the source writes them: loops over fields of the generator. A script
    fixes everything outside the scheduling goroutine: when time passes, the ticker fires, Stop is
    called, a worker makes a step, and which ready case a select takes. Whatever the script, the
    loops make exactly the moves of the transition system. */
module Generator {
  import opened Options
  import opened Limiter
  import opened Machine
  import opened Accounting
  import opened Progress

  lemma Followed(c: Cfg, script: seq<Action>, i: nat, s: State, next: State)
    requires Runnable(c) && i < |script| && Run(c, Init(c), script[..i]) == Some(s) && Step(c, s, script[i]) == Some(next)
    ensures Run(c, Init(c), script[..i + 1]) == Some(next)
  {
    hide Step, Init;
    assert script[..i + 1] == script[..i] + [script[i]];
    RunAppend(c, Init(c), script[..i], [script[i]]);
    assert [script[i]][1..] == [];
  }

  /** How a step of the ramp-up ends. */
  datatype StepEnd = TimedOut | Stopped | NoToken

  class Generator {
    const c: Cfg
    const script: seq<Action>
    var pos: nat                  // how much of the script has happened
    var now: int
    var ticker: Ticker
    var stepEnd: int
    var limiter: Bucket
    var local: Bucket
    var recv: int
    var startTime: int
    var cancelled: bool
    var wg: int
    var currentRate: real
    var workers: seq<Worker>
    var calls: seq<nat>
    var requestCount: nat
    var log: seq<Event>
    ghost var batches: seq<Batch> // history, and where the scheduling goroutine is: for the proof only
    ghost var rampSteps: seq<RampStep>
    ghost var floods: nat
    ghost var at: Where
    ghost var section: Section

    ghost function View(): State
      reads this
    {
      State(now, section, at, ticker, stepEnd, limiter, local, recv, startTime, cancelled, wg, currentRate, workers, calls,
            requestCount, log, batches, rampSteps, floods)
    }

    /** So far the script is a run of the transition system, and this is its state. */
    ghost predicate Follows()
      reads this
    {
      Runnable(c) && pos <= |script| && Run(c, Init(c), script[..pos]) == Some(View())
    }

    /** The script is at its end, or asks for something that is not possible. */
    ghost predicate Blocked()
      reads this
    {
      Follows() && (pos == |script| || Step(c, View(), script[pos]).None?)
    }

    constructor (c: Cfg, script: seq<Action>)
      requires Runnable(c)
      ensures this.c == c && this.script == script && pos == 0 && at == Begin && Follows()
    {
      this.c, this.script, pos := c, script, 0;
      now, stepEnd, recv, startTime := 0, 0, 0, 0;
      ticker := Ticker(0, 1, 0, 0, false);
      limiter := if c.rate > 0.0 then NewBucket(c.rate, 1, 0) else NewBucket(1.0, 1, 0);
      local := NewBucket(1.0, 1, 0);
      cancelled, wg, currentRate := false, 0, 0.0;
      workers, calls, requestCount := [], seq(c.targets, _ => 0), 0;
      log, batches, rampSteps, floods := [], [], [], 0;
      at, section := Begin, Steady;
    }

    lemma Place()
      ensures View().at == at && View().section == section
    {
    }

    /** What the generator's fields show. */
    lemma Looks()
      ensures var s := View();
              && s.at == at && s.section == section && s.now == now && s.cancelled == cancelled && s.wg == wg
              && s.ticker == ticker && s.stepEnd == stepEnd && s.startTime == startTime && s.currentRate == currentRate
              && s.limiter == limiter && s.local == local && s.rampSteps == rampSteps && s.workers == workers && s.calls == calls && s.log == log
              && s.requestCount == requestCount
    {
    }

    /** Control goes on. */
    ghost method GoTo(next: Where)
      modifies this`at
      ensures at == next && View() == old(View()).(at := next)
    {
      at := next;
    }

    /** The script's next action has been carried out. */
    method Advance(ghost before: State)
      requires Runnable(c) && pos < |script| && Run(c, Init(c), script[..pos]) == Some(before)
      requires Step(c, before, script[pos]) == Some(View())
      modifies this`pos
      ensures Follows() && pos == old(pos) + 1 && View() == old(View())
    {
      hide Run, Init, Step, Runnable;
      Followed(c, script, pos, before, View());
      pos := pos + 1;
    }

    /** The pool's part: one more call of the target. */
    method CountCall(target: nat)
      modifies this`calls
      ensures View() == old(View()).(calls := if target < |old(calls)| then old(calls)[target := old(calls)[target] + 1] else old(calls))
    {
      if target < |calls| {
        calls := calls[target := calls[target] + 1];
      }
    }

    /** The write half of requestCount++. */
    method WriteCount(read: nat)
      modifies this`requestCount
      ensures View() == old(View()).(requestCount := read + 1)
    {
      requestCount := read + 1;
    }

    /** wg.Done. */
    method Done()
      modifies this`wg
      ensures View() == old(View()).(wg := old(wg) - 1)
    {
      wg := wg - 1;
    }

    method WriteRecord(message: Message, w: nat)
      modifies this`log
      ensures View() == old(View()).(log := old(log) + [Event(message, Some(w))])
    {
      log := log + [Event(message, Some(w))];
    }

    method Proceed(w: nat, work: Work)
      requires w < |workers|
      modifies this`workers
      ensures View() == old(View()).(workers := old(workers)[w := old(workers)[w].(work := work)])
    {
      workers := workers[w := workers[w].(work := work)];
    }

    /** One statement of a worker. */
    method WorkerStatement(w: nat, answer: Answer)
      requires w < |workers| && !workers[w].work.Gone?
      modifies this`workers, this`calls, this`requestCount, this`wg, this`log
      ensures WorkerStep(c, old(View()), w, answer) == Some(View())
    {
      hide WorkStep, View;
      Looks();
      var worker := workers[w];
      var (work, line) := WorkStep(c.kind, worker.section, worker.work, requestCount, answer);
      if worker.work.Requesting? {
        CountCall(worker.target);
      }
      if worker.work.Storing? {
        WriteCount(worker.work.read);
      }
      if worker.work.Leaving? {
        Done();
      }
      if line.Some? {
        WriteRecord(line.value, w);
      }
      Proceed(w, work);
    }

    /** What is not the scheduling goroutine's. */
    method Elsewhere(a: Action) returns (ok: bool)
      requires !a.Main? && Runnable(c)
      modifies this`now, this`ticker, this`cancelled, this`workers, this`calls, this`requestCount, this`wg, this`log
      ensures if ok then Step(c, old(View()), a) == Some(View()) else View() == old(View()) && Step(c, View(), a).None?
      ensures at == old(at) && section == old(section)
    {
      hide WorkerStep, FireTicker;
      match a {
        case Pass(dt) => now := now + dt;
        case Cancel => cancelled := true;
        case Fire =>
          if !Due(ticker, now) {
            return false;
          }
          ticker := FireTicker(ticker, now);
        case Work(w, answer) =>
          if w >= |workers| || workers[w].work.Gone? {
            Idle(c, View(), w, answer);
            return false;
          }
          WorkerStatement(w, answer);
      }
      ok := true;
    }

    /** Everything else goes on until it is the scheduling goroutine's turn. */
    method Await() returns (choice: Option<Choice>)
      requires Follows()
      modifies this`pos, this`now, this`ticker, this`cancelled, this`workers, this`calls, this`requestCount, this`wg, this`log
      ensures Follows() && pos >= old(pos) && at == old(at) && section == old(section)
      ensures if choice.Some? then pos < |script| && script[pos] == Main(choice.value) else Blocked()
    {
      hide Run, Init, Step, View, Runnable;
      while pos < |script|
        invariant Follows() && pos >= old(pos)
        decreases |script| - pos
      {
        if script[pos].Main? {
          return Some(script[pos].choice);
        }
        ghost var before := View();
        var ok := Elsewhere(script[pos]);
        if !ok {
          return None;
        }
        Advance(before);
      }
      return None;
    }

    /** Logs a progress line. */
    method Info()
      modifies this`log
      ensures View() == Logged(old(View()))
    {
      log := log + [Event(ProgressLine, None)];
    }

    /** wg.Add(1). */
    method Add()
      modifies this`wg
      ensures View() == old(View()).(wg := old(wg) + 1)
    {
      wg := wg + 1;
    }

    /** go: a worker with its request before it. */
    method Spawn(part: Section, k: nat)
      modifies this`workers
      ensures View() == old(View()).(workers := old(workers) + [Worker(part, k, now, Requesting)])
    {
      workers := workers + [Worker(part, k, now, Requesting)];
    }

    ghost method Launched(k: nat, history: seq<Batch>)
      modifies this`batches, this`at
      ensures View() == old(View()).(batches := history, at := Launch(k)) && at == Launch(k)
    {
      batches, at := history, Launch(k);
    }

    method LaunchWorker(part: Section, k: nat)
      requires at == Launch(k) && part == section
      modifies this`wg, this`workers, this`batches, this`at
      ensures View() == LaunchOne(old(View()), k) && at == Launch(k + 1)
    {
      hide View;
      Looks();
      ghost var before := View();
      Add();
      Spawn(part, k);
      Launched(k + 1, LaunchOne(before, k).batches);
    }

    /** A batch: one worker for each of its targets. */
    method LaunchBatch(part: Section) returns (ok: bool)
      requires Follows() && at == Launch(0) && part == section
      modifies this
      ensures pos >= old(pos) && section == old(section)
      ensures if ok then Follows() && at == (if part.Ramp? then Loop else Check) else Blocked()
    {
      hide Run, Init, MainStep, Runnable, WorkerStep, LaunchOne, View;
      var size := if c.kind == CloudEvent && part == Steady then 1 else c.targets;
      var k := 0;
      while k < size
        invariant Follows() && at == Launch(k) && k <= size && section == part && pos >= old(pos)
      {
        var choice := Await();
        ghost var before := View();
        Place();
        AtLaunch(c, before, if choice.Some? then choice.value else Go);
        if choice != Some(Go) {
          return false;
        }
        LaunchWorker(part, k);
        Advance(before);
        k := k + 1;
      }
      var choice := Await();
      ghost var before := View();
      Place();
      AtLaunch(c, before, if choice.Some? then choice.value else Go);
      if choice != Some(Go) {
        return false;
      }
      GoTo(if part.Ramp? then Loop else Check);
      Advance(before);
      ok := true;
    }

    /** Control goes on in another section. */
    ghost method GoInto(next: Section, place: Where)
      modifies this`section, this`at
      ensures at == place && section == next && View() == old(View()).(section := next, at := place)
    {
      section, at := next, place;
    }

    /** A tick is taken from the ticker's channel. */
    method Receive(next: Where)
      modifies this`ticker, this`recv, this`at
      ensures at == next && View() == old(View()).(ticker := old(ticker).(full := false, received := old(ticker).received + 1),
                                                   recv := now, at := next)
    {
      ticker := ticker.(full := false, received := ticker.received + 1);
      recv := now;
      at := next;
    }

    /** The limiter's Wait has returned. */
    ghost method Open()
      modifies this`batches, this`rampSteps, this`floods, this`at
      ensures View() == OpenBatch(old(View())) && at == Launch(0)
    {
      var after := OpenBatch(View());
      batches, rampSteps, floods, at := after.batches, after.rampSteps, after.floods, Launch(0);
    }

    /** It has failed. */
    method Fail(part: Section)
      requires part == section
      modifies this`log, this`at
      ensures View() == LimiterError(old(View())) && at == Joining(true)
    {
      if !part.Ramp? {
        log := log + [Event(ProgressLine, None)];
      }
      at := Joining(true);
    }

    /** A token is reserved. */
    method TakeToken(part: Section) returns (act: int)
      requires part == section && Limiter.Sound(BucketOf(View())) && BucketOf(View()).last <= now
      modifies this`limiter, this`local, this`at
      ensures var (b, until) := Reserve(BucketOf(old(View())), now);
              && View() == WithBucket(old(View()), b).(at := Waiting(until, until > now))
              && act == until && at == Waiting(act, act > now)
    {
      hide Reserve, Limiter.Sound;
      var (b, until) := Reserve(if part.Ramp? then local else limiter, now);
      if part.Ramp? {
        local := b;
      } else {
        limiter := b;
      }
      act := until;
      at := Waiting(act, act > now);
    }

    /** The second half of Wait: the timer or the Done channel. */
    method WaitOut(part: Section, act: int, delayed: bool) returns (ok: bool, err: bool)
      requires Follows() && at == Waiting(act, delayed) && part == section
      modifies this
      ensures pos >= old(pos) && section == old(section)
      ensures if ok then Follows() && at == (if err then Joining(true) else Launch(0)) else Blocked()
    {
      hide Run, Init, MainStep, Runnable, WorkerStep, View, OpenBatch, LimiterError;
      var choice := Await();
      ghost var before := View();
      Looks();
      AtWaiting(c, before, if choice.Some? then choice.value else TakeTimer);
      if choice == Some(Go) && now >= act {
        Open();
        ok, err := true, false;
      } else if choice == Some(TakeDone) && cancelled && delayed {
        Fail(part);
        ok, err := true, true;
      } else {
        return false, false;
      }
      Advance(before);
    }

    /** limiter.Wait(ctx). */
    method WaitLimiter(part: Section) returns (ok: bool, err: bool)
      requires Follows() && at == WaitStart && part == section
      modifies this
      ensures pos >= old(pos) && section == old(section)
      ensures if ok then Follows() && at == (if err then Joining(true) else Launch(0)) else Blocked()
    {
      hide Run, Init, MainStep, Runnable, WorkerStep, View, LimiterError, Reserve, Limiter.Sound, BucketOf, WithBucket;
      var choice := Await();
      ghost var before := View();
      Looks();
      BucketFits(c, script[..pos], before);
      AtWaitStart(c, before, if choice.Some? then choice.value else Go);
      if choice != Some(Go) {
        return false, false;
      }
      if cancelled {
        Fail(part);
        Advance(before);
        return true, true;
      }
      var act := TakeToken(part);
      Advance(before);
      ok, err := WaitOut(part, act, act > now);
    }

    /** One step of the ramp-up: ticks until the step timer, cancellation or an error of the limiter. */
    method StepLoop(i: nat) returns (ok: bool, out: StepEnd)
      requires Follows() && at == Loop && section == Ramp(i)
      modifies this
      ensures pos >= old(pos)
      ensures if !ok then Blocked() else Follows() && match out
              case TimedOut => at == RampCheck && section == Ramp(i + 1)
              case Stopped => at == SteadyTicker && section == Steady
              case NoToken => at == Joining(true)
    {
      hide Run, Init, MainStep, Runnable, WorkerStep, View;
      while true
        invariant Follows() && at == Loop && section == Ramp(i) && pos >= old(pos)
        decreases |script| - pos
      {
        var choice := Await();
        ghost var before := View();
        Looks();
        AtRampLoop(c, before, if choice.Some? then choice.value else Go);
        if choice == Some(TakeDone) && cancelled {
          GoInto(Steady, SteadyTicker);
          Advance(before);
          return true, Stopped;
        } else if choice == Some(TakeTimer) && now >= stepEnd {
          Info();
          GoInto(Ramp(i + 1), RampCheck);
          Advance(before);
          return true, TimedOut;
        } else if choice == Some(TakeTick) && ticker.full {
          Receive(WaitStart);
          Advance(before);
          var waited, err := WaitLimiter(Ramp(i));
          if !waited {
            return false, Stopped;
          }
          if err {
            return true, NoToken;
          }
          var launched := LaunchBatch(Ramp(i));
          if !launched {
            return false, Stopped;
          }
        } else {
          return false, Stopped;
        }
      }
    }

    /** A step's rate, limiter, ticker and timer. */
    method SetBucket(rate: real, burst: nat)
      modifies this`currentRate, this`local
      ensures View() == old(View()).(currentRate := rate, local := NewBucket(rate, burst, now))
    {
      hide NewBucket;
      currentRate := rate;
      local := NewBucket(rate, burst, now);
    }

    method SetTimers(rate: real)
      requires rate > 0.0
      modifies this`ticker, this`stepEnd
      ensures View() == old(View()).(ticker := NewTicker(now, Interval(rate)), stepEnd := now + NANOS)
    {
      hide Interval;
      ticker := NewTicker(now, Interval(rate));
      stepEnd := now + NANOS;
    }

    ghost method NewStep()
      modifies this`rampSteps, this`at
      ensures View() == old(View()).(rampSteps := old(rampSteps) + [RampStep(now, 0, now)], at := Loop) && at == Loop
    {
      rampSteps, at := rampSteps + [RampStep(now, 0, now)], Loop;
    }

    method BeginStep(i: nat)
      requires c.rate > 1.0 && currentRate + (c.rate - 1.0) / 15.0 > 0.0
      modifies this`currentRate, this`local, this`ticker, this`stepEnd, this`rampSteps, this`at
      ensures View() == BeginRampStep(c, old(View()), i) && at == Loop
    {
      hide Interval, NewBucket, BeginRampStep, View;
      Looks();
      BeginIs(c, View(), i);
      var rateIncrement := (c.rate - 1.0) / 15.0;
      var rate := currentRate + rateIncrement;
      var burstSize := rate.Floor;
      if burstSize < 1 {
        burstSize := 1;
      }
      assert burstSize == Burst(rate);
      hide Burst;
      SetBucket(rate, burstSize);
      SetTimers(rate);
      NewStep();
    }

    /** The body of the ramp-up's loop. */
    method OneStep(i: nat) returns (ok: bool, out: StepEnd)
      requires Follows() && at == RampCheck && section == Ramp(i) && i < STEPS && c.rate > 1.0
      modifies this
      ensures pos >= old(pos)
      ensures if !ok then Blocked() else Follows() && match out
              case TimedOut => at == RampCheck && section == Ramp(i + 1)
              case Stopped => at == SteadyTicker && section == Steady
              case NoToken => at == Joining(true)
    {
      hide Run, Init, MainStep, Runnable, WorkerStep, View, BeginRampStep;
      var choice := Await();
      ghost var before := View();
      Looks();
      RampRate(c, script[..pos], before);
      AtRampCheck(c, before, if choice.Some? then choice.value else TakeTimer);
      if choice != Some(Go) {
        return false, Stopped;
      }
      if cancelled {
        GoInto(Steady, SteadyTicker);
        Advance(before);
        return true, Stopped;
      }
      BeginStep(i);
      Advance(before);
      ok, out := StepLoop(i);
    }

    /** After the last step. */
    method RampDone() returns (ok: bool)
      requires Follows() && at == RampCheck && section == Ramp(STEPS) && c.rate > 1.0
      modifies this
      ensures pos >= old(pos)
      ensures if !ok then Blocked() else Follows() && at == SteadyTicker && section == Steady
    {
      hide Run, Init, MainStep, Runnable, WorkerStep, View, BeginRampStep;
      var choice := Await();
      ghost var before := View();
      Place();
      AtRampCheck(c, before, if choice.Some? then choice.value else TakeTimer);
      if choice != Some(Go) {
        return false;
      }
      Info();
      GoInto(Steady, SteadyTicker);
      Advance(before);
      ok := true;
    }

    /** Fifteen steps of one second; nil both when they are done and when cancelled. */
    method RampUp() returns (ok: bool, err: bool)
      requires Follows() && at == RampCheck && section == Ramp(0) && c.rate > 1.0
      modifies this
      ensures pos >= old(pos)
      ensures if !ok then Blocked() else Follows() && if err then at == Joining(true) else at == SteadyTicker && section == Steady
    {
      hide Run, Init, Step, Runnable, View;
      for i := 0 to STEPS
        invariant Follows() && at == RampCheck && section == Ramp(i) && pos >= old(pos)
      {
        var ended, out := OneStep(i);
        if !ended {
          return false, false;
        }
        match out {
          case Stopped => return true, false;
          case NoToken => return true, true;
          case TimedOut =>
        }
      }
      ok := RampDone();
      err := false;
    }

    /** Stop, as run itself calls it when the duration is reached: the workers are waited for. */
    method StopHere() returns (ok: bool)
      requires Follows() && at == Stopping
      modifies this
      ensures pos >= old(pos)
      ensures if ok then Follows() && at == Joining(false) else Blocked()
    {
      hide Run, Init, MainStep, Runnable, WorkerStep, View;
      var choice := Await();
      ghost var before := View();
      Looks();
      AtStopping(c, before, if choice.Some? then choice.value else TakeTimer);
      if choice != Some(Go) || wg != 0 {
        return false;
      }
      GoTo(Joining(false));
      Advance(before);
      ok := true;
    }

    /** The end of a batch: has the duration passed? */
    method CheckDuration() returns (ok: bool, reached: bool)
      requires Follows() && at == Check
      modifies this
      ensures pos >= old(pos) && (ok && !reached ==> section == old(section))
      ensures if ok then Follows() && at == (if reached then Joining(false) else Loop) else Blocked()
    {
      hide Run, Init, MainStep, Runnable, WorkerStep, View;
      var choice := Await();
      ghost var before := View();
      Looks();
      AtCheck(c, before, if choice.Some? then choice.value else TakeTimer);
      if choice != Some(Go) {
        return false, false;
      }
      if c.duration > 0 && now - startTime > c.duration {
        Info();
        Cancelled();
        GoTo(Stopping);
        Advance(before);
        ok := StopHere();
        reached := true;
      } else {
        GoTo(Loop);
        Advance(before);
        ok, reached := true, false;
      }
    }

    method Cancelled()
      modifies this`cancelled
      ensures View() == old(View()).(cancelled := true)
    {
      cancelled := true;
    }

    /** The cloud-event generator's tick: no limiter, so the batch is open at once. */
    method ReceiveUnlimited()
      modifies this`ticker, this`recv, this`at, this`batches
      ensures View() == Unlimited(old(View())) && at == Launch(0)
    {
      batches := batches + [Batch(now, now as real, now, now, |workers|)];
      Receive(Launch(0));
    }

    /** A tick of the steady loop: the wait for a token, the batch, the check of the duration. */
    method SteadyTick() returns (ok: bool, over: bool, err: bool)
      requires Follows() && at == Loop && section == Steady && ticker.full
      requires pos < |script| && script[pos] == Main(TakeTick)
      modifies this
      ensures pos > old(pos)
      ensures if !ok then Blocked() else Follows() && if over then at == Joining(err) else at == Loop && section == Steady
    {
      hide Run, Init, MainStep, Runnable, WorkerStep, View, Unlimited;
      ghost var before := View();
      Looks();
      AtSteadyLoop(c, before, TakeTick);
      if c.kind == CloudEvent {
        ReceiveUnlimited();
        Advance(before);
      } else {
        Receive(WaitStart);
        Advance(before);
        var waited, failed := WaitLimiter(Steady);
        if !waited || failed {
          return waited, true, true;
        }
      }
      var launched := LaunchBatch(Steady);
      if !launched {
        return false, false, false;
      }
      err := false;
      ok, over := CheckDuration();
    }

    /** The steady loop. */
    method RunSteady() returns (ok: bool, err: bool)
      requires Follows() && at == Loop && section == Steady
      modifies this
      ensures pos >= old(pos)
      ensures if ok then Follows() && at == Joining(err) else Blocked()
    {
      hide Run, Init, MainStep, Runnable, WorkerStep, View, Unlimited;
      while true
        invariant Follows() && at == Loop && section == Steady && pos >= old(pos)
        decreases |script| - pos
      {
        var choice := Await();
        ghost var before := View();
        Looks();
        AtSteadyLoop(c, before, if choice.Some? then choice.value else Go);
        if choice == Some(TakeDone) && cancelled {
          Info();
          GoTo(Joining(false));
          Advance(before);
          return true, false;
        } else if choice == Some(TakeTick) && ticker.full {
          var over: bool;
          ok, over, err := SteadyTick();
          if !ok || over {
            return;
          }
        } else {
          return false, false;
        }
      }
    }

    /** As fast as it goes: batches until cancelled or the duration is reached. */
    method RunMaxThroughput() returns (ok: bool)
      requires Follows() && at == Loop && section == Throughput
      modifies this
      ensures pos >= old(pos)
      ensures if ok then Follows() && at == Joining(false) else Blocked()
    {
      hide Run, Init, MainStep, Runnable, WorkerStep, View, OpenBatch;
      while true
        invariant Follows() && at == Loop && section == Throughput && pos >= old(pos)
        decreases |script| - pos
      {
        var choice := Await();
        ghost var before := View();
        Looks();
        AtFloodLoop(c, before, if choice.Some? then choice.value else TakeTick);
        if choice == Some(TakeDone) && cancelled {
          Info();
          GoTo(Joining(false));
          Advance(before);
          return true;
        } else if choice == Some(Go) && !cancelled {
          Open();
          Advance(before);
          ok := LaunchBatch(Throughput);
          if !ok {
            return;
          }
          var reached;
          ok, reached := CheckDuration();
          if !ok || reached {
            return;
          }
        } else {
          return false;
        }
      }
    }

    method SetTicker()
      requires c.rate > 0.0
      modifies this`ticker, this`at
      ensures View() == old(View()).(ticker := NewTicker(now, Interval(c.rate)), at := SteadyClock) && at == SteadyClock
    {
      hide Interval;
      ticker := NewTicker(now, Interval(c.rate));
      at := SteadyClock;
    }

    method SetStart(ghost next: Section)
      modifies this`startTime, this`section, this`at
      ensures View() == old(View()).(startTime := now, section := next, at := Loop) && at == Loop && section == next
    {
      startTime := now;
      section, at := next, Loop;
    }

    /** The start time is read, and the loop entered. */
    method StartClock() returns (ok: bool, err: bool)
      requires Follows() && at == SteadyClock && section == Steady
      modifies this
      ensures pos >= old(pos)
      ensures if ok then Follows() && at == Joining(err) else Blocked()
    {
      hide Run, Init, MainStep, Runnable, WorkerStep, View;
      var choice := Await();
      ghost var before := View();
      Looks();
      AtSteadyClock(c, before, if choice.Some? then choice.value else TakeTick);
      if choice != Some(Go) {
        return false, false;
      }
      SetStart(Steady);
      Advance(before);
      ok, err := RunSteady();
    }

    /** The steady section from its ticker on. */
    method Steadily() returns (ok: bool, err: bool)
      requires Follows() && at == SteadyTicker && section == Steady
      modifies this
      ensures pos >= old(pos)
      ensures if ok then Follows() && at == Joining(err) else Blocked()
    {
      hide Run, Init, MainStep, Runnable, WorkerStep, View, Interval;
      var choice := Await();
      ghost var before := View();
      Looks();
      SteadyRate(c, script[..pos], before);
      AtSteadyTicker(c, before, if choice.Some? then choice.value else TakeTick);
      if choice != Some(Go) {
        return false, false;
      }
      SetTicker();
      Advance(before);
      ok, err := StartClock();
    }

    method SetRate()
      modifies this`currentRate, this`section, this`at
      ensures View() == old(View()).(currentRate := 1.0, section := Ramp(0), at := RampCheck)
      ensures at == RampCheck && section == Ramp(0)
    {
      currentRate := 1.0;
      section, at := Ramp(0), RampCheck;
    }

    /** run. */
    method RunAll() returns (ok: bool, err: bool)
      requires Follows() && at == Begin && section == Steady
      modifies this
      ensures if ok then Follows() && at == Joining(err) else Blocked()
    {
      hide Run, Init, MainStep, Runnable, WorkerStep, View;
      var choice := Await();
      ghost var before := View();
      Looks();
      AtBegin(c, before, if choice.Some? then choice.value else TakeTick);
      if choice != Some(Go) {
        return false, false;
      }
      Info();
      if c.kind == Http && c.rate == 0.0 {
        SetStart(Throughput);
        Advance(before);
        ok := RunMaxThroughput();
        return ok, false;
      }
      if c.rate > 1.0 {
        SetRate();
        Advance(before);
        ok, err := RampUp();
        if !ok || err {
          return;
        }
      } else {
        GoTo(SteadyTicker);
        Advance(before);
      }
      ok, err := Steadily();
    }

    /** Start: run, then wait for the workers. When it returns none is under way, and the pool has
        counted for each target the batches it belongs to; when it does not, that is because the
        script has ended or asked for something that is not possible. */
    method Start() returns (returned: bool, err: bool)
      requires Follows() && at == Begin && section == Steady
      modifies this
      ensures if returned then Follows() && at == Finished(err) else Blocked()
      ensures returned ==> wg == 0 && AllEnded(workers) && |calls| == c.targets
      ensures returned ==> forall t: nat | t < c.targets :: calls[t] == BatchesFor(c, View(), t)
    {
      hide Run, Init, MainStep, Runnable, WorkerStep, View, AllEnded, BatchesFor;
      var ok;
      ok, err := RunAll();
      if !ok {
        return false, err;
      }
      var choice := Await();
      ghost var before := View();
      Looks();
      AtJoining(c, before, if choice.Some? then choice.value else TakeTick);
      if choice != Some(Go) || wg != 0 {
        return false, err;
      }
      GoTo(Finished(err));
      Advance(before);
      AtEnd(c, script[..pos], View());
      Looks();
      returned := true;
    }
  }

  lemma Idle(c: Cfg, s: State, w: nat, answer: Answer)
    requires w >= |s.workers| || s.workers[w].work.Gone?
    ensures WorkerStep(c, s, w, answer).None?
  {
  }

  lemma BucketFits(c: Cfg, acts: seq<Action>, s: State)
    requires Runnable(c) && Run(c, Init(c), acts) == Some(s)
    ensures Limiter.Sound(BucketOf(s)) && BucketOf(s).last <= s.now
  {
    hide Run, Books, Tally, Place, Init;
    assert Reachable(c, s);
    ReachableHolds(c, s);
  }

  lemma RampRate(c: Cfg, acts: seq<Action>, s: State)
    requires Runnable(c) && c.rate > 1.0 && s.at == RampCheck && s.section.Ramp? && Run(c, Init(c), acts) == Some(s)
    ensures s.currentRate + (c.rate - 1.0) / 15.0 > 0.0
  {
    assert Reachable(c, s) by { hide Init, Run; }
    ReachableHolds(c, s);
    LadderStep(c.rate, s.section.step);
    hide Run, Init, Books, Tally, LimiterShape, Ladder, Runnable;
  }

  lemma BeginIs(c: Cfg, s: State, i: nat)
    requires c.rate > 1.0 && s.currentRate + (c.rate - 1.0) / 15.0 > 0.0
    ensures var rate := s.currentRate + (c.rate - 1.0) / 15.0;
            BeginRampStep(c, s, i) ==
            s.(currentRate := rate, local := NewBucket(rate, Burst(rate), s.now),
               ticker := NewTicker(s.now, Interval(rate)), stepEnd := s.now + NANOS, at := Loop,
               rampSteps := s.rampSteps + [RampStep(s.now, 0, s.now)])
  {
    hide Interval, NewBucket, Burst;
  }

  lemma SteadyRate(c: Cfg, acts: seq<Action>, s: State)
    requires Runnable(c) && s.at == SteadyTicker && Run(c, Init(c), acts) == Some(s)
    ensures c.rate > 0.0
  {
    assert Reachable(c, s) by { hide Init, Run; }
    ReachableHolds(c, s);
    hide Run, Init, Books, Tally, LimiterShape;
  }

  lemma AtEnd(c: Cfg, acts: seq<Action>, s: State)
    requires Runnable(c) && Run(c, Init(c), acts) == Some(s) && s.at.Finished?
    ensures s.wg == 0 && AllEnded(s.workers) && |s.calls| == c.targets
    ensures forall t: nat | t < c.targets :: s.calls[t] == BatchesFor(c, s, t)
  {
    hide Run, Init, AllEnded, BatchesFor, Books, Tally, Place, LimiterShape;
    assert Reachable(c, s);
    ReachableHolds(c, s);
    NoneLeft(c, s);
    forall t: nat | t < c.targets ensures s.calls[t] == BatchesFor(c, s, t) {
      StartReturns(c, s, t);
    }
  }

  lemma NoneLeft(c: Cfg, s: State)
    requires Runnable(c) && Reachable(c, s) && s.at.Finished?
    ensures s.wg == 0 && AllEnded(s.workers)
  {
    hide Reachable, Shape, Books, Tally;
    ReachableHolds(c, s);
    NoneInFlight(c, s);
  }
}
