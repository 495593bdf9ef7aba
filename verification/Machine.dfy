/** The generators of pkg/generator/generator.go as a transition system: the scheduling goroutine,
    its workers, the clock, the ticker, the limiter and whoever calls Stop, one step at a time.
    Every interleaving is a sequence of actions. */
module Machine {
  import opened Options
  import opened Limiter

  // ---------- configuration ----------

  datatype Kind = Http | CloudEvent

  /** Rate in requests per second, duration in nanoseconds (0 or less: no deadline), number of targets. */
  datatype Cfg = Cfg(kind: Kind, rate: real, duration: int, targets: nat)

  const NANOS: int := 1_000_000_000
  const STEPS: nat := 15
  const MAX_RATE: real := 1_000_000_000.0

  /** Outside these NewTicker panics, or the cloud-event generator has no first target. */
  predicate Runnable(c: Cfg) {
    && (if c.kind == Http then 0.0 <= c.rate <= MAX_RATE else 0.0 < c.rate <= MAX_RATE)
    && (c.kind == CloudEvent ==> c.targets > 0)
  }

  /** time.Duration(float64(time.Second) / rate) drops the fraction. */
  function Interval(rate: real): int
    requires rate > 0.0
  {
    Period(rate).Floor
  }

  /** The ramp's rate after `i` increments. */
  function Ladder(rate: real, i: nat): real { 1.0 + i as real * ((rate - 1.0) / 15.0) }

  // ---------- the ticker ----------

  /** time.Ticker: tick k is due k intervals after the start. A tick that fires late skips those
      it has missed (`fired` is the number of intervals that had passed); the channel holds one
      tick, a further one is dropped. */
  datatype Ticker = Ticker(start: int, interval: int, fired: nat, received: nat, full: bool)

  function NewTicker(now: int, interval: int): Ticker { Ticker(now, interval, 0, 0, false) }

  predicate Due(t: Ticker, now: int) { t.interval >= 1 && t.start + (t.fired + 1) * t.interval <= now }

  lemma DuePassed(t: Ticker, now: int)
    requires Due(t, now)
    ensures (now - t.start) / t.interval >= t.fired + 1
    ensures t.start + (now - t.start) / t.interval * t.interval <= now
  {
    var q := (now - t.start) / t.interval;
    assert now - t.start == q * t.interval + (now - t.start) % t.interval;
    Below(t.fired + 1, q + 1, t.interval);
  }

  function AtLeast(x: int, y: int): int { if x < y then y else x }

  lemma ScaleUp(a: int, b: int, i: int)
    requires a <= b && i >= 0
    ensures a * i <= b * i
  {
    assert (b - a) * i >= 0;
  }

  lemma Quotient(x: int, i: int, q: int)
    requires i > 0 && q * i <= x < (q + 1) * i
    ensures x / i == q
  {
    assert x == (x / i) * i + x % i;
    Below(q, x / i + 1, i);
    Below(x / i, q + 1, i);
  }

  lemma Below(a: int, b: int, x: int)
    requires x > 0 && a * x < b * x
    ensures a < b
  {
    assert b <= a ==> (a - b) * x >= 0;
  }

  function FireTicker(t: Ticker, now: int): (t': Ticker)
    requires Due(t, now)
    ensures t'.fired > t.fired && t'.full && t'.start + t'.fired * t'.interval <= now
    ensures !Due(t', now)
  {
    DuePassed(t, now);
    t.(fired := (now - t.start) / t.interval, full := true)
  }

  // ---------- workers ----------

  datatype Section = Ramp(step: nat) | Steady | Throughput

  /** A rejected request is a failure the log records as Failed. */
  datatype Outcome = Succeeded | Failed | Rejected

  /** Where a worker is: its next step. */
  datatype Work =
    | Requesting              // in Pool.Get or Pool.GenerateCloudEvent
    | Failing                 // about to log the request error (with metrics: as Failed)
    | Refused                 // about to log a status other than 200
    | Reading                 // reading the response body
    | ReadFailed              // about to log the body error
    | Complaining             // ramp-up: about to log that the request failed
    | Reporting               // about to log the success
    | Counting                // steady: about to read requestCount
    | Storing(read: nat)      // steady: about to write requestCount
    | Leaving(outcome: Outcome)
    | Gone(outcome: Outcome)

  datatype Worker = Worker(section: Section, target: nat, at: int, work: Work)

  /** How the environment answers: for a request success, error or another status, for a body
      success or error. */
  datatype Answer = Good | Bad | Other

  datatype Message = SuccessLine | FailedLine | ErrorLine | BodyErrorLine | ComplaintLine | ProgressLine

  /** A whole record in the log file, with the worker that wrote it. */
  datatype Event = Event(message: Message, worker: Option<nat>)

  /** One step of a worker: where it goes, what it logs. */
  function WorkStep(kind: Kind, section: Section, work: Work, count: nat, answer: Answer): (Work, Option<Message>)
    requires !work.Gone?
  {
    match work
    case Requesting =>
      (match answer
       case Good => Reading
       case Bad => Failing
       case Other => if section == Throughput then Refused else Reading, None)
    case Failing =>
      if section.Ramp? then (Complaining, Some(ErrorLine))
      else if kind == CloudEvent && section == Steady && answer == Other then (Leaving(Rejected), Some(FailedLine))
      else (Leaving(Failed), Some(ErrorLine))
    case Refused => (Leaving(Rejected), Some(FailedLine))
    case Reading => (if answer == Good then Reporting else ReadFailed, None)
    case ReadFailed =>
      (if section.Ramp? then Complaining
       else if section == Throughput || kind == CloudEvent then Reporting
       else Leaving(Failed), Some(BodyErrorLine))
    case Complaining => (Leaving(Failed), Some(ComplaintLine))
    case Reporting => (if kind == Http && section == Steady then Counting else Leaving(Succeeded), Some(SuccessLine))
    case Counting => (Storing(count), None)
    case Storing(_) => (Leaving(Succeeded), None)
    case Leaving(outcome) => (Gone(outcome), None)
  }

  // ---------- the state ----------

  /** Where the scheduling goroutine is. */
  datatype Where =
    | Begin
    | RampCheck
    | Loop
    | WaitStart               // a tick was received, Wait is about to be called
    | Waiting(act: int, delayed: bool)
    | Launch(k: nat)
    | Check
    | SteadyTicker
    | SteadyClock
    | Stopping                // in Stop, called by run itself
    | Joining(error: bool)    // run has returned; Start is in wg.Wait
    | Finished(error: bool)   // Start has returned

  /** A steady batch: when its tick was received, when its token was due, when Wait returned, when
      its last worker was launched, and the number of its first worker. */
  datatype Batch = Batch(recv: int, grant: real, begin: int, last: int, first: nat)

  /** A ramp step: when it began, how many batches it launched, when the last tick was received. */
  datatype RampStep = RampStep(start: int, batches: nat, last: int)

  datatype State = State(
    now: int,
    section: Section,
    at: Where,
    ticker: Ticker,
    stepEnd: int,
    limiter: Bucket,
    local: Bucket,
    recv: int,
    startTime: int,
    cancelled: bool,
    wg: int,
    currentRate: real,
    workers: seq<Worker>,
    calls: seq<nat>,          // the pool's count per target
    requestCount: nat,
    log: seq<Event>,
    batches: seq<Batch>,
    rampSteps: seq<RampStep>,
    floods: nat)              // batches of the maximum-throughput loop

  function Init(c: Cfg): State
    requires Runnable(c)
  {
    State(0, Steady, Begin, Ticker(0, 1, 0, 0, false), 0,
          if c.rate > 0.0 then NewBucket(c.rate, 1, 0) else NewBucket(1.0, 1, 0),
          NewBucket(1.0, 1, 0), 0, 0, false, 0, 0.0, [], seq(c.targets, _ => 0), 0, [], [], [], 0)
  }

  /** Whom a batch goes to: all targets, but only the first in the cloud-event steady loop. */
  function BatchSize(c: Cfg, section: Section): nat {
    if c.kind == CloudEvent && section == Steady then 1 else c.targets
  }

  function Burst(rate: real): nat
    requires rate >= 0.0
  {
    if rate.Floor < 1 then 1 else rate.Floor
  }

  // ---------- actions ----------

  /** What a select or a wait does when several things are ready. */
  datatype Choice = Go | TakeDone | TakeTick | TakeTimer

  datatype Action =
    | Pass(dt: nat)                        // time goes on
    | Fire                                 // the ticker sends
    | Cancel                               // someone calls Stop
    | Work(w: nat, answer: Answer)         // a worker makes its next step
    | Main(choice: Choice)                 // the scheduling goroutine makes its next step

  function Logged(s: State): State { s.(log := s.log + [Event(ProgressLine, None)]) }

  /** rampUp's setup of one step. */
  function BeginRampStep(c: Cfg, s: State, i: nat): State
    requires c.rate > 1.0
  {
    var rate := s.currentRate + (c.rate - 1.0) / 15.0;
    if rate <= 0.0 then s
    else
      s.(currentRate := rate, local := NewBucket(rate, Burst(rate), s.now),
         ticker := NewTicker(s.now, Interval(rate)), stepEnd := s.now + NANOS, at := Loop,
         rampSteps := s.rampSteps + [RampStep(s.now, 0, s.now)])
  }

  /** The limiter of the section, and the state with it replaced. */
  function BucketOf(s: State): Bucket { if s.section.Ramp? then s.local else s.limiter }

  function WithBucket(s: State, b: Bucket): State {
    if s.section.Ramp? then s.(local := b) else s.(limiter := b)
  }

  /** Wait has returned: the launches of a batch begin. */
  function OpenBatch(s: State): State {
    match s.section
    case Steady => s.(at := Launch(0), batches := s.batches + [Batch(s.recv, ZeroTimeOr(s), s.now, s.now, |s.workers|)])
    case Throughput => s.(at := Launch(0), floods := s.floods + 1)
    case Ramp(_) =>
      if s.rampSteps == [] then s.(at := Launch(0))
      else
        var n := |s.rampSteps| - 1;
        var r := s.rampSteps[n];
        s.(at := Launch(0), rampSteps := s.rampSteps[n := r.(batches := r.batches + 1, last := s.recv)])
  }

  function ZeroTimeOr(s: State): real {
    if Limiter.Sound(s.limiter) then ZeroTime(s.limiter) else 0.0
  }

  function LaunchOne(s: State, k: nat): State {
    var w := Worker(s.section, k, s.now, Requesting);
    var launched := s.(wg := s.wg + 1, workers := s.workers + [w], at := Launch(k + 1));
    if s.section == Steady && s.batches != [] then
      var n := |s.batches| - 1;
      launched.(batches := s.batches[n := s.batches[n].(last := s.now)])
    else launched
  }

  /** Wait has failed: run returns its error, logged in the steady loop only. */
  function LimiterError(s: State): State {
    (if s.section.Ramp? then s else Logged(s)).(at := Joining(true))
  }

  predicate DeadlinePassed(c: Cfg, s: State) { c.duration > 0 && s.now - s.startTime > c.duration }

  function MainStep(c: Cfg, s: State, choice: Choice): Option<State>
    requires Runnable(c)
  {
    match s.at
    case Begin =>
      if choice != Go then None
      else if c.kind == Http && c.rate == 0.0 then
        Some(Logged(s).(section := Throughput, startTime := s.now, at := Loop))
      else if c.rate > 1.0 then Some(Logged(s).(section := Ramp(0), currentRate := 1.0, at := RampCheck))
      else Some(Logged(s).(at := SteadyTicker))
    case RampCheck =>
      if choice != Go || !s.section.Ramp? || c.rate <= 1.0 then None
      else if s.section.step >= STEPS then Some(Logged(s).(section := Steady, at := SteadyTicker))
      else if s.cancelled then Some(s.(section := Steady, at := SteadyTicker))
      else Some(BeginRampStep(c, s, s.section.step))
    case Loop =>
      (match choice
       case TakeDone =>
         if !s.cancelled then None
         else if s.section.Ramp? then Some(s.(section := Steady, at := SteadyTicker))
         else Some(Logged(s).(at := Joining(false)))
       case TakeTimer =>
         if !s.section.Ramp? || s.now < s.stepEnd then None
         else Some(Logged(s).(section := Ramp(s.section.step + 1), at := RampCheck))
       case TakeTick =>
         if s.section == Throughput || !s.ticker.full then None
         else
           var t := s.(ticker := s.ticker.(full := false, received := s.ticker.received + 1), recv := s.now);
           if c.kind == CloudEvent && s.section == Steady then
             Some(t.(at := Launch(0), batches := s.batches + [Batch(s.now, s.now as real, s.now, s.now, |s.workers|)]))
           else Some(t.(at := WaitStart))
       case Go => if s.section == Throughput && !s.cancelled then Some(OpenBatch(s)) else None)
    case WaitStart =>
      if choice != Go then None
      else if s.cancelled then Some(LimiterError(s))
      else
        var b := BucketOf(s);
        if !Limiter.Sound(b) || s.now < b.last then None
        else
          var (b', act) := Reserve(b, s.now);
          Some(WithBucket(s, b').(at := Waiting(act, act > s.now)))
    case Waiting(act, delayed) =>
      (match choice
       case Go => if s.now >= act then Some(OpenBatch(s)) else None
       case TakeDone => if s.cancelled && delayed then Some(LimiterError(s)) else None
       case _ => None)
    case Launch(k) =>
      if choice != Go then None
      else if k < BatchSize(c, s.section) then Some(LaunchOne(s, k))
      else Some(s.(at := if s.section.Ramp? then Loop else Check))
    case Check =>
      if choice != Go then None
      else if DeadlinePassed(c, s) then Some(Logged(s).(cancelled := true, at := Stopping))
      else Some(s.(at := Loop))
    case SteadyTicker =>
      if choice != Go || c.rate <= 0.0 then None
      else Some(s.(ticker := NewTicker(s.now, Interval(c.rate)), at := SteadyClock))
    case SteadyClock => if choice != Go then None else Some(s.(startTime := s.now, at := Loop))
    case Stopping => if choice == Go && s.wg == 0 then Some(s.(at := Joining(false))) else None
    case Joining(error) => if choice == Go && s.wg == 0 then Some(s.(at := Finished(error))) else None
    case Finished(_) => None
  }

  function WorkerStep(c: Cfg, s: State, w: nat, answer: Answer): Option<State> {
    if w >= |s.workers| || s.workers[w].work.Gone? then None
    else
      var worker := s.workers[w];
      var (work, line) := WorkStep(c.kind, worker.section, worker.work, s.requestCount, answer);
      Some(s.(
        workers := s.workers[w := worker.(work := work)],
        calls := if worker.work.Requesting? && worker.target < |s.calls|
                 then s.calls[worker.target := s.calls[worker.target] + 1] else s.calls,
        requestCount := if worker.work.Storing? then worker.work.read + 1 else s.requestCount,
        wg := if worker.work.Leaving? then s.wg - 1 else s.wg,
        log := if line.Some? then s.log + [Event(line.value, Some(w))] else s.log))
  }

  /** One step of the system; nothing when the action is not possible. */
  function Step(c: Cfg, s: State, a: Action): Option<State>
    requires Runnable(c)
  {
    match a
    case Pass(dt) => Some(s.(now := s.now + dt))
    case Fire => if Due(s.ticker, s.now) then Some(s.(ticker := FireTicker(s.ticker, s.now))) else None
    case Cancel => Some(s.(cancelled := true))
    case Work(w, answer) => WorkerStep(c, s, w, answer)
    case Main(choice) => MainStep(c, s, choice)
  }

  function Run(c: Cfg, s: State, acts: seq<Action>): Option<State>
    requires Runnable(c)
    decreases |acts|
  {
    if acts == [] then Some(s)
    else
      match Step(c, s, acts[0])
      case None => None
      case Some(s') => Run(c, s', acts[1..])
  }

  /** A state some interleaving leads to. */
  ghost predicate Reachable(c: Cfg, s: State)
    requires Runnable(c)
  {
    exists acts :: Run(c, Init(c), acts) == Some(s)
  }

  lemma {:induction false} RunAppend(c: Cfg, s: State, xs: seq<Action>, ys: seq<Action>)
    requires Runnable(c)
    ensures Run(c, s, xs + ys) == if Run(c, s, xs).None? then None else Run(c, Run(c, s, xs).value, ys)
    decreases |xs|
  {
    hide Step;
    if xs == [] {
      assert xs + ys == ys;
    } else {
      assert (xs + ys)[1..] == xs[1..] + ys;
      if Step(c, s, xs[0]).Some? {
        RunAppend(c, Step(c, s, xs[0]).value, xs[1..], ys);
      }
    }
  }

  // ---------- MainStep case by case ----------

  /** The state after the cloud-event generator has received a tick. */
  function Unlimited(s: State): State {
    s.(ticker := s.ticker.(full := false, received := s.ticker.received + 1), recv := s.now, at := Launch(0),
       batches := s.batches + [Batch(s.now, s.now as real, s.now, s.now, |s.workers|)])
  }

  lemma AtBegin(c: Cfg, s: State, choice: Choice)
    requires Runnable(c) && s.at == Begin
    ensures MainStep(c, s, choice) ==
            if choice != Go then None
            else if c.kind == Http && c.rate == 0.0 then Some(Logged(s).(section := Throughput, startTime := s.now, at := Loop))
            else if c.rate > 1.0 then Some(Logged(s).(section := Ramp(0), currentRate := 1.0, at := RampCheck))
            else Some(Logged(s).(at := SteadyTicker))
  {
    hide Runnable;
  }

  lemma AtRampCheck(c: Cfg, s: State, choice: Choice)
    requires Runnable(c) && c.rate > 1.0 && s.at == RampCheck && s.section.Ramp?
    ensures MainStep(c, s, choice) ==
            if choice != Go then None
            else if s.section.step >= STEPS then Some(Logged(s).(section := Steady, at := SteadyTicker))
            else if s.cancelled then Some(s.(section := Steady, at := SteadyTicker))
            else Some(BeginRampStep(c, s, s.section.step))
  {
    hide BeginRampStep, Runnable;
  }

  lemma AtRampLoop(c: Cfg, s: State, choice: Choice)
    requires Runnable(c) && s.at == Loop && s.section.Ramp?
    ensures MainStep(c, s, choice) ==
            if choice == TakeDone && s.cancelled then Some(s.(section := Steady, at := SteadyTicker))
            else if choice == TakeTimer && s.now >= s.stepEnd then
              Some(Logged(s).(section := Ramp(s.section.step + 1), at := RampCheck))
            else if choice == TakeTick && s.ticker.full then
              Some(s.(ticker := s.ticker.(full := false, received := s.ticker.received + 1), recv := s.now, at := WaitStart))
            else None
  {
    hide Runnable, OpenBatch;
  }

  lemma AtSteadyLoop(c: Cfg, s: State, choice: Choice)
    requires Runnable(c) && s.at == Loop && s.section == Steady
    ensures MainStep(c, s, choice) ==
            if choice == TakeDone && s.cancelled then Some(Logged(s).(at := Joining(false)))
            else if choice == TakeTick && s.ticker.full then
              Some(if c.kind == CloudEvent then Unlimited(s)
                   else s.(ticker := s.ticker.(full := false, received := s.ticker.received + 1), recv := s.now, at := WaitStart))
            else None
  {
    hide Runnable, OpenBatch;
  }

  lemma AtFloodLoop(c: Cfg, s: State, choice: Choice)
    requires Runnable(c) && s.at == Loop && s.section == Throughput
    ensures MainStep(c, s, choice) ==
            if choice == TakeDone && s.cancelled then Some(Logged(s).(at := Joining(false)))
            else if choice == Go && !s.cancelled then Some(OpenBatch(s))
            else None
  {
    hide Runnable, OpenBatch;
  }

  lemma AtWaitStart(c: Cfg, s: State, choice: Choice)
    requires Runnable(c) && s.at == WaitStart && Limiter.Sound(BucketOf(s)) && BucketOf(s).last <= s.now
    ensures MainStep(c, s, choice) ==
            if choice != Go then None
            else if s.cancelled then Some(LimiterError(s))
            else var (b, act) := Reserve(BucketOf(s), s.now); Some(WithBucket(s, b).(at := Waiting(act, act > s.now)))
  {
    hide LimiterError, WithBucket, BucketOf, Reserve, Limiter.Sound, Runnable;
  }

  lemma AtWaiting(c: Cfg, s: State, choice: Choice)
    requires Runnable(c) && s.at.Waiting?
    ensures MainStep(c, s, choice) ==
            if choice == Go && s.now >= s.at.act then Some(OpenBatch(s))
            else if choice == TakeDone && s.cancelled && s.at.delayed then Some(LimiterError(s))
            else None
  {
    hide LimiterError, OpenBatch, Runnable;
  }

  lemma AtLaunch(c: Cfg, s: State, choice: Choice)
    requires Runnable(c) && s.at.Launch?
    ensures MainStep(c, s, choice) ==
            if choice != Go then None
            else if s.at.k < BatchSize(c, s.section) then Some(LaunchOne(s, s.at.k))
            else Some(s.(at := if s.section.Ramp? then Loop else Check))
  {
    hide LaunchOne, BatchSize, Runnable;
  }

  lemma AtCheck(c: Cfg, s: State, choice: Choice)
    requires Runnable(c) && s.at == Check
    ensures MainStep(c, s, choice) ==
            if choice != Go then None
            else if c.duration > 0 && s.now - s.startTime > c.duration then Some(Logged(s).(cancelled := true, at := Stopping))
            else Some(s.(at := Loop))
  {
  }

  lemma AtSteadyTicker(c: Cfg, s: State, choice: Choice)
    requires Runnable(c) && s.at == SteadyTicker && c.rate > 0.0
    ensures MainStep(c, s, choice) ==
            if choice != Go then None else Some(s.(ticker := NewTicker(s.now, Interval(c.rate)), at := SteadyClock))
  {
    hide Interval, Runnable;
  }

  lemma AtSteadyClock(c: Cfg, s: State, choice: Choice)
    requires Runnable(c) && s.at == SteadyClock && s.section == Steady
    ensures MainStep(c, s, choice) ==
            if choice != Go then None else Some(s.(startTime := s.now, section := Steady, at := Loop))
  {
  }

  lemma AtStopping(c: Cfg, s: State, choice: Choice)
    requires Runnable(c) && s.at == Stopping
    ensures MainStep(c, s, choice) == if choice == Go && s.wg == 0 then Some(s.(at := Joining(false))) else None
  {
  }

  lemma AtJoining(c: Cfg, s: State, choice: Choice)
    requires Runnable(c) && s.at.Joining?
    ensures MainStep(c, s, choice) == if choice == Go && s.wg == 0 then Some(s.(at := Finished(s.at.error))) else None
  {
  }
}
