/** The goroutines' bodies as the source writes them, from the request to the deferred wg.Done, and
    the workers' steps of the transition system put end to end: the same records and outcomes. */
module Goroutines {
  import opened Options
  import opened Machine
  import opened Progress
  import opened Scenarios

  /** What a goroutine meets: the pool's answer, whether an error comes with metrics (Other), how
      reading the body ends, and the counter when it is read. */
  datatype Answers = Answers(get: Answer, error: Answer, body: Answer, counter: nat)

  /** What it leaves: its outcome, its records in order, and what it writes to the counter. */
  datatype Trace = Trace(outcome: Outcome, lines: seq<Message>, stored: Option<nat>)

  function Met(work: Work, a: Answers): Answer {
    match work
    case Requesting => a.get
    case Failing => a.error
    case Reading => a.body
    case _ => Good
  }

  function StepOf(kind: Kind, section: Section, work: Work, a: Answers): (Work, Option<Message>)
    requires !work.Gone?
  {
    WorkStep(kind, section, work, a.counter, Met(work, a))
  }

  function Lines(line: Option<Message>): seq<Message> { if line.Some? then [line.value] else [] }

  /** A worker's steps from `work` until it leaves. */
  function Follow(kind: Kind, section: Section, work: Work, a: Answers): Trace
    requires !work.Gone?
    decreases Distance(work)
  {
    if work.Leaving? then Trace(work.outcome, [], None)
    else
      var (next, line) := StepOf(kind, section, work, a);
      Closer(kind, section, work, a.counter, Met(work, a));
      var rest := Follow(kind, section, next, a);
      Trace(rest.outcome, Lines(line) + rest.lines, if work.Storing? then Some(work.read + 1) else rest.stored)
  }

  // ---------- the bodies ----------

  /** A request of the HTTP generator's steady loop. */
  method SteadyBody(a: Answers) returns (t: Trace)
    ensures t == Follow(Http, Steady, Requesting, a)
    ensures t.outcome == Succeeded <==> a.get != Bad && a.body == Good
    ensures t.outcome == Succeeded ==> t.lines == [SuccessLine] && t.stored == Some(a.counter + 1)
    ensures t.outcome != Succeeded ==>
              t.outcome == Failed && t.stored == None && t.lines == [if a.get == Bad then ErrorLine else BodyErrorLine]
  {
    Unfold(Http, Steady, a);
    hide Follow;
    var lines := [];
    if a.get == Bad {
      lines := lines + [ErrorLine];
      return Trace(Failed, lines, None);
    }
    if a.body != Good {
      lines := lines + [BodyErrorLine];
      return Trace(Failed, lines, None);
    }
    lines := lines + [SuccessLine];
    var requestCount := a.counter;
    requestCount := requestCount + 1;
    t := Trace(Succeeded, lines, Some(requestCount));
  }

  /** sendRequest: its records, and whether it returns an error. */
  method SendRequest(a: Answers) returns (err: bool, lines: seq<Message>)
    ensures err <==> a.get == Bad || a.body != Good
    ensures lines == [if a.get == Bad then ErrorLine else if a.body != Good then BodyErrorLine else SuccessLine]
  {
    lines := [];
    if a.get == Bad {
      lines := lines + [ErrorLine];
      return true, lines;
    }
    if a.body != Good {
      lines := lines + [BodyErrorLine];
      return true, lines;
    }
    lines := lines + [SuccessLine];
    err := false;
  }

  /** A request of the ramp-up, of either generator. */
  method RampBody(kind: Kind, step: nat, a: Answers) returns (t: Trace)
    ensures t == Follow(kind, Ramp(step), Requesting, a)
    ensures t.stored == None && (t.outcome == Succeeded <==> a.get != Bad && a.body == Good)
    ensures t.outcome == Succeeded ==> t.lines == [SuccessLine]
    ensures t.outcome != Succeeded ==>
              t.outcome == Failed && t.lines == [if a.get == Bad then ErrorLine else BodyErrorLine, ComplaintLine]
  {
    Unfold(kind, Ramp(step), a);
    hide Follow;
    var err, lines := SendRequest(a);
    if err {
      lines := lines + [ComplaintLine];
    }
    t := Trace(if err then Failed else Succeeded, lines, None);
  }

  /** A request of the maximum-throughput loop: a body error is logged and no more. */
  method FloodBody(a: Answers) returns (t: Trace)
    ensures t == Follow(Http, Throughput, Requesting, a)
    ensures t.stored == None
    ensures a.get == Good ==> t.outcome == Succeeded && t.lines == (if a.body == Good then [] else [BodyErrorLine]) + [SuccessLine]
    ensures a.get == Other ==> t.outcome == Rejected && t.lines == [FailedLine]
    ensures a.get == Bad ==> t.outcome == Failed && t.lines == [ErrorLine]
  {
    Unfold(Http, Throughput, a);
    hide Follow;
    var lines := [];
    if a.get == Bad {
      lines := lines + [ErrorLine];
      return Trace(Failed, lines, None);
    }
    if a.get == Other {
      lines := lines + [FailedLine];
      return Trace(Rejected, lines, None);
    }
    if a.body != Good {
      lines := lines + [BodyErrorLine];
    }
    lines := lines + [SuccessLine];
    t := Trace(Succeeded, lines, None);
  }

  /** An event of the cloud-event generator's steady loop. */
  method EventBody(a: Answers) returns (t: Trace)
    ensures t == Follow(CloudEvent, Steady, Requesting, a)
    ensures t.stored == None
    ensures a.get != Bad ==> t.outcome == Succeeded && t.lines == (if a.body == Good then [] else [BodyErrorLine]) + [SuccessLine]
    ensures a.get == Bad && a.error == Other ==> t.outcome == Rejected && t.lines == [FailedLine]
    ensures a.get == Bad && a.error != Other ==> t.outcome == Failed && t.lines == [ErrorLine]
  {
    Unfold(CloudEvent, Steady, a);
    hide Follow;
    var lines := [];
    if a.get == Bad {
      if a.error != Other {
        lines := lines + [ErrorLine];
        return Trace(Failed, lines, None);
      }
      lines := lines + [FailedLine];
      return Trace(Rejected, lines, None);
    }
    if a.body != Good {
      lines := lines + [BodyErrorLine];
    }
    lines := lines + [SuccessLine];
    t := Trace(Succeeded, lines, None);
  }

  // ---------- the same records ----------

  lemma FollowStep(kind: Kind, section: Section, work: Work, a: Answers)
    requires !work.Gone? && !work.Leaving?
    ensures var (next, line) := StepOf(kind, section, work, a);
            && !next.Gone?
            && var rest := Follow(kind, section, next, a);
               Follow(kind, section, work, a) ==
               Trace(rest.outcome, Lines(line) + rest.lines, if work.Storing? then Some(work.read + 1) else rest.stored)
  {
    Closer(kind, section, work, a.counter, Met(work, a));
    hide Distance;
  }

  lemma LastStep(kind: Kind, section: Section, o: Outcome, a: Answers)
    ensures Follow(kind, section, Leaving(o), a) == Trace(o, [], None)
  {
  }

  lemma FromReporting(kind: Kind, section: Section, a: Answers)
    ensures Follow(kind, section, Reporting, a) ==
            Trace(Succeeded, [SuccessLine], if kind == Http && section == Steady then Some(a.counter + 1) else None)
  {
    LastStep(kind, section, Succeeded, a);
    hide Follow;
    FollowStep(kind, section, Reporting, a);
    FollowStep(kind, section, Counting, a);
    FollowStep(kind, section, Storing(a.counter), a);
  }

  lemma FromComplaining(kind: Kind, section: Section, a: Answers)
    ensures Follow(kind, section, Complaining, a) == Trace(Failed, [ComplaintLine], None)
  {
    LastStep(kind, section, Failed, a);
    hide Follow;
    FollowStep(kind, section, Complaining, a);
  }

  lemma FromFailing(kind: Kind, section: Section, a: Answers)
    ensures Follow(kind, section, Failing, a) ==
            if section.Ramp? then Trace(Failed, [ErrorLine, ComplaintLine], None)
            else if kind == CloudEvent && section == Steady && a.error == Other then Trace(Rejected, [FailedLine], None)
            else Trace(Failed, [ErrorLine], None)
  {
    LastStep(kind, section, Failed, a);
    LastStep(kind, section, Rejected, a);
    FromComplaining(kind, section, a);
    hide Follow;
    FollowStep(kind, section, Failing, a);
  }

  lemma FromReading(kind: Kind, section: Section, a: Answers)
    ensures Follow(kind, section, Reading, a) ==
            if a.body == Good then
              Trace(Succeeded, [SuccessLine], if kind == Http && section == Steady then Some(a.counter + 1) else None)
            else if section.Ramp? then Trace(Failed, [BodyErrorLine, ComplaintLine], None)
            else if section == Throughput || kind == CloudEvent then
              var rest := Follow(kind, section, Reporting, a); Trace(Succeeded, [BodyErrorLine, SuccessLine], rest.stored)
            else Trace(Failed, [BodyErrorLine], None)
  {
    LastStep(kind, section, Failed, a);
    FromComplaining(kind, section, a);
    FromReporting(kind, section, a);
    hide Follow;
    FollowStep(kind, section, Reading, a);
    FollowStep(kind, section, ReadFailed, a);
  }

  /** The steps put end to end, by what the goroutine meets. */
  lemma Unfold(kind: Kind, section: Section, a: Answers)
    ensures Follow(kind, section, Requesting, a) ==
            if a.get == Bad then
              if section.Ramp? then Trace(Failed, [ErrorLine, ComplaintLine], None)
              else if kind == CloudEvent && section == Steady && a.error == Other then Trace(Rejected, [FailedLine], None)
              else Trace(Failed, [ErrorLine], None)
            else if a.get == Other && section == Throughput then Trace(Rejected, [FailedLine], None)
            else if a.body == Good then
              Trace(Succeeded, [SuccessLine], if kind == Http && section == Steady then Some(a.counter + 1) else None)
            else if section.Ramp? then Trace(Failed, [BodyErrorLine, ComplaintLine], None)
            else if section == Throughput || kind == CloudEvent then Trace(Succeeded, [BodyErrorLine, SuccessLine], None)
            else Trace(Failed, [BodyErrorLine], None)
  {
    LastStep(kind, section, Rejected, a);
    FromFailing(kind, section, a);
    FromReading(kind, section, a);
    FromReporting(kind, section, a);
    hide Follow;
    FollowStep(kind, section, Refused, a);
    FollowStep(kind, section, Requesting, a);
  }

  // ---------- in a run ----------

  function Messages(log: seq<Event>): seq<Message> {
    if log == [] then [] else Messages(log[..|log| - 1]) + [log[|log| - 1].message]
  }

  lemma MessagesAppend(log: seq<Event>, e: Event)
    ensures Messages(log + [e]) == Messages(log) + [e.message]
  {
    assert (log + [e])[..|log|] == log;
  }

  lemma StepAlone(c: Cfg, s: State, w: nat, a: Answers)
    requires Runnable(c) && w < |s.workers| && !s.workers[w].work.Gone? && a.counter == s.requestCount
    ensures var worker := s.workers[w];
            var (work, line) := StepOf(c.kind, worker.section, worker.work, a);
            var r := Step(c, s, Work(w, Met(worker.work, a)));
            && r.Some? && r.value.workers == s.workers[w := worker.(work := work)]
            && Messages(r.value.log) == Messages(s.log) + Lines(line)
            && r.value.requestCount == if worker.work.Storing? then worker.work.read + 1 else s.requestCount
  {
    var worker := s.workers[w];
    var line := StepOf(c.kind, worker.section, worker.work, a).1;
    if line.Some? {
      MessagesAppend(s.log, Event(line.value, Some(w)));
    }
    hide WorkStep, Messages, MainStep, Runnable;
  }

  /** From `s` to `s'` worker w has left as its trace says. */
  predicate Left(s: State, w: nat, t: Trace, s': State) {
    && w < |s'.workers| == |s.workers|
    && s'.workers[w].work == Gone(t.outcome) && Messages(s'.log) == Messages(s.log) + t.lines
    && s'.requestCount == if t.stored.Some? then t.stored.value else s.requestCount
  }

  /** The rest of the body does not look at the counter again once it has been written. */
  lemma RestOf(kind: Kind, section: Section, work: Work, a: Answers, counter: nat)
    requires !work.Gone? && !work.Leaving?
    requires counter == if work.Storing? then work.read + 1 else a.counter
    ensures var next := StepOf(kind, section, work, a).0;
            && !next.Gone? && (work.Storing? ==> next == Leaving(Succeeded))
            && Follow(kind, section, next, a.(counter := counter)) == Follow(kind, section, next, a)
            && (work.Storing? ==> Follow(kind, section, next, a).stored == None)
  {
    FollowStep(kind, section, work, a);
    LastStep(kind, section, Succeeded, a);
    LastStep(kind, section, Succeeded, a.(counter := counter));
    hide Follow;
    assert !work.Storing? ==> a.(counter := counter) == a;
  }

  lemma LeftLater(kind: Kind, section: Section, work: Work, a: Answers, s: State, next: State, w: nat, s': State)
    requires !work.Gone? && !work.Leaving? && a.counter == s.requestCount && |next.workers| == |s.workers|
    requires Messages(next.log) == Messages(s.log) + Lines(StepOf(kind, section, work, a).1)
    requires next.requestCount == if work.Storing? then work.read + 1 else s.requestCount
    requires !StepOf(kind, section, work, a).0.Gone?
    requires Left(next, w, Follow(kind, section, StepOf(kind, section, work, a).0, a.(counter := next.requestCount)), s')
    ensures Left(s, w, Follow(kind, section, work, a), s')
  {
    FollowStep(kind, section, work, a);
    RestOf(kind, section, work, a, next.requestCount);
    var (after, line) := StepOf(kind, section, work, a);
    hide StepOf, Follow, Messages, Lines;
    var rest := Follow(kind, section, after, a);
    Associate(Messages(s.log), Lines(line), rest.lines);
  }

  lemma Associate(x: seq<Message>, y: seq<Message>, z: seq<Message>)
    ensures (x + y) + z == x + (y + z)
  {
  }

  /** A worker that runs alone from any of its steps writes the records of its body's rest and ends
      with its outcome. */
  lemma {:induction false} RunsAlone(c: Cfg, s: State, w: nat, a: Answers) returns (acts: seq<Action>, s': State)
    requires Runnable(c) && w < |s.workers| && !s.workers[w].work.Gone? && a.counter == s.requestCount
    ensures Run(c, s, acts) == Some(s')
    ensures Left(s, w, Follow(c.kind, s.workers[w].section, s.workers[w].work, a), s')
    decreases Distance(s.workers[w].work)
  {
    var kind, worker := c.kind, s.workers[w];
    var act := Work(w, Met(worker.work, a));
    StepAlone(c, s, w, a);
    Closer(kind, worker.section, worker.work, a.counter, Met(worker.work, a));
    var next := Step(c, s, act).value;
    hide Step, Distance, Messages, Runnable;
    NoSteps(c, s);
    RunThen(c, s, [], s, act, next);
    hide Run, Follow;
    if worker.work.Leaving? {
      LastStep(kind, worker.section, worker.work.outcome, a);
      acts, s' := [] + [act], next;
    } else {
      FollowStep(kind, worker.section, worker.work, a);
      hide WorkStep, Lines, Left;
      var more, end := RunsAlone(c, next, w, a.(counter := next.requestCount));
      RunJoin(c, s, [] + [act], next, more, end);
      LeftLater(kind, worker.section, worker.work, a, s, next, w, end);
      acts, s' := [] + [act] + more, end;
    }
  }
}
