/** The log file of a run written out: every event of the machine rendered as the record its source
    line writes, and the rows the parser makes of the whole, one for each answered request and each
    with that request's own values. */
module Transcript {
  import opened Options
  import opened Machine
  import opened Accounting
  import opened Progress
  import opened Pipeline
  import opened Text
  import opened Slog
  import opened Instants
  import opened Durations
  import opened LogFile
  import opened Records
  import Lines
  import ConfigLine

  // ---------- which worker wrote what ----------

  /** Its Success or its Failed record is written. */
  predicate Answered(w: Work) { w.Counting? || w.Storing? || Accounting.Settled(w, Succeeded) || Accounting.Settled(w, Rejected) }

  predicate Agrees(m: Message, w: Work) {
    && (m == SuccessLine ==> w.Counting? || w.Storing? || Accounting.Settled(w, Succeeded))
    && (m == FailedLine ==> Accounting.Settled(w, Rejected))
  }

  /** An event of the scheduler, or of a worker that has come as far. */
  predicate Known(ws: seq<Worker>, e: Event) {
    e.message == ProgressLine
    || (e.worker.Some? && e.worker.value < |ws| && Agrees(e.message, ws[e.worker.value].work))
  }

  predicate TellsOf(log: seq<Event>, k: int, w: nat) {
    0 <= k < |log| && Told(log[k].message) && log[k].worker == Some(w)
  }

  /** Every answered worker has written exactly one Success or Failed record. */
  ghost predicate Signed(s: State) {
    && (forall e | e in s.log :: Known(s.workers, e))
    && (forall j: int, k: int, w: nat | j < k && TellsOf(s.log, j, w) :: !TellsOf(s.log, k, w))
    && (forall k: int, w: nat | TellsOf(s.log, k, w) :: w < |s.workers| && Answered(s.workers[w].work))
    && (forall w: nat | w < |s.workers| && Answered(s.workers[w].work) :: exists k :: TellsOf(s.log, k, w))
  }

  lemma MainLogs(c: Cfg, s: State, choice: Choice, s': State)
    requires Runnable(c) && MainStep(c, s, choice) == Some(s')
    ensures s'.log == s.log || s'.log == s.log + [Event(ProgressLine, None)]
  {
    hide Runnable, BatchSize, Interval, DeadlinePassed, ZeroTimeOr, Ladder, Burst, NewTicker;
  }

  /** The scheduler's steps: perhaps a progress record, perhaps a new worker. */
  lemma QuietSigned(s: State, s': State)
    requires Signed(s) && (s'.log == s.log || s'.log == s.log + [Event(ProgressLine, None)]) && Extends(s, s')
    ensures Signed(s')
  {
    assert forall i | 0 <= i < |s.workers| :: s'.workers[i] == s.workers[i];
    assert forall k: int, w: nat :: TellsOf(s'.log, k, w) == TellsOf(s.log, k, w) by {
      forall k: int, w: nat ensures TellsOf(s'.log, k, w) == TellsOf(s.log, k, w) {
      }
    }
    hide TellsOf, Answered, Agrees;
    assert forall e | e in s'.log :: e in s.log || e == Event(ProgressLine, None);
    assert forall w: nat | |s.workers| <= w < |s'.workers| :: s'.workers[w].work == Requesting;
    assert !Answered(Requesting) by { NotYet(); }
  }

  lemma NotYet()
    ensures !Answered(Requesting)
  {
  }

  /** What one step of a worker does to that. */
  lemma WorkSigns(kind: Kind, section: Section, work: Work, count: nat, answer: Answer)
    requires !work.Gone?
    ensures var (next, line) := WorkStep(kind, section, work, count, answer);
            && (line.Some? ==> line.value != ProgressLine && Agrees(line.value, next))
            && (line.Some? && Told(line.value) ==> !Answered(work) && Answered(next))
            && (line.None? || !Told(line.value) ==> Answered(next) == Answered(work))
            && (forall m :: Agrees(m, work) ==> Agrees(m, next))
  {
  }

  lemma WorkSigned(c: Cfg, s: State, w: nat, answer: Answer, s': State)
    requires Signed(s) && WorkerStep(c, s, w, answer) == Some(s')
    ensures Signed(s')
  {
    var worker := s.workers[w];
    var (work, line) := WorkStep(c.kind, worker.section, worker.work, s.requestCount, answer);
    WorkSigns(c.kind, worker.section, worker.work, s.requestCount, answer);
    hide WorkStep, Answered, Agrees;
    forall e | e in s'.log ensures Known(s'.workers, e) {
      if e in s.log {
        assert Known(s.workers, e);
      }
    }
    if line.Some? && Told(line.value) {
      NewTeller(s, w, line.value, s');
    } else {
      SameTellers(s, w, s');
    }
  }

  lemma SameTellers(s: State, w: nat, s': State)
    requires Signed(s) && w < |s.workers| && s.log <= s'.log && forall k | |s.log| <= k < |s'.log| :: !Told(s'.log[k].message)
    requires |s'.workers| == |s.workers| && forall i | 0 <= i < |s.workers| && i != w :: s'.workers[i] == s.workers[i]
    requires Answered(s'.workers[w].work) == Answered(s.workers[w].work)
    requires forall e | e in s'.log :: Known(s'.workers, e)
    ensures Signed(s')
  {
    hide Answered, Known, Told;
    assert forall k: int, v: nat :: TellsOf(s'.log, k, v) == TellsOf(s.log, k, v);
    hide TellsOf;
  }

  lemma NewTeller(s: State, w: nat, m: Message, s': State)
    requires Signed(s) && w < |s.workers| && Told(m) && s'.log == s.log + [Event(m, Some(w))]
    requires |s'.workers| == |s.workers| && forall i | 0 <= i < |s.workers| && i != w :: s'.workers[i] == s.workers[i]
    requires !Answered(s.workers[w].work) && Answered(s'.workers[w].work)
    requires forall e | e in s'.log :: Known(s'.workers, e)
    ensures Signed(s')
  {
    hide Answered, Known, Told;
    var n := |s.log|;
    assert forall k: int, v: nat | k != n :: TellsOf(s'.log, k, v) == TellsOf(s.log, k, v);
    assert forall v: nat :: TellsOf(s'.log, n, v) <==> v == w;
    assert forall k :: !TellsOf(s.log, k, w);
    assert forall k: int, v: nat | TellsOf(s'.log, k, v) :: k <= n;
    hide TellsOf;
    forall v: nat | v < |s'.workers| && Answered(s'.workers[v].work) ensures exists k :: TellsOf(s'.log, k, v) {
      if v == w {
        assert TellsOf(s'.log, n, w);
      } else {
        var k :| TellsOf(s.log, k, v);
        assert TellsOf(s'.log, k, v);
      }
    }
  }

  lemma StepSigned(c: Cfg, s: State, a: Action, s': State)
    requires Runnable(c) && Signed(s) && Step(c, s, a) == Some(s')
    ensures Signed(s')
  {
    hide MainStep, WorkerStep, Signed, Runnable;
    match a {
      case Main(choice) =>
        MainExtends(c, s, choice, s');
        MainLogs(c, s, choice, s');
        QuietSigned(s, s');
      case Work(w, answer) => WorkSigned(c, s, w, answer, s');
      case _ => QuietSigned(s, s');
    }
  }

  lemma {:induction false} RunSigned(c: Cfg, s: State, acts: seq<Action>, s': State)
    requires Runnable(c) && Signed(s) && Run(c, s, acts) == Some(s')
    ensures Signed(s')
    decreases |acts|
  {
    hide Step, Signed, Runnable;
    if acts != [] {
      var next := Step(c, s, acts[0]).value;
      StepSigned(c, s, acts[0], next);
      RunSigned(c, next, acts[1..], s');
    }
  }

  /** At every moment of every run: one record for each answered worker. */
  lemma ReachableSigned(c: Cfg, s: State)
    requires Runnable(c) && Reachable(c, s)
    ensures Signed(s)
  {
    var acts :| Run(c, Init(c), acts) == Some(s);
    assert Signed(Init(c));
    hide Signed, Run;
    RunSigned(c, Init(c), acts, s);
  }

  /** The places of the Success and Failed records in the log. */
  function Places(log: seq<Event>): seq<nat> {
    if log == [] then []
    else Places(log[..|log| - 1]) + if Told(log[|log| - 1].message) then [|log| - 1] else []
  }

  lemma {:induction false} PlacesIn(log: seq<Event>)
    ensures forall k: nat :: k in Places(log) <==> k < |log| && Told(log[k].message)
  {
    hide Told;
    if log != [] {
      var n := |log| - 1;
      PlacesIn(log[..n]);
      assert forall k: nat | k < n :: log[..n][k] == log[k];
    }
  }

  lemma {:induction false} PlacesRise(log: seq<Event>)
    ensures forall i, j | 0 <= i < j < |Places(log)| :: Places(log)[i] < Places(log)[j]
  {
    hide Told;
    if log != [] {
      var n := |log| - 1;
      PlacesIn(log[..n]);
      PlacesRise(log[..n]);
      var ps := Places(log[..n]);
      assert forall i | 0 <= i < |ps| :: ps[i] in ps;
    }
  }

  // ---------- the records ----------

  /** An instant, and the minutes the writer's zone is ahead. */
  datatype Moment = Moment(t: int, offset: int)

  /** What a request brings: the id of its event, the text of its error if it has one, and what was
      measured. */
  datatype Detail = Detail(id: string, error: string, metrics: Metrics)

  /** What a record of the scheduler says. */
  datatype Note = Note(level: string, message: string, attrs: Slog.Record)

  /** The texts of a run: an address a target, a detail a worker, a moment a record, and what each
      record of the scheduler says. */
  datatype Script = Script(urls: seq<string>, details: seq<Detail>, moments: seq<Moment>, notes: seq<Note>)

  /** A request's texts do not say what the filter looks for. */
  predicate Silent(d: Detail) {
    QuietText(StrText(d.id)) && QuietText(StrText(d.error)) && QuietText(StrText(d.metrics.body))
  }

  predicate Phrase(s: string) { PlainText(s) && ' ' in s && '=' !in s }

  predicate FairNote(n: Note) { Phrase(n.message) && n.level in {"INFO", "ERROR"} && NoteAttrs(n.attrs) }

  predicate Fits(c: Cfg, s: State, x: Script) {
    && |x.urls| == c.targets && (forall u | u in x.urls :: QuietText(StrText(u)))
    && |x.details| == |s.workers| && (forall d | d in x.details :: Silent(d))
    && |x.moments| == |s.log| && (forall m | m in x.moments :: Zoned(m.t, m.offset))
    && |x.notes| == |s.log| && (forall n | n in x.notes :: FairNote(n))
  }

  function MessageText(kind: Kind, section: Section, m: Message): string {
    if m == BodyErrorLine then "Failed to read response body"
    else if kind == CloudEvent && section == Steady then "Failed with no metrics"
    else "Request error"
  }

  function WorkerEntry(kind: Kind, section: Section, m: Message, time: string, url: string, d: Detail): LogFile.Entry {
    match m
    case SuccessLine => Entry(SuccessRecord(time, url, if kind == CloudEvent then Some(d.id) else None, d.metrics), "Success")
    case FailedLine =>
      Entry(if kind == CloudEvent then FailedEventRecord(time, url, d.id, d.error, d.metrics)
            else FailedRecord(time, url, d.metrics), "Failed")
    case ComplaintLine => Entry(ComplaintRecord(time, d.error), "Request failed")
    case _ =>
      var text := MessageText(kind, section, m);
      Entry(ErrorRecord(time, text, url, d.error), text)
  }

  /** The row of an answered request: its moment to the millisecond, its target's printed address,
      the printed id of an event, and what was measured in whole milliseconds. */
  function RowFor(kind: Kind, m: Message, d: Detail, url: string, at: Moment): Request {
    var failed := m == FailedLine;
    Request(at.t - at.t % MILLI, if kind == CloudEvent then StrText(d.id) else "",
            if kind == CloudEvent && failed then 0 else d.metrics.status,
            d.metrics.ttfb / MILLI, d.metrics.total / MILLI, !failed && CleanCold(StrText(d.metrics.body)) == "true",
            d.metrics.dns / MILLI, d.metrics.connect / MILLI, d.metrics.tls / MILLI,
            if kind == CloudEvent && failed then StrText(d.error) else "", StrText(url))
  }

  /** The texts a record of an answered request shows are given back whole by the tokeniser. An error
      is among them only for a failed event. */
  predicate Whole(kind: Kind, m: Message, d: Detail, url: string) {
    && Measured(d.metrics) && Recoverable(Str(url)) && (kind == CloudEvent ==> Recoverable(Str(d.id)))
    && (m == SuccessLine ==> Recoverable(Str(d.metrics.body)))
    && (kind == CloudEvent && m == FailedLine ==> Recoverable(Str(d.error)))
  }

  lemma Unquoted(s: string)
    requires !NeedsQuoting(s)
    ensures StrText(s) == s && QuietText(StrText(s))
  {
    assert '=' !in s by {
      assert ForcesQuotes('=');
    }
    assert "msg=" + "Success" == "msg=Success" && "msg=" + "Failed" == "msg=Failed";
    hide Contains;
    NoEquals(s, "Success");
    NoEquals(s, "Failed");
  }

  lemma MomentText(m: Moment)
    requires Zoned(m.t, m.offset)
    ensures var time := InstantText(m.t, m.offset);
            !NeedsQuoting(time) && QuietText(StrText(time)) && LooseInstant(time) == m.t - m.t % MILLI
  {
    hide InstantText, Zoned, NeedsQuoting, QuietText, StrText, ParseInstant, Timely;
    InstantRoundTrip(m.t, m.offset);
    InstantTimely(m.t, m.offset);
    TimelyPlain(InstantText(m.t, m.offset));
    Unquoted(InstantText(m.t, m.offset));
  }

  lemma ErrorPhrase(kind: Kind, section: Section, m: Message)
    ensures Phrase(MessageText(kind, section, m))
  {
    hide Phrase;
    BodyPhrase();
    PlainPhrase();
    EventPhrase();
  }

  lemma ByCharacter(s: string, k: nat)
    requires k < |s| && s[k] == ' '
    requires forall i | 0 <= i < |s| :: s[i] != QUOTE && s[i] != SLASH && 32 <= s[i] as int < 127 && s[i] != '='
    ensures Phrase(s)
  {
  }

  lemma BodyPhrase()
    ensures Phrase("Failed to read response body")
  {
    hide Phrase;
    ByCharacter("Failed to read response body", 6);
  }

  lemma PlainPhrase()
    ensures Phrase("Request error")
  {
    hide Phrase;
    ByCharacter("Request error", 7);
  }

  lemma EventPhrase()
    ensures Phrase("Failed with no metrics")
  {
    hide Phrase;
    ByCharacter("Failed with no metrics", 6);
  }

  // ---------- every record is counted as it should be ----------

  /** A record the filter treats as its event's message asks. */
  predicate Proper(entry: LogFile.Entry, m: Message) {
    && Emitted(entry.record, entry.message) && (Counted(entry.message) <==> Told(m))
    && (m == SuccessLine ==> entry.message == "Success") && (m == FailedLine ==> entry.message == "Failed")
  }

  lemma TwoWordsCounted()
    ensures Counted("Success") && Counted("Failed")
  {
  }

  lemma AnswerProper(kind: Kind, section: Section, m: Message, at: Moment, url: string, d: Detail)
    requires Zoned(at.t, at.offset) && QuietText(StrText(url)) && Silent(d) && Told(m)
    ensures Proper(WorkerEntry(kind, section, m, InstantText(at.t, at.offset), url, d), m)
  {
    MomentText(at);
    TwoWordsCounted();
    var time := InstantText(at.t, at.offset);
    hide InstantText, Zoned, NeedsQuoting, StrText, LooseInstant, QuietText, Emitted, Counted,
      SuccessRecord, FailedRecord, FailedEventRecord;
    if m == SuccessLine {
      SuccessEmitted(time, url, if kind == CloudEvent then Some(d.id) else None, d.metrics);
    } else if kind == CloudEvent {
      FailedEventEmitted(time, url, d.id, d.error, d.metrics);
    } else {
      FailedEmitted(time, url, d.metrics);
    }
  }

  lemma NotTold(entry: LogFile.Entry, m: Message)
    requires WellWritten(entry) && !Counted(entry.message) && !Told(m)
    ensures Proper(entry, m)
  {
    hide Emitted, AllRecoverable, Counted;
  }

  /** The record of an event that is no answer. */
  lemma OtherEntry(kind: Kind, section: Section, m: Message, time: string, url: string, d: Detail)
    requires !Told(m)
    ensures var text := MessageText(kind, section, m);
            WorkerEntry(kind, section, m, time, url, d)
            == if m == ComplaintLine then Entry(ComplaintRecord(time, d.error), "Request failed")
               else Entry(ErrorRecord(time, text, url, d.error), text)
  {
    hide ComplaintRecord, ErrorRecord, MessageText;
  }

  lemma OtherTexts(kind: Kind, section: Section, m: Message, at: Moment, url: string, d: Detail)
    requires Zoned(at.t, at.offset) && QuietText(StrText(url)) && Silent(d)
    ensures var time, text := InstantText(at.t, at.offset), MessageText(kind, section, m);
            && QuietTexts(time, url, None) && QuietText(StrText(time)) && QuietText(StrText(d.error))
            && QuietText(StrText(text)) && ' ' in text
  {
    MomentText(at);
    ErrorPhrase(kind, section, m);
    QuietPhrase(MessageText(kind, section, m));
    hide InstantText, Zoned, NeedsQuoting, StrText, LooseInstant, QuietText, PlainText, MessageText;
  }

  lemma OtherProper(kind: Kind, section: Section, m: Message, at: Moment, url: string, d: Detail)
    requires Zoned(at.t, at.offset) && QuietText(StrText(url)) && Silent(d) && !Told(m)
    ensures Proper(WorkerEntry(kind, section, m, InstantText(at.t, at.offset), url, d), m)
  {
    hide *;
    var time, text := InstantText(at.t, at.offset), MessageText(kind, section, m);
    OtherTexts(kind, section, m, at, url, d);
    ErrorEmitted(time, text, url, d.error);
    ComplaintEmitted(time, d.error);
    OtherEntry(kind, section, m, time, url, d);
    if m == ComplaintLine {
      NotTold(Entry(ComplaintRecord(time, d.error), "Request failed"), m);
    } else {
      NotTold(Entry(ErrorRecord(time, text, url, d.error), text), m);
    }
  }

  /** A worker's record is what its event and section say. */
  lemma WorkerProper(kind: Kind, section: Section, m: Message, at: Moment, url: string, d: Detail)
    requires Zoned(at.t, at.offset) && QuietText(StrText(url)) && Silent(d)
    ensures Proper(WorkerEntry(kind, section, m, InstantText(at.t, at.offset), url, d), m)
  {
    hide *;
    if Told(m) {
      AnswerProper(kind, section, m, at, url, d);
    } else {
      OtherProper(kind, section, m, at, url, d);
    }
  }

  lemma MomentTraceable(at: Moment)
    requires Zoned(at.t, at.offset)
    ensures var time := InstantText(at.t, at.offset);
            Recoverable(Str(time)) && LooseInstant(StrText(time)) == at.t - at.t % MILLI
  {
    MomentText(at);
    PlainRecoverable(InstantText(at.t, at.offset));
    hide InstantText, Zoned, NeedsQuoting, StrText, LooseInstant, QuietText, Recoverable;
  }

  lemma WholeParts(kind: Kind, m: Message, d: Detail, url: string, time: string)
    requires Whole(kind, m, d, url) && Recoverable(Str(time))
    ensures Measured(d.metrics) && Traceable(time, url, if kind == CloudEvent then Some(d.id) else None)
    ensures m == SuccessLine ==> Recoverable(Str(d.metrics.body))
    ensures kind == CloudEvent && m == FailedLine ==> Recoverable(Str(d.error))
  {
    hide Recoverable, Measured;
  }

  /** The record of an answer. */
  lemma AnswerEntry(kind: Kind, section: Section, m: Message, time: string, url: string, d: Detail)
    requires Told(m)
    ensures WorkerEntry(kind, section, m, time, url, d).record
         == if m == SuccessLine then SuccessRecord(time, url, if kind == CloudEvent then Some(d.id) else None, d.metrics)
            else if kind == CloudEvent then FailedEventRecord(time, url, d.id, d.error, d.metrics)
            else FailedRecord(time, url, d.metrics)
  {
    hide SuccessRecord, FailedRecord, FailedEventRecord, ErrorRecord, ComplaintRecord, MessageText;
  }

  /** The row of an answer. */
  lemma RowIs(kind: Kind, m: Message, d: Detail, url: string, at: Moment)
    requires Told(m)
    ensures var stamp, x := at.t - at.t % MILLI, d.metrics;
            RowFor(kind, m, d, url, at)
            == if m == SuccessLine then
                 Request(stamp, if kind == CloudEvent then StrText(d.id) else "", x.status, x.ttfb / MILLI, x.total / MILLI,
                         CleanCold(StrText(x.body)) == "true", x.dns / MILLI, x.connect / MILLI, x.tls / MILLI, "", StrText(url))
               else if kind == CloudEvent then
                 Request(stamp, StrText(d.id), 0, x.ttfb / MILLI, x.total / MILLI, false,
                         x.dns / MILLI, x.connect / MILLI, x.tls / MILLI, StrText(d.error), StrText(url))
               else
                 Request(stamp, "", x.status, x.ttfb / MILLI, x.total / MILLI, false,
                         x.dns / MILLI, x.connect / MILLI, x.tls / MILLI, "", StrText(url))
  {
    hide StrText, CleanCold;
  }

  lemma ToldMessages(m: Message)
    requires Told(m)
    ensures m == SuccessLine || m == FailedLine
  {
  }

  /** And if its texts are given back whole its row is the request's. */
  lemma AnswerRow(kind: Kind, section: Section, m: Message, at: Moment, url: string, d: Detail)
    requires Zoned(at.t, at.offset) && Told(m) && Whole(kind, m, d, url)
    ensures LineRequest(Render(WorkerEntry(kind, section, m, InstantText(at.t, at.offset), url, d).record))
         == RowFor(kind, m, d, url, at)
  {
    hide *;
    var time := InstantText(at.t, at.offset);
    ToldMessages(m);
    MomentTraceable(at);
    WholeParts(kind, m, d, url, time);
    AnswerEntry(kind, section, m, time, url, d);
    RowIs(kind, m, d, url, at);
    if m == SuccessLine {
      SuccessRow(time, url, if kind == CloudEvent then Some(d.id) else None, d.metrics);
    } else if kind == CloudEvent {
      FailedEventRow(time, url, d.id, d.error, d.metrics);
    } else {
      FailedRow(time, url, d.metrics);
    }
  }

  lemma NoteProper(at: Moment, n: Note)
    requires Zoned(at.t, at.offset) && FairNote(n)
    ensures Emitted(NoteRecord(InstantText(at.t, at.offset), n.level, n.message, n.attrs), n.message)
    ensures !Counted(n.message)
  {
    MomentText(at);
    hide InstantText, Zoned, NeedsQuoting, StrText, LooseInstant, QuietText, PlainText, Emitted, AllRecoverable, NoteRecord, NoteAttrs, Counted;
    NoteEmitted(InstantText(at.t, at.offset), n.level, n.message, n.attrs);
  }

  // ---------- the whole file ----------

  ghost predicate Rendered(c: Cfg, s: State, x: Script) {
    Fits(c, s, x) && (forall e | e in s.log :: Known(s.workers, e)) && forall w | w in s.workers :: w.target < c.targets
  }

  /** An event's record: what its source line writes, with the values of its worker. */
  ghost function EntryAt(c: Cfg, s: State, x: Script, k: nat): LogFile.Entry
    requires Rendered(c, s, x) && k < |s.log|
  {
    var e, n, time := s.log[k], x.notes[k], InstantText(x.moments[k].t, x.moments[k].offset);
    assert e in s.log && x.moments[k] in x.moments;
    if e.message == ProgressLine then Entry(NoteRecord(time, n.level, n.message, n.attrs), n.message)
    else
      var w := s.workers[e.worker.value];
      assert w in s.workers;
      WorkerEntry(c.kind, w.section, e.message, time, x.urls[w.target], x.details[e.worker.value])
  }

  /** The records of the first k events. */
  ghost function EntriesTo(c: Cfg, s: State, x: Script, k: nat): seq<LogFile.Entry>
    requires Rendered(c, s, x) && k <= |s.log|
  {
    if k == 0 then [] else EntriesTo(c, s, x, k - 1) + [EntryAt(c, s, x, k - 1)]
  }

  /** The number of the worker that wrote the record at a place. */
  function TellerAt(s: State, k: nat): nat
    requires k < |s.log| && s.log[k].worker.Some?
  {
    s.log[k].worker.value
  }

  /** The row of the answered request told of at a place. */
  ghost function RowAt(c: Cfg, s: State, x: Script, k: nat): Request
    requires Rendered(c, s, x) && k < |s.log| && Told(s.log[k].message)
  {
    assert s.log[k] in s.log && Known(s.workers, s.log[k]);
    var w := TellerAt(s, k);
    assert s.workers[w] in s.workers;
    RowFor(c.kind, s.log[k].message, x.details[w], x.urls[s.workers[w].target], x.moments[k])
  }

  ghost predicate WholeAt(c: Cfg, s: State, x: Script, k: nat)
    requires Rendered(c, s, x) && k < |s.log| && Told(s.log[k].message)
  {
    assert s.log[k] in s.log && Known(s.workers, s.log[k]);
    var w := TellerAt(s, k);
    assert s.workers[w] in s.workers;
    Whole(c.kind, s.log[k].message, x.details[w], x.urls[s.workers[w].target])
  }

  ghost function RowStep(c: Cfg, s: State, x: Script, k: nat): seq<Request>
    requires Rendered(c, s, x) && k < |s.log|
  {
    if Told(s.log[k].message) then [LineRequest(Render(EntryAt(c, s, x, k).record))] else []
  }

  ghost function RowsTo(c: Cfg, s: State, x: Script, k: nat): seq<Request>
    requires Rendered(c, s, x) && k <= |s.log|
  {
    if k == 0 then [] else RowsTo(c, s, x, k - 1) + RowStep(c, s, x, k - 1)
  }

  lemma {:induction false} AnswersAppend(xs: seq<LogFile.Entry>, e: LogFile.Entry)
    ensures AnswersIn(xs + [e]) == AnswersIn(xs)
              + if !Counted(e.message) then [] else [if e.message == "Success" then SuccessLine else FailedLine]
  {
    hide Counted;
    if xs == [] {
      assert xs + [e] == [e] && [e][1..] == [];
    } else {
      assert (xs + [e])[1..] == xs[1..] + [e];
      AnswersAppend(xs[1..], e);
    }
  }

  lemma {:induction false} RowsAppend(xs: seq<LogFile.Entry>, e: LogFile.Entry)
    ensures LineRows(xs + [e]) == LineRows(xs) + if Counted(e.message) then [LineRequest(Render(e.record))] else []
  {
    hide Counted, LineRequest, Render;
    var last := if Counted(e.message) then [LineRequest(Render(e.record))] else [];
    if xs == [] {
      assert xs + [e] == [e] && [e][1..] == [];
      assert LineRows([e]) == last + LineRows([]);
    } else {
      assert (xs + [e])[1..] == xs[1..] + [e] && (xs + [e])[0] == xs[0];
      RowsAppend(xs[1..], e);
      var head := if Counted(xs[0].message) then [LineRequest(Render(xs[0].record))] else [];
      assert LineRows(xs + [e]) == head + LineRows(xs[1..] + [e]) && LineRows(xs) == head + LineRows(xs[1..]);
      hide LineRows;
      assert head + (LineRows(xs[1..]) + last) == (head + LineRows(xs[1..])) + last;
    }
  }

  /** One event's record. */
  lemma EntryProper(c: Cfg, s: State, x: Script, k: nat)
    requires Rendered(c, s, x) && k < |s.log|
    ensures var entry := EntryAt(c, s, x, k);
            && Emitted(entry.record, entry.message) && (Counted(entry.message) <==> Told(s.log[k].message))
            && (Told(s.log[k].message) ==> (s.log[k].message == SuccessLine <==> entry.message == "Success"))
  {
    hide *;
    if s.log[k].message == ProgressLine {
      ByScheduler(c, s, x, k);
    } else {
      ByWorker(c, s, x, k);
      ProperFacts(EntryAt(c, s, x, k), s.log[k].message);
    }
  }

  lemma ByScheduler(c: Cfg, s: State, x: Script, k: nat)
    requires Rendered(c, s, x) && k < |s.log| && s.log[k].message == ProgressLine
    ensures Emitted(EntryAt(c, s, x, k).record, EntryAt(c, s, x, k).message) && !Counted(EntryAt(c, s, x, k).message)
    ensures !Told(s.log[k].message)
  {
    hide InstantText, Zoned, Emitted, Counted, Agrees, FairNote, WorkerEntry, NoteRecord, Silent, QuietText, StrText, Told;
    assert x.moments[k] in x.moments && x.notes[k] in x.notes;
    assert !Told(ProgressLine) by { ProgressUntold(); }
    NoteProper(x.moments[k], x.notes[k]);
  }

  lemma ProgressUntold()
    ensures !Told(ProgressLine)
  {
  }

  lemma ByWorker(c: Cfg, s: State, x: Script, k: nat)
    requires Rendered(c, s, x) && k < |s.log| && s.log[k].message != ProgressLine
    ensures Proper(EntryAt(c, s, x, k), s.log[k].message)
  {
    var e, at := s.log[k], x.moments[k];
    assert e in s.log && at in x.moments;
    var w, d := s.workers[e.worker.value], x.details[e.worker.value];
    assert w in s.workers && x.urls[w.target] in x.urls && d in x.details;
    hide InstantText, Zoned, Silent, QuietText, StrText, FairNote, WorkerEntry, Proper, Agrees;
    WorkerProper(c.kind, w.section, e.message, at, x.urls[w.target], d);
  }

  lemma ProperFacts(entry: LogFile.Entry, m: Message)
    requires Proper(entry, m)
    ensures Emitted(entry.record, entry.message) && (Counted(entry.message) <==> Told(m))
    ensures Told(m) ==> (m == SuccessLine <==> entry.message == "Success")
  {
    OneWord();
    hide Emitted, Counted;
  }

  /** The parser's row for an answered request is the request's if its texts are given back whole. */
  lemma RowRight(c: Cfg, s: State, x: Script, k: nat)
    requires Rendered(c, s, x) && k < |s.log| && Told(s.log[k].message) && WholeAt(c, s, x, k)
    ensures LineRequest(Render(EntryAt(c, s, x, k).record)) == RowAt(c, s, x, k)
  {
    var e, at := s.log[k], x.moments[k];
    assert e in s.log && at in x.moments;
    var w, d := s.workers[e.worker.value], x.details[e.worker.value];
    assert w in s.workers;
    assert Told(e.message) && !Told(ProgressLine);
    hide InstantText, Zoned, Silent, QuietText, StrText, FairNote, WorkerEntry, Agrees, Whole, RowFor, LineRequest, Render, Told;
    AnswerRow(c.kind, w.section, e.message, at, x.urls[w.target], d);
  }

  lemma {:induction false} RowsAtPlaces(c: Cfg, s: State, x: Script, k: nat)
    requires Rendered(c, s, x) && k <= |s.log|
    ensures var rows, ps := RowsTo(c, s, x, k), Places(s.log[..k]);
            && |rows| == |ps|
            && forall i | 0 <= i < |ps| ::
                 ps[i] < k && Told(s.log[ps[i]].message) && rows[i] == LineRequest(Render(EntryAt(c, s, x, ps[i]).record))
  {
    hide Rendered, EntryAt, LineRequest, Render, Told;
    if k > 0 {
      RowsAtPlaces(c, s, x, k - 1);
      assert s.log[..k][..k - 1] == s.log[..k - 1];
    }
  }

  /** The records of the first k events, and their rows. */
  lemma {:induction false} UpTo(c: Cfg, s: State, x: Script, k: nat)
    requires Rendered(c, s, x) && k <= |s.log|
    ensures AnswersIn(EntriesTo(c, s, x, k)) == Answers(s.log[..k])
    ensures forall e | e in EntriesTo(c, s, x, k) :: Emitted(e.record, e.message)
    ensures LineRows(EntriesTo(c, s, x, k)) == RowsTo(c, s, x, k)
  {
    hide Rendered, EntryAt, RowStep, Emitted, Told;
    if k > 0 {
      hide AnswersIn, LineRows;
      UpTo(c, s, x, k - 1);
      assert s.log[..k][..k - 1] == s.log[..k - 1] && s.log[..k][k - 1] == s.log[k - 1];
      LastEntry(c, s, x, k);
    }
  }

  lemma LastEntry(c: Cfg, s: State, x: Script, k: nat)
    requires Rendered(c, s, x) && 0 < k <= |s.log|
    ensures AnswersIn(EntriesTo(c, s, x, k))
         == AnswersIn(EntriesTo(c, s, x, k - 1)) + if Told(s.log[k - 1].message) then [s.log[k - 1].message] else []
    ensures LineRows(EntriesTo(c, s, x, k)) == LineRows(EntriesTo(c, s, x, k - 1)) + RowStep(c, s, x, k - 1)
    ensures Emitted(EntryAt(c, s, x, k - 1).record, EntryAt(c, s, x, k - 1).message)
  {
    hide Rendered, EntryAt, LineRequest, Render, Counted, Emitted, AnswersIn, LineRows;
    EntryProper(c, s, x, k - 1);
    AnswersAppend(EntriesTo(c, s, x, k - 1), EntryAt(c, s, x, k - 1));
    RowsAppend(EntriesTo(c, s, x, k - 1), EntryAt(c, s, x, k - 1));
  }

  predicate Counts(w: Work) { w == Work.Gone(Succeeded) || w == Work.Gone(Rejected) }

  /** Each request that succeeded or was rejected is told of once, by the word for what became of it,
      and no other is. */
  ghost predicate OneEach(s: State) {
    var ps := Places(s.log);
    && (forall i | 0 <= i < |ps| :: ps[i] < |s.log| && s.log[ps[i]].worker.Some? && TellerAt(s, ps[i]) < |s.workers|)
    && (forall i | 0 <= i < |ps| ::
          var work := s.workers[TellerAt(s, ps[i])].work;
          Counts(work) && s.log[ps[i]].message == if work == Work.Gone(Succeeded) then SuccessLine else FailedLine)
    && (forall i, j | 0 <= i < j < |ps| :: TellerAt(s, ps[i]) != TellerAt(s, ps[j]))
    && (forall w: nat | w < |s.workers| && Counts(s.workers[w].work) :: exists i :: 0 <= i < |ps| && TellsOf(s.log, ps[i], w))
  }

  lemma GoneAnswered(w: Work, m: Message)
    requires w.Gone?
    ensures Answered(w) <==> Counts(w)
    ensures Told(m) && Agrees(m, w) ==> Counts(w) && m == if w == Work.Gone(Succeeded) then SuccessLine else FailedLine
  {
  }

  lemma PlaceFacts(s: State, i: nat)
    requires Signed(s) && AllEnded(s.workers) && i < |Places(s.log)|
    ensures var k := Places(s.log)[i];
            && k < |s.log| && s.log[k].worker.Some? && TellerAt(s, k) < |s.workers| && TellsOf(s.log, k, TellerAt(s, k))
            && var work := s.workers[TellerAt(s, k)].work;
               Counts(work) && s.log[k].message == if work == Work.Gone(Succeeded) then SuccessLine else FailedLine
  {
    PlacesIn(s.log);
    var k := Places(s.log)[i];
    assert k in Places(s.log) && s.log[k] in s.log;
    assert Known(s.workers, s.log[k]);
    var w := s.workers[TellerAt(s, k)];
    assert w in s.workers;
    GoneAnswered(w.work, s.log[k].message);
    hide Places, Signed, AllEnded, Counts, Agrees;
  }

  lemma EachOnce(s: State)
    requires Signed(s) && AllEnded(s.workers)
    ensures OneEach(s)
  {
    PlacesIn(s.log);
    PlacesRise(s.log);
    var ps := Places(s.log);
    forall i | 0 <= i < |ps|
      ensures ps[i] < |s.log| && s.log[ps[i]].worker.Some? && TellerAt(s, ps[i]) < |s.workers|
      ensures TellsOf(s.log, ps[i], TellerAt(s, ps[i])) && Counts(s.workers[TellerAt(s, ps[i])].work)
      ensures s.log[ps[i]].message == if s.workers[TellerAt(s, ps[i])].work == Work.Gone(Succeeded) then SuccessLine else FailedLine
    {
      PlaceFacts(s, i);
    }
    forall w: nat | w < |s.workers| && Counts(s.workers[w].work)
      ensures exists i :: 0 <= i < |ps| && TellsOf(s.log, ps[i], w)
    {
      assert s.workers[w] in s.workers;
      GoneAnswered(s.workers[w].work, SuccessLine);
      var k: int :| TellsOf(s.log, k, w);
      assert k in ps;
    }
    hide Places, Counts, Answered, Known, AllEnded;
  }

  lemma RunRendered(c: Cfg, s: State, x: Script)
    requires Runnable(c) && Reachable(c, s) && s.at.Finished? && Fits(c, s, x)
    ensures Rendered(c, s, x) && Signed(s) && AllEnded(s.workers)
  {
    hide Reachable, Books, Tally, LimiterShape, Place, Known, Silent, FairNote, QuietText, StrText, Zoned;
    ReachableSigned(c, s);
    ReachableHolds(c, s);
    FinishedZero(c, s);
    NoneInFlight(c, s);
  }

  /** From run to rows, request by request: the log of a finished run, rendered with any texts that
      do not hold the filter's words, is a file whose rows are, in the order of the log, one for each
      request that succeeded or was rejected and for no other. The row of a request whose own texts
      are given back whole, whatever the others', holds the printed address of its target, its times
      and id, and the moment of its record. */
  lemma RowsOfRun(c: Cfg, s: State, x: Script, first: Slog.Record, second: Slog.Record)
    requires Runnable(c) && Reachable(c, s) && s.at.Finished? && Fits(c, s, x) && WordKeys(first) && WordKeys(second)
    ensures Rendered(c, s, x) && OneEach(s)
    ensures var es, ps := EntriesTo(c, s, x, |s.log|), Places(s.log);
            && Written(s.log, es)
            && FileOf(Some(Lines.FileText([Render(first), Render(second)] + RecordLines(es))))
               == LogFile.Success(ConfigLine.ConfigOf(Render(second)), LineRows(es))
            && |LineRows(es)| == |ps|
            && (forall i | 0 <= i < |ps| ::
                  && ps[i] < |s.log| && Told(s.log[ps[i]].message)
                  && (WholeAt(c, s, x, ps[i]) ==> LineRows(es)[i] == RowAt(c, s, x, ps[i])))
  {
    hide *;
    RunRendered(c, s, x);
    EachOnce(s);
    assert s.log[..|s.log|] == s.log;
    UpTo(c, s, x, |s.log|);
    RowsAtPlaces(c, s, x, |s.log|);
    WrittenIs(s.log, EntriesTo(c, s, x, |s.log|));
    EveryRequestFound(c, s, first, second, EntriesTo(c, s, x, |s.log|));
    forall i | 0 <= i < |Places(s.log)| && WholeAt(c, s, x, Places(s.log)[i])
      ensures LineRows(EntriesTo(c, s, x, |s.log|))[i] == RowAt(c, s, x, Places(s.log)[i])
    {
      RowRight(c, s, x, Places(s.log)[i]);
    }
  }

  lemma WrittenIs(log: seq<Event>, es: seq<LogFile.Entry>)
    requires AnswersIn(es) == Answers(log) && forall e | e in es :: Emitted(e.record, e.message)
    ensures Written(log, es)
  {
    hide Emitted;
  }
}
