/** From one end to the other: the generator's runs, the pool that counts them, the log they write
    and the rows the parser makes of it. */
module Pipeline {
  import opened Options
  import opened Machine
  import opened Accounting
  import opened Progress
  import Pool
  import Slog
  import Lines
  import ConfigLine
  import LogFile
  import Records
  import Text
  import Durations
  import Instants
  import Ledger
  import Filenames

  // ---------- the pool ----------

  /** The generator's counts as the mock's map. */
  function AsMap(calls: seq<nat>): Pool.Counts { map t: nat | t < |calls| :: calls[t] }

  /** The targets that reached the pool, in the order of the mock's critical sections. */
  function CallsOf(c: Cfg, s: State, acts: seq<Action>): seq<nat>
    requires Runnable(c)
    decreases |acts|
  {
    if acts == [] || Step(c, s, acts[0]).None? then []
    else
      var a := acts[0];
      (if a.Work? && a.w < |s.workers| && s.workers[a.w].work.Requesting? then [s.workers[a.w].target] else [])
      + CallsOf(c, Step(c, s, a).value, acts[1..])
  }

  lemma {:induction false} BumpsAppend(m: Pool.Counts, xs: seq<nat>, ys: seq<nat>)
    ensures Pool.Bumps(m, xs + ys) == Pool.Bumps(Pool.Bumps(m, xs), ys)
  {
    if ys == [] {
      assert xs + ys == xs;
    } else {
      var n := |ys| - 1;
      assert (xs + ys)[..|xs| + n] == xs + ys[..n];
      BumpsAppend(m, xs, ys[..n]);
    }
  }

  lemma MapUpdate(calls: seq<nat>, t: nat)
    requires t < |calls|
    ensures AsMap(calls[t := calls[t] + 1]) == Pool.Bump(AsMap(calls), t)
  {
  }

  lemma StepCalls(c: Cfg, s: State, a: Action, s': State)
    requires Runnable(c) && Shape(c, s) && Step(c, s, a) == Some(s')
    ensures AsMap(s'.calls) == if a.Work? && a.w < |s.workers| && s.workers[a.w].work.Requesting?
                               then Pool.Bump(AsMap(s.calls), s.workers[a.w].target) else AsMap(s.calls)
  {
    if a.Work? {
      hide MainStep, WorkStep, LimiterShape, Place, Runnable, AsMap;
      assert s.workers[a.w] in s.workers;
      if s.workers[a.w].work.Requesting? {
        MapUpdate(s.calls, s.workers[a.w].target);
      }
    } else {
      hide AsMap, Shape;
      SameCalls(c, s, a, s');
    }
  }

  lemma SameCalls(c: Cfg, s: State, a: Action, s': State)
    requires Runnable(c) && !a.Work? && Step(c, s, a) == Some(s')
    ensures s'.calls == s.calls
  {
    hide Runnable, BatchSize, Interval, DeadlinePassed, ZeroTimeOr, FireTicker, Due, Ladder, Burst, NewTicker, WorkerStep;
  }

  /** The counts are what the mock has after the calls so far, one critical section after another. */
  lemma {:induction false} PoolFollows(c: Cfg, s: State, acts: seq<Action>, s': State)
    requires Runnable(c) && Invariant(c, s) && Run(c, s, acts) == Some(s')
    ensures AsMap(s'.calls) == Pool.Bumps(AsMap(s.calls), CallsOf(c, s, acts))
    decreases |acts|
  {
    if acts != [] {
      var a, next := acts[0], Step(c, s, acts[0]).value;
      StepCalls(c, s, a, next);
      StepHolds(c, s, a, next);
      hide Step, Invariant, AsMap, Runnable;
      PoolFollows(c, next, acts[1..], s');
      var one := if a.Work? && a.w < |s.workers| && s.workers[a.w].work.Requesting? then [s.workers[a.w].target] else [];
      BumpsAppend(AsMap(s.calls), one, CallsOf(c, next, acts[1..]));
      OneCall(AsMap(s.calls), one);
    }
  }

  lemma OneCall(m: Pool.Counts, one: seq<nat>)
    requires |one| <= 1
    ensures Pool.Bumps(m, one) == if one == [] then m else Pool.Bump(m, one[0])
  {
    if one != [] {
      assert one[..0] == [];
    }
  }

  /** Fairness through the mock: when Start has returned, the mock, having started at zero and
      served the run's calls in their order, shows for each target the batches it belongs to. */
  lemma MockFairness(c: Cfg, acts: seq<Action>, s: State, t: nat)
    requires Runnable(c) && Run(c, Init(c), acts) == Some(s) && s.at.Finished? && t < c.targets
    ensures var counts := Pool.Bumps(Pool.Zeros(c.targets), CallsOf(c, Init(c), acts));
            t in counts && counts[t] == BatchesFor(c, s, t)
  {
    InitHolds(c);
    assert AsMap(Init(c).calls) == Pool.Zeros(c.targets);
    hide Init, Invariant, Run, BatchesFor, Step;
    PoolFollows(c, Init(c), acts, s);
    assert Reachable(c, s) by { assert Run(c, Init(c), acts) == Some(s); }
    StartReturns(c, s, t);
  }

  // ---------- the log ----------

  predicate Told(m: Message) { m == SuccessLine || m == FailedLine }

  /** A log's Success and Failed events, in order. */
  function Answers(log: seq<Event>): seq<Message> {
    if log == [] then []
    else Answers(log[..|log| - 1]) + if Told(log[|log| - 1].message) then [log[|log| - 1].message] else []
  }

  /** The Success and Failed records among others, in order. */
  function AnswersIn(entries: seq<LogFile.Entry>): seq<Message> {
    if entries == [] then []
    else
      (if !LogFile.Counted(entries[0].message) then []
       else [if entries[0].message == "Success" then SuccessLine else FailedLine])
      + AnswersIn(entries[1..])
  }

  /** The records of a run: its Success and Failed events in their order, and before, between and
      after them any other records, such as those of main, of progress and of errors. */
  predicate Written(log: seq<Event>, entries: seq<LogFile.Entry>) {
    AnswersIn(entries) == Answers(log) && forall e | e in entries :: LogFile.Emitted(e.record, e.message)
  }

  lemma {:induction false} AnswersInserted(xs: seq<LogFile.Entry>, e: LogFile.Entry, ys: seq<LogFile.Entry>)
    requires !LogFile.Counted(e.message)
    ensures AnswersIn(xs + [e] + ys) == AnswersIn(xs + ys)
  {
    hide LogFile.Counted;
    if xs == [] {
      assert xs + [e] + ys == [e] + ys && xs + ys == ys && ([e] + ys)[1..] == ys;
    } else {
      AnswersInserted(xs[1..], e, ys);
      assert (xs + [e] + ys)[1..] == xs[1..] + [e] + ys && (xs + ys)[1..] == xs[1..] + ys;
    }
  }

  /** Another record anywhere, if it is not counted, changes nothing. */
  lemma OtherRecords(log: seq<Event>, xs: seq<LogFile.Entry>, e: LogFile.Entry, ys: seq<LogFile.Entry>)
    requires Written(log, xs + ys) && LogFile.Emitted(e.record, e.message) && !LogFile.Counted(e.message)
    ensures Written(log, xs + [e] + ys)
  {
    AnswersInserted(xs, e, ys);
    hide AnswersIn, Answers, LogFile.Emitted, LogFile.Counted;
    assert forall x | x in xs + [e] + ys :: x == e || x in xs + ys;
  }

  lemma {:induction false} AnswersCounted(log: seq<Event>)
    ensures |Answers(log)| == LogCount(log, SuccessLine) + LogCount(log, FailedLine)
  {
    if log != [] {
      AnswersCounted(log[..|log| - 1]);
    }
  }

  lemma {:induction false} RowsCounted(entries: seq<LogFile.Entry>)
    ensures |LogFile.LineRows(entries)| == |AnswersIn(entries)|
  {
    hide LogFile.LineRequest, Slog.Render, LogFile.Counted;
    if entries != [] {
      RowsCounted(entries[1..]);
    }
  }

  lemma FinishedZero(c: Cfg, s: State)
    requires Runnable(c) && Reachable(c, s) && s.at.Finished?
    ensures s.wg == 0
  {
    hide Reachable, Shape, Books, Tally;
    ReachableHolds(c, s);
  }

  lemma WrittenFacts(log: seq<Event>, entries: seq<LogFile.Entry>)
    requires Written(log, entries)
    ensures |LogFile.LineRows(entries)| == LogCount(log, SuccessLine) + LogCount(log, FailedLine)
    ensures forall e | e in entries :: LogFile.Emitted(e.record, e.message)
  {
    AnswersCounted(log);
    RowsCounted(entries);
    hide LogFile.Emitted, LogFile.LineRows, AnswersIn, Answers, LogCount;
  }

  /** From run to rows: when Start has returned, the parser finds in the log, after its two header
      lines, exactly one row for each request that succeeded or was rejected; the requests launched
      and not found are those that failed. */
  lemma EveryRequestFound(c: Cfg, s: State, first: Slog.Record, second: Slog.Record, entries: seq<LogFile.Entry>)
    requires Runnable(c) && Reachable(c, s) && s.at.Finished? && Written(s.log, entries)
    requires Slog.WordKeys(first) && Slog.WordKeys(second)
    ensures var file := LogFile.FileOf(Some(Lines.FileText([Slog.Render(first), Slog.Render(second)] + LogFile.RecordLines(entries))));
            && file == LogFile.Success(ConfigLine.ConfigOf(Slog.Render(second)), LogFile.LineRows(entries))
            && |file.requests| == Count(c.kind, Ended(Succeeded), s.workers) + Count(c.kind, Ended(Rejected), s.workers)
            && |file.requests| + Count(c.kind, Ended(Failed), s.workers) == |s.workers|
    ensures (forall e | e in entries :: LogFile.WellWritten(e)) ==> LogFile.LineRows(entries) == LogFile.Rows(entries)
  {
    hide *;
    FinishedZero(c, s);
    NoneInFlight(c, s);
    WrittenFacts(s.log, entries);
    LogFile.LogKept(first, second, entries);
    if forall e | e in entries :: LogFile.WellWritten(e) {
      LogFile.WholeRows(entries);
    }
  }

  // ---------- the database ----------

  /** A file with the log of a finished run, under a name the parser accepts. */
  predicate LogFileOf(e: Ledger.DirEntry, first: Slog.Record, second: Slog.Record, entries: seq<LogFile.Entry>,
                      info: Filenames.Info, cutoff: Filenames.Stamp) {
    && !e.isDir && Text.HasSuffix(e.name, ".log") && Filenames.FilenameInfo(e.name) == Filenames.Success(info)
    && !Ledger.Before(info.timestamp, cutoff)
    && e.content == Some(Lines.FileText([Slog.Render(first), Slog.Render(second)] + LogFile.RecordLines(entries)))
  }

  lemma LoadIs(e: Ledger.DirEntry, first: Slog.Record, second: Slog.Record, entries: seq<LogFile.Entry>,
               info: Filenames.Info, cutoff: Filenames.Stamp, config: ConfigLine.Config, rows: seq<LogFile.Request>)
    requires LogFileOf(e, first, second, entries, info, cutoff)
    requires LogFile.FileOf(e.content) == LogFile.Success(config, rows)
    ensures Ledger.LoadOf(e, cutoff) == Some(Ledger.Load(Ledger.ExperimentRow(info, config), rows))
  {
    hide LogFile.FileOf, Filenames.FilenameInfo, Text.HasSuffix, Ledger.Before, Lines.FileText, Slog.Render, LogFile.RecordLines;
  }

  /** From run to database: loading the file of a finished run adds its experiment and, if no call
      of the transaction fails, one request row of that experiment for each request that succeeded
      or was rejected; otherwise no request row at all. */
  lemma EveryRequestStored(c: Cfg, s: State, first: Slog.Record, second: Slog.Record, entries: seq<LogFile.Entry>,
                           e: Ledger.DirEntry, info: Filenames.Info, cutoff: Filenames.Stamp,
                           f: Ledger.Faults, t: Ledger.Tables, stats: Ledger.Stats)
    requires Runnable(c) && Reachable(c, s) && s.at.Finished? && Written(s.log, entries)
    requires Slog.WordKeys(first) && Slog.WordKeys(second) && LogFileOf(e, first, second, entries, info, cutoff)
    ensures var stored := Count(c.kind, Ended(Succeeded), s.workers) + Count(c.kind, Ended(Rejected), s.workers);
            var load := Ledger.LoadOf(e, cutoff);
            && load.Some? && load.value.row == Ledger.ExperimentRow(info, ConfigLine.ConfigOf(Slog.Render(second)))
            && load.value.requests == LogFile.LineRows(entries) && |load.value.requests| == stored
            && var (t', stats') := Ledger.LoadOne(load.value, f, t, stats);
               if f.insert then t' == t && stats' == stats
               else
                 && t'.experiments == t.experiments + [load.value.row]
                 && if Ledger.LoadFails(load.value, f) then t'.requests == t.requests && stats' == stats
                    else
                      && |t'.requests| == |t.requests| + stored && stats'.requestsInserted == stats.requestsInserted + stored
                      && t.requests <= t'.requests
                      && Ledger.RowsHold(t'.requests[|t.requests|..], |t'.experiments|, LogFile.LineRows(entries))
  {
    hide *;
    EveryRequestFound(c, s, first, second, entries);
    ContentIs(e, first, second, entries, info, cutoff);
    var config, rows := ConfigLine.ConfigOf(Slog.Render(second)), LogFile.LineRows(entries);
    LoadIs(e, first, second, entries, info, cutoff, config, rows);
    LoadedRows(Ledger.Load(Ledger.ExperimentRow(info, config), rows), f, t, stats);
  }

  lemma ContentIs(e: Ledger.DirEntry, first: Slog.Record, second: Slog.Record, entries: seq<LogFile.Entry>,
                  info: Filenames.Info, cutoff: Filenames.Stamp)
    requires LogFileOf(e, first, second, entries, info, cutoff)
    ensures e.content == Some(Lines.FileText([Slog.Render(first), Slog.Render(second)] + LogFile.RecordLines(entries)))
  {
    hide Lines.FileText, Slog.Render, LogFile.RecordLines;
  }

  lemma LoadedRows(l: Ledger.Load, f: Ledger.Faults, t: Ledger.Tables, stats: Ledger.Stats)
    ensures var (t', stats') := Ledger.LoadOne(l, f, t, stats);
            if f.insert then t' == t && stats' == stats
            else
              && t'.experiments == t.experiments + [l.row]
              && if Ledger.LoadFails(l, f) then t'.requests == t.requests && stats' == stats
                 else
                   && |t'.requests| == |t.requests| + |l.requests|
                   && stats'.requestsInserted == stats.requestsInserted + |l.requests|
                   && t.requests <= t'.requests
                   && Ledger.RowsHold(t'.requests[|t.requests|..], |t'.experiments|, l.requests)
  {
    Ledger.RowsForFacts(|t.experiments| + 1, l.requests);
    Ledger.RowsForHold(|t.experiments| + 1, l.requests);
    hide Ledger.RowsFor, Ledger.LoadFails, Ledger.RowsHold;
    var rows := Ledger.RowsFor(|t.experiments| + 1, l.requests);
    assert (t.requests + rows)[|t.requests|..] == rows;
  }

  // ---------- one request's times ----------

  /** What executeWithMetrics measured, with the answer's status and body. */
  function MetricsOf(t: Pool.Timing, status: int, body: string): Records.Metrics {
    Records.Metrics(t.ttfb, t.total, t.dns, t.connect, t.tls, status, body)
  }

  /** A phase's time in whole milliseconds. */
  ghost predicate PhaseStored(trace: seq<Pool.Traced>, start: Pool.Hook, done: Pool.Hook, stored: int) {
    exists time :: Pool.PhaseIs(trace, start, done, time) && stored == time / 1_000_000
  }

  /** From the callbacks of a request on a monotone clock to its row: first byte not after total, and
      the measured times in whole milliseconds. */
  lemma MeasuredToRow(start: int, trace: seq<Pool.Traced>, finish: int, status: int, body: string,
                      time: string, target: string, id: Option<string>)
    requires Pool.Monotone(start, trace, finish) && finish - start <= Pool.FOREVER
    requires -Text.INT64_LIMIT <= status < Text.INT64_LIMIT
    requires Records.Traceable(time, target, id) && Slog.Recoverable(Slog.Str(body))
    ensures var m := MetricsOf(Pool.TimingOf(start, trace, finish), status, body);
            var row := LogFile.LineRequest(Slog.Render(Records.SuccessRecord(time, target, id, m)));
            && 0 <= row.ttfb <= row.total == (finish - start) / 1_000_000
            && (forall k | Pool.Latest(trace, |trace|, k, Pool.FirstByte) :: row.ttfb == (trace[k].at - start) / 1_000_000)
            && (Pool.Absent(trace, |trace|, Pool.FirstByte) ==> row.ttfb == 0)
            && PhaseStored(trace, Pool.DnsStart, Pool.DnsDone, row.dns)
            && PhaseStored(trace, Pool.ConnectStart, Pool.ConnectDone, row.connect)
            && PhaseStored(trace, Pool.TlsStart, Pool.TlsDone, row.tls)
  {
    hide *;
    Pool.TimesOrdered(start, trace, finish);
    Pool.TimingMeans(start, trace, finish);
    var t := Pool.TimingOf(start, trace, finish);
    TimesMeasured(t, status, body);
    MeasuredRow(time, target, id, MetricsOf(t, status, body));
    FirstByteStored(start, trace, t.ttfb);
    Stored(trace, Pool.DnsStart, Pool.DnsDone, t.dns);
    Stored(trace, Pool.ConnectStart, Pool.ConnectDone, t.connect);
    Stored(trace, Pool.TlsStart, Pool.TlsDone, t.tls);
    InMillis(t.ttfb, t.total);
  }

  lemma InMillis(x: int, y: int)
    requires 0 <= x <= y
    ensures 0 <= x / 1_000_000 <= y / 1_000_000 && 0 / 1_000_000 == 0
  {
  }

  /** The times of a row. */
  lemma MeasuredRow(time: string, target: string, id: Option<string>, m: Records.Metrics)
    requires Records.Traceable(time, target, id) && Slog.Recoverable(Slog.Str(m.body)) && Records.Measured(m)
    ensures var row := LogFile.LineRequest(Slog.Render(Records.SuccessRecord(time, target, id, m)));
            && row.ttfb == m.ttfb / 1_000_000 && row.total == m.total / 1_000_000 && row.dns == m.dns / 1_000_000
            && row.connect == m.connect / 1_000_000 && row.tls == m.tls / 1_000_000
  {
    hide Records.SuccessRecord, LogFile.LineRequest, Slog.Render, Slog.Recoverable, Records.Traceable, Records.Measured,
      Instants.LooseInstant, LogFile.CleanCold, Slog.StrText;
    Records.SuccessRow(time, target, id, m);
  }

  lemma TimesMeasured(t: Pool.Timing, status: int, body: string)
    requires 0 <= t.ttfb <= t.total <= Pool.FOREVER && 0 <= t.dns <= Pool.FOREVER
    requires 0 <= t.connect <= Pool.FOREVER && 0 <= t.tls <= Pool.FOREVER
    requires -Text.INT64_LIMIT <= status < Text.INT64_LIMIT
    ensures Records.Measured(MetricsOf(t, status, body))
    ensures MetricsOf(t, status, body) == Records.Metrics(t.ttfb, t.total, t.dns, t.connect, t.tls, status, body)
  {
  }

  lemma FirstByteStored(start: int, trace: seq<Pool.Traced>, ttfb: int)
    requires Pool.FirstByteIs(start, trace, ttfb)
    ensures forall k | Pool.Latest(trace, |trace|, k, Pool.FirstByte) :: ttfb / 1_000_000 == (trace[k].at - start) / 1_000_000
    ensures Pool.Absent(trace, |trace|, Pool.FirstByte) ==> ttfb / 1_000_000 == 0
  {
  }

  lemma Stored(trace: seq<Pool.Traced>, start: Pool.Hook, done: Pool.Hook, time: int)
    requires Pool.PhaseIs(trace, start, done, time)
    ensures PhaseStored(trace, start, done, time / 1_000_000)
  {
  }
}
