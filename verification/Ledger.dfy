/** cmd/logparser/main.go over a directory: processLogs, insertExperiment and insertRequests,
    with a database that may fail at any call. */
module Ledger {
  import opened Options
  import opened Text
  import opened ConfigLine
  import opened LogFile
  import F = Filenames
  import Instants
  import Lines

  datatype ExperimentRow = ExperimentRow(info: F.Info, config: Config)

  /** An absent event id is stored as NULL. */
  datatype RequestRow = RequestRow(experimentId: nat, request: Request, eventId: Option<string>)

  /** The two tables. Experiment ids count from 1 in the order of insertion. */
  datatype Tables = Tables(experiments: seq<ExperimentRow>, requests: seq<RequestRow>)

  datatype Stats = Stats(filesProcessed: nat, experimentsInserted: nat, requestsInserted: nat)

  /** One directory entry; a file that cannot be read has no content. */
  datatype DirEntry = DirEntry(name: string, isDir: bool, content: Option<string>)

  /** Which database calls fail while one file is loaded; `lastId`: the row is inserted and its id
      not to be had. */
  datatype Faults = Faults(insert: bool, lastId: bool, begin: bool, prepare: bool, row: Option<nat>, commit: bool)

  function NullIfEmpty(id: string): Option<string> { if id == "" then None else Some(id) }

  function RowsFor(experimentId: nat, requests: seq<Request>): seq<RequestRow> {
    if requests == [] then []
    else RowsFor(experimentId, requests[..|requests| - 1])
         + [RequestRow(experimentId, requests[|requests| - 1], NullIfEmpty(requests[|requests| - 1].eventId))]
  }

  /** Rows that hold the requests of an experiment, one each in their order. */
  predicate RowsHold(rows: seq<RequestRow>, experimentId: nat, requests: seq<Request>) {
    && |rows| == |requests|
    && forall i | 0 <= i < |rows| ::
         && rows[i].experimentId == experimentId && rows[i].request == requests[i]
         && rows[i].eventId == if requests[i].eventId == "" then None else Some(requests[i].eventId)
  }

  lemma {:induction false} RowsForHold(id: nat, requests: seq<Request>)
    ensures RowsHold(RowsFor(id, requests), id, requests)
  {
    if requests != [] {
      var n := |requests| - 1;
      RowsForHold(id, requests[..n]);
      assert forall i | 0 <= i < n :: requests[..n][i] == requests[i];
    }
  }

  predicate RequestsFail(count: nat, f: Faults) {
    f.begin || f.prepare || (f.row.Some? && f.row.value < count) || f.commit
  }

  // ---------- what loading a directory does ----------

  predicate Before(a: F.Stamp, b: F.Stamp) {
    || a.year < b.year
    || (a.year == b.year && a.month < b.month)
    || (a.year == b.year && a.month == b.month && a.day < b.day)
    || (a.year == b.year && a.month == b.month && a.day == b.day && SecondsOfDay(a) < SecondsOfDay(b))
    || (a.year == b.year && a.month == b.month && a.day == b.day && SecondsOfDay(a) == SecondsOfDay(b) && a.nanos < b.nanos)
  }

  function SecondsOfDay(s: F.Stamp): nat { 3600 * s.hour + 60 * s.minute + s.second }

  /** What a directory entry contributes, if it is a recent, well-named, readable log file. */
  datatype Load = Load(row: ExperimentRow, requests: seq<Request>)

  function LoadOf(e: DirEntry, cutoff: F.Stamp): Option<Load> {
    if e.isDir || !HasSuffix(e.name, ".log") then None
    else
      match F.FilenameInfo(e.name)
      case Failure(_) => None
      case Success(info) =>
        if Before(info.timestamp, cutoff) then None
        else
          match FileOf(e.content)
          case Failure(_) => None
          case Success(config, requests) => Some(Load(ExperimentRow(info, config), requests))
  }

  /** After the experiment's row is inserted. */
  predicate LoadFails(l: Load, f: Faults) { f.lastId || (l.requests != [] && RequestsFail(|l.requests|, f)) }

  /** One file: nothing, an experiment alone, or an experiment with all of its requests. */
  function LoadOne(l: Load, f: Faults, t: Tables, s: Stats): (Tables, Stats) {
    if f.insert then (t, s)
    else
      var experiments := t.experiments + [l.row];
      if LoadFails(l, f) then (Tables(experiments, t.requests), s)
      else
        (Tables(experiments, t.requests + RowsFor(|experiments|, l.requests)),
         Stats(s.filesProcessed + 1, s.experimentsInserted + 1, s.requestsInserted + |l.requests|))
  }

  function LoadAll(entries: seq<DirEntry>, faults: seq<Faults>, cutoff: F.Stamp, t: Tables, s: Stats): (Tables, Stats)
    requires |faults| == |entries|
    decreases |entries|
  {
    if entries == [] then (t, s)
    else
      match LoadOf(entries[0], cutoff)
      case None => LoadAll(entries[1..], faults[1..], cutoff, t, s)
      case Some(l) =>
        var (t', s') := LoadOne(l, faults[0], t, s);
        LoadAll(entries[1..], faults[1..], cutoff, t', s')
  }

  // ---------- which files are loaded, and what a file adds ----------

  predicate Dated(s: F.Stamp) { F.ValidStamp(s) && s.nanos < 1_000_000_000 }

  /** The cutoff compares instants. */
  lemma BeforeIsEarlier(a: F.Stamp, b: F.Stamp)
    requires Dated(a) && Dated(b)
    ensures Before(a, b) <==> Instants.InstantOf(a, 0) < Instants.InstantOf(b, 0)
  {
    hide Instants.InstantOf, F.DaysIn;
    if Instants.EarlierDay(a, b) {
      Instants.EarlierInstant(a, b);
    } else if Instants.EarlierDay(b, a) {
      Instants.EarlierInstant(b, a);
    } else {
      Instants.SameDayInstant(a, b);
    }
  }

  /** A log file, not a directory, whose name is accepted, whose first two lines can be read, and
      whose time is the cutoff or later. */
  predicate Loadable(e: DirEntry, cutoff: F.Stamp)
    requires Dated(cutoff)
  {
    && !e.isDir && HasSuffix(e.name, ".log") && F.FilenameInfo(e.name).Success?
    && e.content.Some? && |Lines.ScanLines(e.content.value)| >= 2
    && (F.AcceptedStamp(e.name);
        Instants.InstantOf(F.FilenameInfo(e.name).value.timestamp, 0) >= Instants.InstantOf(cutoff, 0))
  }

  /** Nothing, for another entry or when its experiment is not inserted; otherwise its experiment, and
      the rows of its lines from the third on and the statistics unless a call fails. */
  predicate EntryAdds(e: DirEntry, f: Faults, cutoff: F.Stamp, t: Tables, s: Stats, t': Tables, s': Stats)
    requires Dated(cutoff)
  {
    if !Loadable(e, cutoff) || f.insert then t' == t && s' == s
    else
      var lines := Lines.ScanLines(e.content.value);
      var requests := LineRequests(lines[2..]);
      var n := |t.experiments| + 1;
      && t'.experiments == t.experiments + [ExperimentRow(F.FilenameInfo(e.name).value, ConfigOf(lines[1]))]
      && if f.lastId || (requests != [] && RequestsFail(|requests|, f)) then t'.requests == t.requests && s' == s
         else
           && t.requests <= t'.requests && RowsHold(t'.requests[|t.requests|..], n, requests)
           && s' == Stats(s.filesProcessed + 1, s.experimentsInserted + 1, s.requestsInserted + |requests|)
  }

  lemma LoadOfIs(e: DirEntry, cutoff: F.Stamp)
    requires Dated(cutoff)
    ensures LoadOf(e, cutoff) ==
            if !Loadable(e, cutoff) then None
            else
              var lines := Lines.ScanLines(e.content.value);
              Some(Load(ExperimentRow(F.FilenameInfo(e.name).value, ConfigOf(lines[1])), LineRequests(lines[2..])))
  {
    F.AcceptedStamp(e.name);
    hide Instants.InstantOf, Before, F.FilenameInfo, HasSuffix, ConfigOf, LineRequests, F.ValidStamp, Lines.ScanLines;
    if F.FilenameInfo(e.name).Success? {
      BeforeIsEarlier(F.FilenameInfo(e.name).value.timestamp, cutoff);
    }
  }

  lemma LoadOneAdds(e: DirEntry, f: Faults, cutoff: F.Stamp, t: Tables, s: Stats)
    requires Dated(cutoff)
    ensures match LoadOf(e, cutoff)
            case None => EntryAdds(e, f, cutoff, t, s, t, s)
            case Some(l) => EntryAdds(e, f, cutoff, t, s, LoadOne(l, f, t, s).0, LoadOne(l, f, t, s).1)
  {
    LoadOfIs(e, cutoff);
    hide Dated, Loadable, LoadOf, ConfigOf, LineRequests, Lines.ScanLines, RowsHold, F.FilenameInfo, HasSuffix;
    if Loadable(e, cutoff) {
      OneAdds(LoadOf(e, cutoff).value, f, t, s);
      hide LoadOne, RequestsFail;
    }
  }

  lemma OneAdds(l: Load, f: Faults, t: Tables, s: Stats)
    ensures var (t', s') := LoadOne(l, f, t, s);
            if f.insert then t' == t && s' == s
            else
              && t'.experiments == t.experiments + [l.row]
              && if f.lastId || (l.requests != [] && RequestsFail(|l.requests|, f)) then t'.requests == t.requests && s' == s
                 else
                   && t.requests <= t'.requests && RowsHold(t'.requests[|t.requests|..], |t.experiments| + 1, l.requests)
                   && s' == Stats(s.filesProcessed + 1, s.experimentsInserted + 1, s.requestsInserted + |l.requests|)
  {
    RowsForHold(|t.experiments| + 1, l.requests);
    hide RowsFor, RowsHold, RequestsFail;
    assert (t.requests + RowsFor(|t.experiments| + 1, l.requests))[|t.requests|..] == RowsFor(|t.experiments| + 1, l.requests);
  }

  // ---------- the program ----------

  class Database {
    var experiments: seq<ExperimentRow>
    var requests: seq<RequestRow>

    constructor ()
      ensures experiments == [] && requests == []
    {
      experiments, requests := [], [];
    }

    function View(): Tables
      reads this
    {
      Tables(experiments, requests)
    }

    /** One statement outside any transaction. */
    method InsertExperiment(info: F.Info, config: Config, f: Faults) returns (id: Option<nat>)
      modifies this`experiments
      ensures experiments == if f.insert then old(experiments) else old(experiments) + [ExperimentRow(info, config)]
      ensures id == if f.insert || f.lastId then None else Some(|experiments|)
    {
      if f.insert {
        return None;
      }
      experiments := experiments + [ExperimentRow(info, config)];
      if f.lastId {
        return None;
      }
      id := Some(|experiments|);
    }

    /** One transaction: rows are pending until the commit and dropped by the rollback. */
    method InsertRequests(experimentId: nat, reqs: seq<Request>, f: Faults) returns (ok: bool)
      modifies this`requests
      ensures ok <==> !f.begin && !f.prepare && !f.commit && (f.row.None? || f.row.value >= |reqs|)
      ensures ok ==> requests == old(requests) + RowsFor(experimentId, reqs)
      ensures ok ==> old(requests) <= requests && RowsHold(requests[|old(requests)|..], experimentId, reqs)
      ensures !ok ==> requests == old(requests)
    {
      if f.begin || f.prepare {
        return false;
      }
      var pending: seq<RequestRow> := [];
      var i := 0;
      while i < |reqs|
        invariant 0 <= i <= |reqs|
        invariant pending == RowsFor(experimentId, reqs[..i])
        invariant f.row.Some? ==> f.row.value >= i
      {
        if f.row == Some(i) {
          return false;
        }
        var eventId := if reqs[i].eventId == "" then None else Some(reqs[i].eventId);
        pending := pending + [RequestRow(experimentId, reqs[i], eventId)];
        assert reqs[..i + 1][..i] == reqs[..i];
        i := i + 1;
      }
      assert reqs[..i] == reqs;
      if f.commit {
        return false;
      }
      requests := requests + pending;
      RowsForHold(experimentId, reqs);
      assert requests[|old(requests)|..] == pending;
      ok := true;
    }

    /** The body of the loop over the directory. */
    method ProcessEntry(entry: DirEntry, f: Faults, cutoff: F.Stamp, before: Stats) returns (stats: Stats)
      modifies this
      ensures LoadOf(entry, cutoff).None? ==> View() == old(View()) && stats == before
      ensures LoadOf(entry, cutoff).Some? ==>
        (View(), stats) == LoadOne(LoadOf(entry, cutoff).value, f, old(View()), before)
      ensures Dated(cutoff) ==> EntryAdds(entry, f, cutoff, old(View()), before, View(), stats)
    {
      hide LoadOf, LoadOne, EntryAdds, Dated, View;
      if Dated(cutoff) {
        LoadOneAdds(entry, f, cutoff, View(), before);
      }
      stats := LoadEntry(entry, f, cutoff, before);
    }

    method LoadEntry(entry: DirEntry, f: Faults, cutoff: F.Stamp, before: Stats) returns (stats: Stats)
      modifies this
      ensures LoadOf(entry, cutoff).None? ==> View() == old(View()) && stats == before
      ensures LoadOf(entry, cutoff).Some? ==>
        (View(), stats) == LoadOne(LoadOf(entry, cutoff).value, f, old(View()), before)
    {
      hide RowsFor, RowsHold, Before, F.FilenameInfo, FileOf, HasSuffix;
      stats := before;
      if entry.isDir || !HasSuffix(entry.name, ".log") {
        return;
      }
      var expInfo := F.ParseFilename(entry.name);
      if expInfo.Failure? {
        return;
      }
      if Before(expInfo.value.timestamp, cutoff) {
        return;
      }
      var file := ProcessFile(entry.content);
      if file.Failure? {
        return;
      }
      assert LoadOf(entry, cutoff) == Some(Load(ExperimentRow(expInfo.value, file.config), file.requests));
      var expID := InsertExperiment(expInfo.value, file.config, f);
      if expID.None? {
        return;
      }
      if |file.requests| > 0 {
        var ok := InsertRequests(expID.value, file.requests, f);
        if !ok {
          return;
        }
      } else {
        NoRows(expID.value);
        assert file.requests == [] && requests + [] == requests;
      }
      stats := stats.(filesProcessed := stats.filesProcessed + 1);
      stats := stats.(experimentsInserted := stats.experimentsInserted + 1);
      stats := stats.(requestsInserted := stats.requestsInserted + |file.requests|);
    }

    /** The directory is given by its entries, or by nothing when it cannot be read. */
    method ProcessLogs(directory: Option<seq<DirEntry>>, faults: seq<Faults>, cutoff: F.Stamp) returns (result: Option<Stats>)
      requires directory.Some? ==> |faults| == |directory.value|
      modifies this
      ensures directory.None? ==> result == None && View() == old(View())
      ensures directory.Some? ==>
        result.Some? && (View(), result.value) == LoadAll(directory.value, faults, cutoff, old(View()), Stats(0, 0, 0))
    {
      if directory.None? {
        return None;
      }
      hide LoadOf, LoadOne;
      var entries := directory.value;
      var stats := Stats(0, 0, 0);
      var i := 0;
      while i < |entries|
        invariant 0 <= i <= |entries|
        invariant LoadAll(entries, faults, cutoff, old(View()), Stats(0, 0, 0))
               == LoadAll(entries[i..], faults[i..], cutoff, View(), stats)
      {
        assert entries[i..][1..] == entries[i + 1..] && faults[i..][1..] == faults[i + 1..];
        stats := ProcessEntry(entries[i], faults[i], cutoff, stats);
        i := i + 1;
      }
      result := Some(stats);
    }
  }

  lemma NoRows(id: nat)
    ensures RowsFor(id, []) == []
  {
  }

  // ---------- entry by entry, in the directory's order ----------

  /** The entries before the last have been dealt with when it is its turn. */
  lemma {:induction false} LoadInOrder(entries: seq<DirEntry>, faults: seq<Faults>, cutoff: F.Stamp, t: Tables, s: Stats)
    requires |faults| == |entries| > 0 && Dated(cutoff)
    ensures var n := |entries| - 1;
            var (t0, s0) := LoadAll(entries[..n], faults[..n], cutoff, t, s);
            var (t1, s1) := LoadAll(entries, faults, cutoff, t, s);
            EntryAdds(entries[n], faults[n], cutoff, t0, s0, t1, s1)
    decreases |entries|
  {
    var n := |entries| - 1;
    hide LoadOf, LoadOne, EntryAdds, Dated;
    if n == 0 {
      LoadOneAdds(entries[0], faults[0], cutoff, t, s);
      assert entries[1..] == [] && faults[1..] == [];
    } else {
      assert entries[..n][0] == entries[0] && faults[..n][0] == faults[0];
      assert entries[..n][1..] == entries[1..][..n - 1] && faults[..n][1..] == faults[1..][..n - 1];
      assert entries[1..][n - 1] == entries[n] && faults[1..][n - 1] == faults[n];
      match LoadOf(entries[0], cutoff) {
        case None => LoadInOrder(entries[1..], faults[1..], cutoff, t, s);
        case Some(l) =>
          var (t', s') := LoadOne(l, faults[0], t, s);
          LoadInOrder(entries[1..], faults[1..], cutoff, t', s');
      }
    }
  }

  // ---------- the books balance ----------

  /** An experiment inserted and not counted: its id was lost, or its requests were not inserted. */
  predicate Orphaned(l: Load, f: Faults, lost: bool) {
    && !f.insert && f.lastId == lost
    && (lost || (l.requests != [] && RequestsFail(|l.requests|, f)))
  }

  /** The files orphaned one way or the other. */
  function Orphans(entries: seq<DirEntry>, faults: seq<Faults>, cutoff: F.Stamp, lost: bool): nat
    requires |faults| == |entries|
  {
    if entries == [] then 0
    else
      (match LoadOf(entries[0], cutoff)
       case None => 0
       case Some(l) => if Orphaned(l, faults[0], lost) then 1 else 0)
      + Orphans(entries[1..], faults[1..], cutoff, lost)
  }

  /** Every request row refers to an experiment row. */
  predicate Referential(t: Tables) {
    forall r | r in t.requests :: 1 <= r.experimentId <= |t.experiments|
  }

  lemma {:induction false} RowsForFacts(id: nat, requests: seq<Request>)
    ensures |RowsFor(id, requests)| == |requests|
    ensures forall r | r in RowsFor(id, requests) :: r.experimentId == id
  {
    if requests != [] {
      RowsForFacts(id, requests[..|requests| - 1]);
    }
  }

  lemma OneBalances(l: Load, f: Faults, t: Tables, s: Stats)
    requires Referential(t)
    ensures var (t', s') := LoadOne(l, f, t, s);
            && Referential(t')
            && t.experiments <= t'.experiments && t.requests <= t'.requests
            && |t'.requests| - |t.requests| == s'.requestsInserted - s.requestsInserted
            && s'.filesProcessed - s.filesProcessed == s'.experimentsInserted - s.experimentsInserted
            && |t'.experiments| - |t.experiments| == s'.experimentsInserted - s.experimentsInserted
               + (if Orphaned(l, f, false) then 1 else 0) + if Orphaned(l, f, true) then 1 else 0
  {
    hide RequestsFail;
    RowsForFacts(|t.experiments| + 1, l.requests);
    hide RowsFor;
    var (t', s') := LoadOne(l, f, t, s);
    assert forall r :: r in t'.requests ==> r in t.requests || r in RowsFor(|t.experiments| + 1, l.requests);
  }

  /** Over every directory and every pattern of failures. The experiment rows not counted are the
      files whose request insert failed, and those whose row was inserted without giving its id. */
  lemma {:induction false} LedgerBalances(entries: seq<DirEntry>, faults: seq<Faults>, cutoff: F.Stamp, t: Tables, s: Stats)
    requires |faults| == |entries| && Referential(t)
    ensures var (t', s') := LoadAll(entries, faults, cutoff, t, s);
            && Referential(t')
            && t.experiments <= t'.experiments && t.requests <= t'.requests
            && |t'.requests| - |t.requests| == s'.requestsInserted - s.requestsInserted
            && s'.filesProcessed - s.filesProcessed == s'.experimentsInserted - s.experimentsInserted
            && |t'.experiments| - |t.experiments|
               == s'.experimentsInserted - s.experimentsInserted
                  + Orphans(entries, faults, cutoff, false) + Orphans(entries, faults, cutoff, true)
    decreases |entries|
  {
    if entries != [] {
      hide LoadOne, LoadOf, Orphaned, Referential;
      match LoadOf(entries[0], cutoff) {
        case None => LedgerBalances(entries[1..], faults[1..], cutoff, t, s);
        case Some(l) =>
          OneBalances(l, faults[0], t, s);
          var (t', s') := LoadOne(l, faults[0], t, s);
          LedgerBalances(entries[1..], faults[1..], cutoff, t', s');
      }
    }
  }

  // ---------- all of a file's rows, or none ----------

  function RowsWith(rows: seq<RequestRow>, id: nat): seq<RequestRow> {
    if rows == [] then []
    else (if rows[0].experimentId == id then [rows[0]] else []) + RowsWith(rows[1..], id)
  }

  lemma {:induction false} RowsWithAppend(x: seq<RequestRow>, y: seq<RequestRow>, id: nat)
    ensures RowsWith(x + y, id) == RowsWith(x, id) + RowsWith(y, id)
  {
    if x == [] {
      assert x + y == y;
    } else {
      var own := if x[0].experimentId == id then [x[0]] else [];
      RowsWithAppend(x[1..], y, id);
      assert (x + y)[0] == x[0] && (x + y)[1..] == x[1..] + y;
      assert RowsWith(x, id) == own + RowsWith(x[1..], id);
      assert RowsWith(x + y, id) == own + RowsWith(x[1..] + y, id);
      hide RowsWith;
    }
  }

  lemma {:induction false} RowsWithUniform(rows: seq<RequestRow>, owner: nat, id: nat)
    requires forall r | r in rows :: r.experimentId == owner
    ensures RowsWith(rows, id) == if id == owner then rows else []
  {
    if rows != [] {
      assert rows[0] in rows && forall r | r in rows[1..] :: r in rows;
      RowsWithUniform(rows[1..], owner, id);
    }
  }

  lemma {:induction false} RowsWithNone(rows: seq<RequestRow>, id: nat)
    requires forall r | r in rows :: r.experimentId != id
    ensures RowsWith(rows, id) == []
  {
    if rows != [] {
      assert rows[0] in rows && forall r | r in rows[1..] :: r in rows;
      RowsWithNone(rows[1..], id);
    }
  }

  /** An experiment row is a file's, with all of the file's request rows or with none. */
  predicate WholeOrNone(l: Load, t: Tables, id: nat) {
    && 1 <= id <= |t.experiments| && t.experiments[id - 1] == l.row
    && (RowsWith(t.requests, id) == [] || RowsHold(RowsWith(t.requests, id), id, l.requests))
  }

  predicate FromEntries(entries: seq<DirEntry>, cutoff: F.Stamp, t: Tables, id: nat) {
    exists e :: e in entries && LoadOf(e, cutoff).Some? && WholeOrNone(LoadOf(e, cutoff).value, t, id)
  }

  /** Loading a file changes no earlier experiment. */
  lemma OneKeepsOthers(l: Load, f: Faults, t: Tables, s: Stats, id: nat)
    requires id <= |t.experiments|
    ensures var t' := LoadOne(l, f, t, s).0;
            RowsWith(t'.requests, id) == RowsWith(t.requests, id)
            && (id > 0 ==> t'.experiments[id - 1] == t.experiments[id - 1])
  {
    var n := |t.experiments| + 1;
    var rows := RowsFor(n, l.requests);
    RowsForFacts(n, l.requests);
    RowsWithUniform(rows, n, id);
    RowsWithAppend(t.requests, rows, id);
    hide RowsFor, RowsWith, LoadFails;
    assert RowsWith(t.requests, id) + [] == RowsWith(t.requests, id);
  }

  lemma OneWholeOrNone(l: Load, f: Faults, t: Tables, s: Stats)
    requires Referential(t) && !f.insert
    ensures WholeOrNone(l, LoadOne(l, f, t, s).0, |t.experiments| + 1)
  {
    var n := |t.experiments| + 1;
    var rows := RowsFor(n, l.requests);
    RowsForFacts(n, l.requests);
    RowsWithUniform(rows, n, n);
    RowsWithNone(t.requests, n);
    RowsWithAppend(t.requests, rows, n);
    RowsForHold(n, l.requests);
    hide RowsFor, RowsWith, RowsHold, LoadFails;
    assert [] + rows == rows;
  }

  lemma {:induction false} LaterKeepsRows(entries: seq<DirEntry>, faults: seq<Faults>, cutoff: F.Stamp, t: Tables, s: Stats, id: nat)
    requires |faults| == |entries| && 1 <= id <= |t.experiments|
    ensures var t' := LoadAll(entries, faults, cutoff, t, s).0;
            && |t.experiments| <= |t'.experiments|
            && RowsWith(t'.requests, id) == RowsWith(t.requests, id)
            && t'.experiments[id - 1] == t.experiments[id - 1]
    decreases |entries|
  {
    if entries != [] {
      hide LoadOf, RowsWith;
      match LoadOf(entries[0], cutoff) {
        case None => LaterKeepsRows(entries[1..], faults[1..], cutoff, t, s, id);
        case Some(l) =>
          OneKeepsOthers(l, faults[0], t, s, id);
          var (t', s') := LoadOne(l, faults[0], t, s);
          LaterKeepsRows(entries[1..], faults[1..], cutoff, t', s', id);
      }
    }
  }

  /** Every new experiment belongs to a file of the directory, whole or without requests. */
  lemma {:induction false} AllOrNone(entries: seq<DirEntry>, faults: seq<Faults>, cutoff: F.Stamp, t: Tables, s: Stats, id: nat)
    requires |faults| == |entries| && Referential(t)
    requires |t.experiments| < id <= |LoadAll(entries, faults, cutoff, t, s).0.experiments|
    ensures FromEntries(entries, cutoff, LoadAll(entries, faults, cutoff, t, s).0, id)
    decreases |entries|
  {
    hide LoadOf, RowsWith, RowsFor, RowsHold, Referential, LoadFails;
    match LoadOf(entries[0], cutoff) {
      case None =>
        AllOrNone(entries[1..], faults[1..], cutoff, t, s, id);
        Widen(entries, cutoff, LoadAll(entries, faults, cutoff, t, s).0, id);
      case Some(l) =>
        var (t1, s1) := LoadOne(l, faults[0], t, s);
        OneBalances(l, faults[0], t, s);
        if id <= |t1.experiments| {
          OneWholeOrNone(l, faults[0], t, s);
          LaterKeepsRows(entries[1..], faults[1..], cutoff, t1, s1, id);
          assert WholeOrNone(LoadOf(entries[0], cutoff).value, LoadAll(entries, faults, cutoff, t, s).0, id);
        } else {
          AllOrNone(entries[1..], faults[1..], cutoff, t1, s1, id);
          Widen(entries, cutoff, LoadAll(entries, faults, cutoff, t, s).0, id);
        }
    }
  }

  lemma Widen(entries: seq<DirEntry>, cutoff: F.Stamp, t: Tables, id: nat)
    requires entries != [] && FromEntries(entries[1..], cutoff, t, id)
    ensures FromEntries(entries, cutoff, t, id)
  {
    hide LoadOf, WholeOrNone;
    var e :| e in entries[1..] && LoadOf(e, cutoff).Some? && WholeOrNone(LoadOf(e, cutoff).value, t, id);
    assert e in entries;
  }
}
