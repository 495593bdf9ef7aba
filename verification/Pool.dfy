/** The pools of pkg/connection/pool.go: the counting mock, and the clock readings of a real request. */
module Pool {
  import opened Options

  // ---------- the mock ----------

  /** What the mock answers: status 200, an empty body, no time measured. */
  datatype Reply = Reply(status: int, body: string, ttfb: int, total: int)

  type Counts = map<nat, nat>

  /** Every target at zero. */
  function Zeros(n: nat): (m: Counts)
    ensures forall t: nat :: (t in m <==> t < n) && (t in m ==> m[t] == 0)
  {
    if n == 0 then map[] else Zeros(n - 1)[n - 1 := 0]
  }

  function Bump(m: Counts, target: nat): Counts { m[target := (if target in m then m[target] else 0) + 1] }

  function Bumps(m: Counts, calls: seq<nat>): Counts {
    if calls == [] then m else Bump(Bumps(m, calls[..|calls| - 1]), calls[|calls| - 1])
  }

  /** A map of counters under a mutex: each method is one critical section. */
  class PoolMock {
    var targets: Counts

    constructor (n: nat)
      ensures targets == Zeros(n)
    {
      targets := map[];
      new;
      for t := 0 to n
        invariant targets == Zeros(t)
      {
        targets := targets[t := 0];
      }
    }

    method Get(target: nat) returns (reply: Reply)
      modifies this
      ensures targets == Bump(old(targets), target) && reply == Reply(200, "", 0, 0)
    {
      targets := targets[target := (if target in targets then targets[target] else 0) + 1];
      reply := Reply(200, "", 0, 0);
    }

    method Post(target: nat, body: string) returns (reply: Reply)
      modifies this
      ensures targets == Bump(old(targets), target) && reply == Reply(200, "", 0, 0)
    {
      targets := targets[target := (if target in targets then targets[target] else 0) + 1];
      reply := Reply(200, "", 0, 0);
    }

    method GenerateCloudEvent(target: nat, event: string) returns (reply: Reply)
      modifies this
      ensures targets == Bump(old(targets), target) && reply == Reply(200, "", 0, 0)
    {
      targets := targets[target := (if target in targets then targets[target] else 0) + 1];
      reply := Reply(200, "", 0, 0);
    }
  }

  /** In whatever order the critical sections come, each target has been counted once a call. */
  lemma {:induction false} CallsCounted(m: Counts, calls: seq<nat>, t: nat)
    ensures t in Bumps(m, calls) <==> t in m || t in calls
    ensures t in Bumps(m, calls) ==> Bumps(m, calls)[t] == (if t in m then m[t] else 0) + multiset(calls)[t]
  {
    if calls != [] {
      var n := |calls| - 1;
      assert calls == calls[..n] + [calls[n]];
      CallsCounted(m, calls[..n], t);
    }
  }

  lemma OrderIrrelevant(m: Counts, xs: seq<nat>, ys: seq<nat>)
    requires multiset(xs) == multiset(ys)
    ensures Bumps(m, xs) == Bumps(m, ys)
  {
    forall t: nat
      ensures t in Bumps(m, xs) <==> t in Bumps(m, ys)
      ensures t in Bumps(m, xs) ==> Bumps(m, xs)[t] == Bumps(m, ys)[t]
    {
      CallsCounted(m, xs, t);
      CallsCounted(m, ys, t);
      assert t in xs <==> t in multiset(xs);
      assert t in ys <==> t in multiset(ys);
    }
  }

  // ---------- executeWithMetrics ----------

  datatype Hook = DnsStart | DnsDone | ConnectStart | ConnectDone | TlsStart | TlsDone | FirstByte

  /** A callback of the HTTP trace and the clock when it runs. */
  datatype Traced = Traced(hook: Hook, at: int)

  datatype Timing = Timing(dns: int, connect: int, tls: int, ttfb: int, total: int)

  /** time.Since of a time never set: the longest duration. */
  const FOREVER: int := 0x7FFF_FFFF_FFFF_FFFF

  function Since(from: Option<int>, now: int): int { if from.Some? then now - from.value else FOREVER }

  /** When the hook last ran. */
  function LastAt(trace: seq<Traced>, hook: Hook): Option<int> {
    if trace == [] then None
    else
      var e := trace[|trace| - 1];
      if e.hook == hook then Some(e.at) else LastAt(trace[..|trace| - 1], hook)
  }

  /** The time from the last start before the last end to that end; zero when it never ended. */
  function Phase(trace: seq<Traced>, start: Hook, done: Hook): int {
    if trace == [] then 0
    else
      var n := |trace| - 1;
      if trace[n].hook == done then Since(LastAt(trace[..n], start), trace[n].at) else Phase(trace[..n], start, done)
  }

  function TimingOf(start: int, trace: seq<Traced>, finish: int): Timing {
    Timing(Phase(trace, DnsStart, DnsDone), Phase(trace, ConnectStart, ConnectDone), Phase(trace, TlsStart, TlsDone),
           if LastAt(trace, FirstByte).Some? then LastAt(trace, FirstByte).value - start else 0, finish - start)
  }

  lemma TraceStep(trace: seq<Traced>, e: Traced, start: Hook, done: Hook)
    requires start != done
    ensures LastAt(trace + [e], start) == if e.hook == start then Some(e.at) else LastAt(trace, start)
    ensures Phase(trace + [e], start, done)
         == if e.hook == done then Since(LastAt(trace, start), e.at) else Phase(trace, start, done)
  {
    assert (trace + [e])[..|trace|] == trace;
  }

  // What the times mean, by the places of the callbacks.

  /** The last of a hook's callbacks among the first n. */
  predicate Latest(trace: seq<Traced>, n: nat, k: int, hook: Hook) {
    0 <= k < n <= |trace| && trace[k].hook == hook && forall j | k < j < n :: trace[j].hook != hook
  }

  predicate Absent(trace: seq<Traced>, n: nat, hook: Hook) {
    n <= |trace| && forall j | 0 <= j < n :: trace[j].hook != hook
  }

  /** From the last first byte; zero when there was none. */
  ghost predicate FirstByteIs(start: int, trace: seq<Traced>, ttfb: int) {
    && (forall k | Latest(trace, |trace|, k, FirstByte) :: ttfb == trace[k].at - start)
    && (Absent(trace, |trace|, FirstByte) ==> ttfb == 0)
  }

  /** The end at place k of the phase begun at place j. */
  predicate Ends(trace: seq<Traced>, start: Hook, done: Hook, k: int, j: int) {
    Latest(trace, |trace|, k, done) && Latest(trace, k, j, start)
  }

  predicate EndsUnbegun(trace: seq<Traced>, start: Hook, done: Hook, k: int) {
    Latest(trace, |trace|, k, done) && Absent(trace, k, start)
  }

  /** From the last start before the last end to that end; the longest duration when nothing started
      it, zero when nothing ended it. */
  ghost predicate PhaseIs(trace: seq<Traced>, start: Hook, done: Hook, time: int) {
    && (forall k, j | Ends(trace, start, done, k, j) :: time == trace[k].at - trace[j].at)
    && (forall k | EndsUnbegun(trace, start, done, k) :: time == 0x7FFF_FFFF_FFFF_FFFF)
    && (Absent(trace, |trace|, done) ==> time == 0)
  }

  lemma {:induction false} LastIs(trace: seq<Traced>, n: nat, k: int, hook: Hook)
    requires Latest(trace, n, k, hook)
    ensures LastAt(trace[..n], hook) == Some(trace[k].at)
  {
    assert trace[..n][..n - 1] == trace[..n - 1];
    if k < n - 1 {
      LastIs(trace, n - 1, k, hook);
    }
  }

  lemma {:induction false} LastIsNone(trace: seq<Traced>, n: nat, hook: Hook)
    requires Absent(trace, n, hook)
    ensures LastAt(trace[..n], hook) == None
  {
    if n > 0 {
      assert trace[..n][..n - 1] == trace[..n - 1];
      LastIsNone(trace, n - 1, hook);
    }
  }

  lemma {:induction false} PhaseIsSince(trace: seq<Traced>, n: nat, k: int, start: Hook, done: Hook)
    requires Latest(trace, n, k, done)
    ensures Phase(trace[..n], start, done) == Since(LastAt(trace[..k], start), trace[k].at)
  {
    hide LastAt;
    assert trace[..n][..n - 1] == trace[..n - 1];
    if k < n - 1 {
      PhaseIsSince(trace, n - 1, k, start, done);
    }
  }

  lemma {:induction false} PhaseIsZero(trace: seq<Traced>, n: nat, start: Hook, done: Hook)
    requires Absent(trace, n, done)
    ensures Phase(trace[..n], start, done) == 0
  {
    hide LastAt;
    if n > 0 {
      assert trace[..n][..n - 1] == trace[..n - 1];
      PhaseIsZero(trace, n - 1, start, done);
    }
  }

  lemma PhaseMeasured(trace: seq<Traced>, k: int, j: int, start: Hook, done: Hook)
    requires Ends(trace, start, done, k, j)
    ensures Phase(trace, start, done) == trace[k].at - trace[j].at
  {
    assert trace[..|trace|] == trace;
    PhaseIsSince(trace, |trace|, k, start, done);
    LastIs(trace, k, j, start);
    hide Phase, LastAt;
  }

  lemma PhaseUnbegun(trace: seq<Traced>, k: int, start: Hook, done: Hook)
    requires EndsUnbegun(trace, start, done, k)
    ensures Phase(trace, start, done) == FOREVER
  {
    assert trace[..|trace|] == trace;
    PhaseIsSince(trace, |trace|, k, start, done);
    LastIsNone(trace, k, start);
    hide Phase, LastAt;
  }

  lemma PhaseUnended(trace: seq<Traced>, start: Hook, done: Hook)
    requires Absent(trace, |trace|, done)
    ensures Phase(trace, start, done) == 0
  {
    assert trace[..|trace|] == trace;
    PhaseIsZero(trace, |trace|, start, done);
  }

  lemma EndsWithin(trace: seq<Traced>, start: Hook, done: Hook)
    ensures forall k, j | Ends(trace, start, done, k, j) :: 0 <= j < k < |trace|
  {
  }

  lemma PhaseMeans(trace: seq<Traced>, start: Hook, done: Hook)
    ensures PhaseIs(trace, start, done, Phase(trace, start, done))
  {
    EndsWithin(trace, start, done);
    hide Phase, LastAt, Latest, Absent, Ends, EndsUnbegun;
    forall k, j | Ends(trace, start, done, k, j) ensures Phase(trace, start, done) == trace[k].at - trace[j].at {
      PhaseMeasured(trace, k, j, start, done);
    }
    forall k | EndsUnbegun(trace, start, done, k) ensures Phase(trace, start, done) == FOREVER {
      PhaseUnbegun(trace, k, start, done);
    }
    if Absent(trace, |trace|, done) {
      PhaseUnended(trace, start, done);
    }
  }

  lemma FirstByteMeans(start: int, trace: seq<Traced>, finish: int)
    ensures FirstByteIs(start, trace, TimingOf(start, trace, finish).ttfb)
  {
    hide Phase, LastAt;
    assert trace[..|trace|] == trace;
    forall k | Latest(trace, |trace|, k, FirstByte) ensures LastAt(trace, FirstByte) == Some(trace[k].at) {
      LastIs(trace, |trace|, k, FirstByte);
    }
    if Absent(trace, |trace|, FirstByte) {
      LastIsNone(trace, |trace|, FirstByte);
    }
    hide Latest, Absent;
  }

  lemma TimingMeans(start: int, trace: seq<Traced>, finish: int)
    ensures var t := TimingOf(start, trace, finish);
            && FirstByteIs(start, trace, t.ttfb) && t.total == finish - start
            && PhaseIs(trace, DnsStart, DnsDone, t.dns) && PhaseIs(trace, ConnectStart, ConnectDone, t.connect)
            && PhaseIs(trace, TlsStart, TlsDone, t.tls)
  {
    FirstByteMeans(start, trace, finish);
    PhaseMeans(trace, DnsStart, DnsDone);
    PhaseMeans(trace, ConnectStart, ConnectDone);
    PhaseMeans(trace, TlsStart, TlsDone);
    hide Phase, LastAt, PhaseIs, FirstByteIs;
  }

  /** The callbacks assign to the metrics and to the start times; the last assignment stands. */
  method ExecuteWithMetrics(start: int, trace: seq<Traced>, finish: int, ok: bool) returns (metrics: Option<Timing>)
    ensures metrics == if ok then Some(TimingOf(start, trace, finish)) else None
    ensures ok ==>
      && metrics.Some? && metrics.value.total == finish - start && FirstByteIs(start, trace, metrics.value.ttfb)
      && PhaseIs(trace, DnsStart, DnsDone, metrics.value.dns)
      && PhaseIs(trace, ConnectStart, ConnectDone, metrics.value.connect)
      && PhaseIs(trace, TlsStart, TlsDone, metrics.value.tls)
  {
    TimingMeans(start, trace, finish);
    hide PhaseIs, FirstByteIs;
    var dnsStart, connectStart, tlsStart: Option<int> := None, None, None;
    var dns, connect, tls, ttfb := 0, 0, 0, 0;
    for i := 0 to |trace|
      invariant dnsStart == LastAt(trace[..i], DnsStart) && dns == Phase(trace[..i], DnsStart, DnsDone)
      invariant connectStart == LastAt(trace[..i], ConnectStart) && connect == Phase(trace[..i], ConnectStart, ConnectDone)
      invariant tlsStart == LastAt(trace[..i], TlsStart) && tls == Phase(trace[..i], TlsStart, TlsDone)
      invariant ttfb == if LastAt(trace[..i], FirstByte).Some? then LastAt(trace[..i], FirstByte).value - start else 0
    {
      var e := trace[i];
      assert trace[..i + 1] == trace[..i] + [e];
      TraceStep(trace[..i], e, DnsStart, DnsDone);
      TraceStep(trace[..i], e, ConnectStart, ConnectDone);
      TraceStep(trace[..i], e, TlsStart, TlsDone);
      TraceStep(trace[..i], e, FirstByte, DnsDone);
      hide LastAt, Phase;
      match e.hook {
        case DnsStart => dnsStart := Some(e.at);
        case DnsDone => dns := Since(dnsStart, e.at);
        case ConnectStart => connectStart := Some(e.at);
        case ConnectDone => connect := Since(connectStart, e.at);
        case TlsStart => tlsStart := Some(e.at);
        case TlsDone => tls := Since(tlsStart, e.at);
        case FirstByte => ttfb := e.at - start;
      }
    }
    assert trace[..|trace|] == trace;
    metrics := if ok then Some(Timing(dns, connect, tls, ttfb, finish - start)) else None;
  }

  /** Readings of one monotone clock, in the order of the callbacks. */
  predicate Monotone(start: int, trace: seq<Traced>, finish: int) {
    && start <= finish
    && (forall i | 0 <= i < |trace| :: start <= trace[i].at <= finish)
    && (forall i, j | 0 <= i < j < |trace| :: trace[i].at <= trace[j].at)
  }

  /** Every end follows some start of its kind. */
  predicate Started(trace: seq<Traced>, start: Hook, done: Hook) {
    forall i | 0 <= i < |trace| && trace[i].hook == done :: LastAt(trace[..i], start).Some?
  }

  lemma {:induction false} LastWithin(start: int, trace: seq<Traced>, finish: int, hook: Hook)
    requires Monotone(start, trace, finish)
    ensures LastAt(trace, hook).Some? ==>
              start <= LastAt(trace, hook).value <= finish
              && (trace != [] ==> LastAt(trace, hook).value <= trace[|trace| - 1].at)
  {
    if trace != [] {
      LastWithin(start, trace[..|trace| - 1], finish, hook);
    }
  }

  lemma Front(start: int, trace: seq<Traced>, finish: int)
    requires trace != [] && Monotone(start, trace, finish)
    ensures Monotone(start, trace[..|trace| - 1], finish)
    ensures trace[|trace| - 1].at <= finish
    ensures |trace| > 1 ==> trace[|trace| - 2].at <= trace[|trace| - 1].at
    ensures start <= trace[|trace| - 1].at
  {
  }

  lemma StartedFront(trace: seq<Traced>, from: Hook, to: Hook)
    requires trace != [] && Started(trace, from, to)
    ensures Started(trace[..|trace| - 1], from, to)
    ensures trace[|trace| - 1].hook == to ==> LastAt(trace[..|trace| - 1], from).Some?
  {
    hide LastAt;
    var n := |trace| - 1;
    assert forall i | 0 <= i < n :: trace[..n][..i] == trace[..i];
  }

  lemma {:induction false} PhaseWithin(start: int, trace: seq<Traced>, finish: int, from: Hook, to: Hook)
    requires Monotone(start, trace, finish)
    ensures 0 <= Phase(trace, from, to) && (Phase(trace, from, to) <= finish - start || Phase(trace, from, to) == FOREVER)
    ensures Started(trace, from, to) ==> Phase(trace, from, to) <= finish - start
  {
    assert start <= finish;
    if trace != [] {
      var n := |trace| - 1;
      Front(start, trace, finish);
      LastWithin(start, trace[..n], finish, from);
      if Started(trace, from, to) {
        StartedFront(trace, from, to);
      }
      hide Monotone, Started, LastAt;
      if trace[n].hook != to {
        PhaseWithin(start, trace[..n], finish, from, to);
      } else if n > 0 {
        assert trace[..n][n - 1] == trace[n - 1];
      } else {
        assert trace[..n] == [];
        NoneYet(from);
      }
    }
  }

  lemma NoneYet(hook: Hook)
    ensures LastAt([], hook) == None
  {
  }

  /** The first byte never comes after completion, no phase that was started takes longer than the
      whole, and one that was not counts as the longest duration. */
  lemma TimesOrdered(start: int, trace: seq<Traced>, finish: int)
    requires Monotone(start, trace, finish)
    ensures var t := TimingOf(start, trace, finish);
            && 0 <= t.ttfb <= t.total == finish - start
            && 0 <= t.dns && (t.dns <= t.total || t.dns == FOREVER)
            && 0 <= t.connect && (t.connect <= t.total || t.connect == FOREVER)
            && 0 <= t.tls && (t.tls <= t.total || t.tls == FOREVER)
            && (Started(trace, DnsStart, DnsDone) ==> t.dns <= t.total)
            && (Started(trace, ConnectStart, ConnectDone) ==> t.connect <= t.total)
            && (Started(trace, TlsStart, TlsDone) ==> t.tls <= t.total)
  {
    LastWithin(start, trace, finish, FirstByte);
    PhaseWithin(start, trace, finish, DnsStart, DnsDone);
    PhaseWithin(start, trace, finish, ConnectStart, ConnectDone);
    PhaseWithin(start, trace, finish, TlsStart, TlsDone);
    hide LastAt, Phase, Started;
  }
}
