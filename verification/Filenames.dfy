/** Log file names: printed by pkg/store/store.go, parsed by parseFilename in cmd/logparser/main.go. */
module Filenames {
  import opened Options
  import opened Text

  // ---------- timestamps ----------

  datatype Stamp = Stamp(year: nat, month: nat, day: nat, hour: nat, minute: nat, second: nat, nanos: nat)

  function DaysIn(month: nat, year: nat): nat {
    if month == 2 then (if year % 4 == 0 && (year % 100 != 0 || year % 400 == 0) then 29 else 28)
    else if month in {4, 6, 9, 11} then 30
    else 31
  }

  predicate ValidStamp(s: Stamp) {
    && s.year < 10000 && 1 <= s.month <= 12 && 1 <= s.day <= DaysIn(s.month, s.year)
    && s.hour < 24 && s.minute < 60 && s.second < 60
  }

  function Pad2(n: nat): string
    requires n < 100
  {
    [DigitChar(n / 10), DigitChar(n % 10)]
  }

  function DateText(s: Stamp): string
    requires ValidStamp(s)
  {
    Pad2(s.year / 100) + (Pad2(s.year % 100) + ("-" + (Pad2(s.month) + ("-" + Pad2(s.day)))))
  }

  function TimeText(s: Stamp): string
    requires ValidStamp(s)
  {
    Pad2(s.hour) + ("-" + (Pad2(s.minute) + ("-" + Pad2(s.second))))
  }

  /** A number at the front of a text, and what follows it. */
  type Read = Option<(nat, string)>

  /** Exactly two digits. */
  function ReadTwo(s: string): Read {
    if |s| >= 2 && IsDigit(s[0]) && IsDigit(s[1]) then Some((10 * DigitOf(s[0]) + DigitOf(s[1]), s[2..])) else None
  }

  /** Go's hour field takes one digit when no second follows. */
  function ReadHour(s: string): Read {
    if ReadTwo(s).Some? then ReadTwo(s)
    else if s != "" && IsDigit(s[0]) then Some((DigitOf(s[0]), s[1..]))
    else None
  }

  function ReadYear(s: string): Read {
    match ReadTwo(s)
    case None => None
    case Some((high, rest)) =>
      match ReadTwo(rest)
      case None => None
      case Some((low, rest')) => Some((100 * high + low, rest'))
  }

  /** The number has to be followed by a character, which is taken away. */
  function Parted(r: Read, c: char): Read {
    match r
    case None => None
    case Some((n, rest)) => if [c] <= rest then Some((n, rest[1..])) else None
  }

  function Dash(r: Read): Read { Parted(r, '-') }

  function CutSpaces(s: string): string {
    if s != "" && s[0] == ' ' then CutSpaces(s[1..]) else s
  }

  function DigitsFront(s: string): (n: nat)
    ensures n <= |s| && AllDigits(s[..n])
  {
    if s != "" && IsDigit(s[0]) then
      var n := 1 + DigitsFront(s[1..]);
      assert s[..n] == [s[0]] + s[1..][..n - 1];
      n
    else 0
  }

  function Scaled(n: nat, missing: nat): nat
    decreases missing
  {
    if missing == 0 then n else Scaled(10 * n, missing - 1)
  }

  lemma {:induction false} ScaledRises(m: nat, n: nat, missing: nat)
    requires m < n
    ensures Scaled(m, missing) < Scaled(n, missing)
    decreases missing
  {
    if missing > 0 {
      ScaledRises(10 * m, 10 * n, missing - 1);
    }
  }

  lemma {:induction false} FractionBelow(digits: string)
    requires AllDigits(digits) && |digits| <= 9
    ensures Scaled(Numeral(digits) + 1, 9 - |digits|) <= 1_000_000_000
  {
    if digits == "" {
      assert Scaled(1, 9) == Scaled(1_000, 6) == Scaled(1_000_000, 3) == 1_000_000_000;
    } else {
      var front := digits[..|digits| - 1];
      assert digits[|digits| - 1] in digits;
      FractionBelow(front);
      var m, n := Numeral(digits) + 1, 10 * (Numeral(front) + 1);
      if m < n {
        ScaledRises(m, n, 9 - |digits|);
      }
    }
  }

  /** A fraction of a second is accepted after the seconds although the layout has none. */
  function ReadFraction(s: string): (r: (nat, string))
    ensures r.0 < 1_000_000_000
  {
    if |s| >= 2 && (s[0] == '.' || s[0] == ',') && IsDigit(s[1]) then
      var n := DigitsFront(s[1..]);
      var m := if n > 9 then 9 else n;
      assert s[1..][..m] == s[1..][..n][..m];
      FractionBelow(s[1..][..m]);
      ScaledRises(Numeral(s[1..][..m]), Numeral(s[1..][..m]) + 1, 9 - m);
      (Scaled(Numeral(s[1..][..m]), 9 - m), s[1..][n..])
    else (0, s)
  }

  /** time.Parse with the layout 2006-01-02 15-04-05. */
  function ParseStamp(s: string): (r: Option<Stamp>)
    ensures r.Some? ==> ValidStamp(r.value) && r.value.nanos < 1_000_000_000
  {
    match Dash(ReadYear(s)) case None => None case Some((year, s1)) =>
    match Dash(ReadTwo(s1)) case None => None case Some((month, s2)) =>
    match ReadTwo(s2) case None => None case Some((day, s3)) =>
    if s3 != "" && s3[0] != ' ' then None else
    match Dash(ReadHour(CutSpaces(s3))) case None => None case Some((hour, s4)) =>
    match Dash(ReadTwo(s4)) case None => None case Some((minute, s5)) =>
    match ReadTwo(s5) case None => None case Some((second, s6)) =>
    var (nanos, s7) := ReadFraction(s6);
    var stamp := Stamp(year, month, day, hour, minute, second, nanos);
    if ValidStamp(stamp) && s7 == "" then Some(stamp) else None
  }

  // ---------- parsing file names ----------

  type Params = map<string, int>

  datatype Info = Info(timestamp: Stamp, language: string, scenario: string, params: Params)

  datatype Reason = BadFormat | BadTimestamp | BadRps | BadTriggers | BadWorkers | Unrecognized

  datatype Result<+T> = Failure(reason: Reason) | Success(value: T)

  const LANGUAGES: set<string> :=
    {"go", "python", "rust", "typescript", "ts", "quarkus", "springboot", "all"}

  /** One of the tests `HasSuffix`, then Atoi of the rest. */
  function Suffixed(part: string, suffix: string, reason: Reason, r: Result<Params>): Result<Params> {
    if r.Failure? || !HasSuffix(part, suffix) then r
    else
      match Atoi(TrimSuffix(part, suffix))
      case None => Failure(reason)
      case Some(n) => Success(r.value[suffix := n])
  }

  function EventingPart(part: string, params: Params): Result<Params> {
    Suffixed(part, "workers", BadWorkers,
      Suffixed(part, "triggers", BadTriggers, Suffixed(part, "rps", BadRps, Success(params))))
  }

  function EventingParts(parts: seq<string>, params: Params): Result<Params>
    decreases |parts|
  {
    if parts == [] then Success(params)
    else
      match EventingPart(parts[0], params)
      case Failure(e) => Failure(e)
      case Success(p) => EventingParts(parts[1..], p)
  }

  /** Parameters and language of the serving scenarios. */
  function ServingParts(parts: seq<string>, params: Params, language: string): Result<(Params, string)>
    decreases |parts|
  {
    if parts == [] then Success((params, language))
    else if HasSuffix(parts[0], "rps") then
      match Suffixed(parts[0], "rps", BadRps, Success(params))
      case Failure(e) => Failure(e)
      case Success(p) => ServingParts(parts[1..], p, language)
    else ServingParts(parts[1..], params, if parts[0] in LANGUAGES then parts[0] else language)
  }

  function InfoOf(parts: seq<string>, stamp: Stamp): Result<Info>
    requires parts != []
  {
    if "eventing" <= parts[0] then
      (match EventingParts(parts[1..], map[])
       case Failure(e) => Failure(e)
       case Success(params) => Success(Info(stamp, "", parts[0], params)))
    else if "serving" <= parts[0] then
      (match ServingParts(parts[1..], map[], "")
       case Failure(e) => Failure(e)
       case Success((params, language)) => Success(Info(stamp, language, parts[0], params)))
    else Failure(Unrecognized)
  }

  function FilenameInfo(filename: string): Result<Info> {
    var parts := Split(TrimSuffix(filename, ".log"), '_');
    if |parts| < 3 then Failure(BadFormat)
    else
      match ParseStamp(parts[|parts| - 2] + (" " + parts[|parts| - 1]))
      case None => Failure(BadTimestamp)
      case Some(stamp) => InfoOf(parts[..|parts| - 2], stamp)
  }

  /** An accepted name has a time that exists. */
  lemma AcceptedStamp(filename: string)
    ensures FilenameInfo(filename).Success? ==>
              var stamp := FilenameInfo(filename).value.timestamp;
              ValidStamp(stamp) && stamp.nanos < 1_000_000_000
  {
    hide ParseStamp, EventingParts, ServingParts, Split, TrimSuffix, ValidStamp;
  }

  /** One suffix test of the loop and what it does. */
  method ReadSuffixed(part: string, suffix: string, reason: Reason, params: Params) returns (r: Result<Params>)
    ensures r == Suffixed(part, suffix, reason, Success(params))
  {
    hide HasSuffix, TrimSuffix, Atoi;
    if HasSuffix(part, suffix) {
      var val := Atoi(TrimSuffix(part, suffix));
      if val.None? {
        return Failure(reason);
      }
      return Success(params[suffix := val.value]);
    }
    r := Success(params);
  }

  lemma FailedPart(r: Result<Params>, part: string, suffix: string, reason: Reason)
    requires r.Failure?
    ensures Suffixed(part, suffix, reason, r) == r
  {
  }

  /** The three endings exclude each other. */
  lemma OneEnding(part: string)
    ensures !(HasSuffix(part, "rps") && HasSuffix(part, "triggers"))
    ensures !(HasSuffix(part, "rps") && HasSuffix(part, "workers"))
    ensures !(HasSuffix(part, "triggers") && HasSuffix(part, "workers"))
  {
    hide HasSuffix;
    if HasSuffix(part, "rps") {
      SuffixAt(part, "rps", 1);
    }
    if HasSuffix(part, "triggers") {
      SuffixAt(part, "triggers", 1);
      SuffixAt(part, "triggers", 3);
    }
    if HasSuffix(part, "workers") {
      SuffixAt(part, "workers", 1);
      SuffixAt(part, "workers", 3);
    }
  }

  /** A part with no number before its ending is refused for that ending. */
  lemma ReasonsOfPart(part: string, params: Params)
    ensures HasSuffix(part, "rps") && Atoi(TrimSuffix(part, "rps")).None? ==> EventingPart(part, params) == Failure(BadRps)
    ensures HasSuffix(part, "triggers") && Atoi(TrimSuffix(part, "triggers")).None? ==>
              EventingPart(part, params) == Failure(BadTriggers)
    ensures HasSuffix(part, "workers") && Atoi(TrimSuffix(part, "workers")).None? ==>
              EventingPart(part, params) == Failure(BadWorkers)
  {
    OneEnding(part);
    hide HasSuffix, TrimSuffix, Atoi;
  }

  method ReadEventing(part: string, params: Params) returns (r: Result<Params>)
    ensures r == EventingPart(part, params)
    ensures HasSuffix(part, "rps") && Atoi(TrimSuffix(part, "rps")).None? ==> r == Failure(BadRps)
    ensures HasSuffix(part, "triggers") && Atoi(TrimSuffix(part, "triggers")).None? ==> r == Failure(BadTriggers)
    ensures HasSuffix(part, "workers") && Atoi(TrimSuffix(part, "workers")).None? ==> r == Failure(BadWorkers)
  {
    ReasonsOfPart(part, params);
    hide HasSuffix, TrimSuffix, Atoi;
    hide Suffixed;
    r := ReadSuffixed(part, "rps", BadRps, params);
    if r.Failure? {
      FailedPart(r, part, "triggers", BadTriggers);
      FailedPart(r, part, "workers", BadWorkers);
      return;
    }
    r := ReadSuffixed(part, "triggers", BadTriggers, r.value);
    if r.Failure? {
      FailedPart(r, part, "workers", BadWorkers);
      return;
    }
    r := ReadSuffixed(part, "workers", BadWorkers, r.value);
  }

  // ---------- what the parts of a name come to ----------

  function Param(p: Params, key: string): Option<int> { if key in p then Some(p[key]) else None }

  predicate LastWith(parts: seq<string>, suffix: string, k: int) {
    0 <= k < |parts| && HasSuffix(parts[k], suffix) && forall j | k < j < |parts| :: !HasSuffix(parts[j], suffix)
  }

  /** The number of the last part with the ending, or what was there before if no part has it. */
  predicate Given(parts: seq<string>, suffix: string, before: Option<int>, after: Option<int>) {
    || (exists k :: 0 <= k < |parts| && LastWith(parts, suffix, k) && after.Some? && after == Atoi(TrimSuffix(parts[k], suffix)))
    || ((forall part | part in parts :: !HasSuffix(part, suffix)) && after == before)
  }

  lemma GivenMore(parts: seq<string>, suffix: string, before: Option<int>, next: Option<int>, after: Option<int>)
    requires parts != [] && Given(parts[1..], suffix, next, after)
    requires if HasSuffix(parts[0], suffix) then next.Some? && next == Atoi(TrimSuffix(parts[0], suffix)) else next == before
    ensures Given(parts, suffix, before, after)
  {
    hide HasSuffix, TrimSuffix, Atoi;
    var rest := parts[1..];
    if k :| 0 <= k < |rest| && LastWith(rest, suffix, k) && after.Some? && after == Atoi(TrimSuffix(rest[k], suffix)) {
      assert forall j | k + 1 < j < |parts| :: parts[j] == rest[j - 1];
      assert LastWith(parts, suffix, k + 1);
    } else {
      assert forall j | 0 < j < |parts| :: parts[j] == rest[j - 1] && parts[j] in rest;
      if HasSuffix(parts[0], suffix) {
        assert LastWith(parts, suffix, 0);
      }
    }
  }

  predicate Numbered(part: string, suffix: string) { HasSuffix(part, suffix) ==> Atoi(TrimSuffix(part, suffix)).Some? }

  predicate AllNumbered(part: string) { Numbered(part, "rps") && Numbered(part, "triggers") && Numbered(part, "workers") }

  /** The reason names the ending that has no number before it. */
  predicate RefusedFor(part: string, reason: Reason) {
    || (reason == BadRps && !Numbered(part, "rps"))
    || (reason == BadTriggers && !Numbered(part, "triggers"))
    || (reason == BadWorkers && !Numbered(part, "workers"))
  }

  lemma PartGives(part: string, params: Params, suffix: string)
    requires suffix in {"rps", "triggers", "workers"}
    ensures match EventingPart(part, params)
            case Failure(reason) => RefusedFor(part, reason)
            case Success(p) =>
              && AllNumbered(part) && p.Keys <= params.Keys + {"rps", "triggers", "workers"}
              && (Param(p, suffix) == if HasSuffix(part, suffix) then Atoi(TrimSuffix(part, suffix)) else Param(params, suffix))
              && (HasSuffix(part, suffix) ==> Param(p, suffix).Some?)
  {
    OneEnding(part);
    hide HasSuffix, TrimSuffix, Atoi;
  }

  /** What the loop over the parts of an eventing name has collected, or why it has stopped. */
  predicate Gathered(parts: seq<string>, suffix: string, params: Params, r: Result<Params>) {
    match r
    case Failure(reason) =>
      exists k :: 0 <= k < |parts| && RefusedFor(parts[k], reason) && forall j | 0 <= j < k :: AllNumbered(parts[j])
    case Success(p) =>
      && (forall part | part in parts :: AllNumbered(part)) && p.Keys <= params.Keys + {"rps", "triggers", "workers"}
      && Given(parts, suffix, Param(params, suffix), Param(p, suffix))
  }

  lemma {:induction false} PartsGather(parts: seq<string>, suffix: string, params: Params)
    requires suffix in {"rps", "triggers", "workers"}
    ensures Gathered(parts, suffix, params, EventingParts(parts, params))
    decreases |parts|
  {
    hide EventingPart, HasSuffix, TrimSuffix, Atoi, AllNumbered, RefusedFor;
    if parts != [] {
      PartGives(parts[0], params, suffix);
      var first, rest := EventingPart(parts[0], params), parts[1..];
      if first.Success? {
        PartsGather(rest, suffix, first.value);
        match EventingParts(rest, first.value) {
          case Failure(reason) =>
            var k :| 0 <= k < |rest| && RefusedFor(rest[k], reason) && forall j | 0 <= j < k :: AllNumbered(rest[j]);
            assert RefusedFor(parts[k + 1], reason) && forall j | 0 < j < k + 1 :: parts[j] == rest[j - 1];
          case Success(p) =>
            assert AllNumbered(parts[0]);
            GivenMore(parts, suffix, Param(params, suffix), Param(first.value, suffix), Param(p, suffix));
            hide Given;
        }
      }
    }
  }

  /** Every eventing name: each parameter is the number of the last part with its ending, and is
      missing when no part has it; the name is refused for the first part that has an ending and no
      number before it. */
  lemma EventingGathers(parts: seq<string>)
    ensures Gathered(parts, "rps", map[], EventingParts(parts, map[]))
    ensures Gathered(parts, "triggers", map[], EventingParts(parts, map[]))
    ensures Gathered(parts, "workers", map[], EventingParts(parts, map[]))
  {
    hide EventingParts, Gathered;
    PartsGather(parts, "rps", map[]);
    PartsGather(parts, "triggers", map[]);
    PartsGather(parts, "workers", map[]);
  }

  predicate Rated(parts: seq<string>, before: Option<int>, r: Result<(Params, string)>) {
    if r.Failure? then r.reason == BadRps && exists part | part in parts :: !Numbered(part, "rps")
    else
      && (forall part | part in parts :: Numbered(part, "rps")) && r.value.0.Keys <= {"rps"}
      && Given(parts, "rps", before, Param(r.value.0, "rps"))
  }

  lemma {:induction false} RatesGather(parts: seq<string>, params: Params, language: string)
    requires params.Keys <= {"rps"}
    ensures Rated(parts, Param(params, "rps"), ServingParts(parts, params, language))
    decreases |parts|
  {
    hide HasSuffix, TrimSuffix, Atoi;
    if parts != [] {
      var part, rest := parts[0], parts[1..];
      assert forall other | other in parts :: other == part || other in rest;
      if HasSuffix(part, "rps") {
        var first := Suffixed(part, "rps", BadRps, Success(params));
        if first.Success? {
          RateAfter(parts, params, first.value, language, language);
        } else {
          assert part in parts && !Numbered(part, "rps");
        }
      } else {
        RateAfter(parts, params, params, language, if part in LANGUAGES then part else language);
      }
    }
  }

  /** The loop goes on behind a first part that is numbered. */
  lemma {:induction false} RateAfter(parts: seq<string>, params: Params, next: Params, language: string, word: string)
    requires parts != [] && params.Keys <= {"rps"} && next.Keys <= {"rps"} && Numbered(parts[0], "rps")
    requires ServingParts(parts, params, language) == ServingParts(parts[1..], next, word)
    requires Param(next, "rps") == if HasSuffix(parts[0], "rps") then Atoi(TrimSuffix(parts[0], "rps")) else Param(params, "rps")
    ensures Rated(parts, Param(params, "rps"), ServingParts(parts, params, language))
    decreases |parts|, 0
  {
    RatesGather(parts[1..], next, word);
    hide ServingParts, HasSuffix, TrimSuffix, Atoi;
    var r := ServingParts(parts[1..], next, word);
    if r.Success? {
      GivenMore(parts, "rps", Param(params, "rps"), Param(next, "rps"), Param(r.value.0, "rps"));
      hide Given;
    }
  }

  /** Every serving name: its rate is the number of the last part that ends in rps, and no other
      parameter is set; it is refused exactly if such a part has no number. */
  lemma ServingGathers(parts: seq<string>)
    ensures Rated(parts, None, ServingParts(parts, map[], ""))
  {
    hide ServingParts, Rated;
    RatesGather(parts, map[], "");
  }

  // ---------- the parsers ----------

  method ParseEventing(parts: seq<string>) returns (r: Result<Params>)
    ensures r == EventingParts(parts, map[])
    ensures Gathered(parts, "rps", map[], r) && Gathered(parts, "triggers", map[], r) && Gathered(parts, "workers", map[], r)
  {
    EventingGathers(parts);
    hide EventingPart, Gathered;
    var params: Params := map[];
    var i := 0;
    while i < |parts|
      invariant 0 <= i <= |parts|
      invariant EventingParts(parts, map[]) == EventingParts(parts[i..], params)
    {
      assert parts[i..][0] == parts[i] && parts[i..][1..] == parts[i + 1..];
      r := ReadEventing(parts[i], params);
      if r.Failure? {
        return;
      }
      params := r.value;
      i := i + 1;
    }
    r := Success(params);
  }

  method ParseServing(parts: seq<string>) returns (r: Result<(Params, string)>)
    ensures r == ServingParts(parts, map[], "")
    ensures Rated(parts, None, r)
  {
    ServingGathers(parts);
    hide HasSuffix, Suffixed, Rated;
    var params: Params := map[];
    var language := "";
    var i := 0;
    while i < |parts|
      invariant 0 <= i <= |parts|
      invariant ServingParts(parts, map[], "") == ServingParts(parts[i..], params, language)
    {
      var part := parts[i];
      assert parts[i..][0] == part && parts[i..][1..] == parts[i + 1..];
      if HasSuffix(part, "rps") {
        var read := ReadSuffixed(part, "rps", BadRps, params);
        if read.Failure? {
          return Failure(read.reason);
        }
        params := read.value;
      } else if part in LANGUAGES {
        language := part;
      }
      i := i + 1;
    }
    r := Success((params, language));
  }

  lemma {:induction false} PartsReason(parts: seq<string>, params: Params)
    ensures EventingParts(parts, params).Failure? ==> EventingParts(parts, params).reason in {BadRps, BadTriggers, BadWorkers}
    decreases |parts|
  {
    hide HasSuffix, TrimSuffix, Atoi;
    if parts != [] && EventingPart(parts[0], params).Success? {
      PartsReason(parts[1..], EventingPart(parts[0], params).value);
    }
  }

  lemma {:induction false} ServingReason(parts: seq<string>, params: Params, language: string)
    ensures ServingParts(parts, params, language).Failure? ==> ServingParts(parts, params, language).reason == BadRps
    decreases |parts|
  {
    hide HasSuffix, TrimSuffix, Atoi;
    if parts != [] {
      if !HasSuffix(parts[0], "rps") {
        ServingReason(parts[1..], params, if parts[0] in LANGUAGES then parts[0] else language);
      } else if Suffixed(parts[0], "rps", BadRps, Success(params)).Success? {
        ServingReason(parts[1..], Suffixed(parts[0], "rps", BadRps, Success(params)).value, language);
      }
    }
  }

  /** The text of the last two parts of a name. */
  function TimeOf(filename: string): string {
    var parts := Split(TrimSuffix(filename, ".log"), '_');
    if |parts| < 3 then "" else parts[|parts| - 2] + (" " + parts[|parts| - 1])
  }

  /** The reasons that are not a part's: too few parts, then no time, then neither scenario. */
  lemma NameRefused(filename: string)
    ensures var (parts, r) := (Split(TrimSuffix(filename, ".log"), '_'), FilenameInfo(filename));
            && (r == Failure(BadFormat) <==> |parts| < 3)
            && (r == Failure(BadTimestamp) <==> |parts| >= 3 && ParseStamp(TimeOf(filename)).None?)
            && (r == Failure(Unrecognized) <==>
                  |parts| >= 3 && ParseStamp(TimeOf(filename)).Some? && !("eventing" <= parts[0]) && !("serving" <= parts[0]))
  {
    hide ParseStamp, EventingParts, ServingParts, Split, TrimSuffix;
    var parts := Split(TrimSuffix(filename, ".log"), '_');
    if |parts| >= 3 {
      PartsReason(parts[..|parts| - 2][1..], map[]);
      ServingReason(parts[..|parts| - 2][1..], map[], "");
    }
  }

  method ParseFilename(filename: string) returns (r: Result<Info>)
    ensures r == FilenameInfo(filename)
    ensures r == Failure(BadFormat) <==> |Split(TrimSuffix(filename, ".log"), '_')| < 3
    ensures r == Failure(BadTimestamp) ==> ParseStamp(TimeOf(filename)).None?
    ensures r.Success? ==> ParseStamp(TimeOf(filename)) == Some(r.value.timestamp)
    ensures r.Success? ==> "eventing" <= r.value.scenario || "serving" <= r.value.scenario
  {
    NameRefused(filename);
    hide ParseStamp, EventingParts, ServingParts, Split;
    var parts := Split(TrimSuffix(filename, ".log"), '_');
    if |parts| < 3 {
      return Failure(BadFormat);
    }
    var timestamp := ParseStamp(parts[|parts| - 2] + (" " + parts[|parts| - 1]));
    if timestamp.None? {
      return Failure(BadTimestamp);
    }
    parts := parts[..|parts| - 2];
    if "eventing" <= parts[0] {
      var params := ParseEventing(parts[1..]);
      match params {
        case Failure(e) => return Failure(e);
        case Success(p) => return Success(Info(timestamp.value, "", parts[0], p));
      }
    }
    if "serving" <= parts[0] {
      var found := ParseServing(parts[1..]);
      match found {
        case Failure(e) => return Failure(e);
        case Success((p, language)) => return Success(Info(timestamp.value, language, parts[0], p));
      }
    }
    r := Failure(Unrecognized);
  }

  // ---------- printing ----------

  /** The parts of a prefix after the scenario. */
  datatype Token = Rps(n: nat) | Triggers(n: nat) | Workers(n: nat) | Word(text: string)

  function TokenText(t: Token): string {
    match t
    case Rps(n) => Itoa(n) + "rps"
    case Triggers(n) => Itoa(n) + "triggers"
    case Workers(n) => Itoa(n) + "workers"
    case Word(text) => text
  }

  function TokenTexts(tokens: seq<Token>): seq<string> {
    if tokens == [] then [] else [TokenText(tokens[0])] + TokenTexts(tokens[1..])
  }

  function Prefix(scenario: string, tokens: seq<Token>): string {
    Join([scenario] + TokenTexts(tokens), '_')
  }

  /** GetLogFilePath without its directory. */
  function FileName(prefix: string, s: Stamp): string
    requires ValidStamp(s)
  {
    prefix + "_" + (DateText(s) + ("_" + TimeText(s))) + ".log"
  }

  // ---------- timestamps come back to the second ----------

  lemma ReadPadded(n: nat, rest: string)
    requires n < 100
    ensures ReadTwo(Pad2(n) + rest) == Some((n, rest))
  {
    assert (Pad2(n) + rest)[2..] == rest;
  }

  lemma ReadDashed(n: nat, rest: string)
    requires n < 100
    ensures Dash(ReadTwo(Pad2(n) + ("-" + rest))) == Some((n, rest))
  {
    ReadPadded(n, "-" + rest);
    assert ("-" + rest)[1..] == rest;
  }

  lemma ReadDashedHour(n: nat, rest: string)
    requires n < 100
    ensures CutSpaces(" " + (Pad2(n) + ("-" + rest))) == Pad2(n) + ("-" + rest)
    ensures Dash(ReadHour(Pad2(n) + ("-" + rest))) == Some((n, rest))
  {
    ReadDashed(n, rest);
    assert (" " + (Pad2(n) + ("-" + rest)))[1..] == Pad2(n) + ("-" + rest);
  }

  lemma ReadPaddedYear(n: nat, rest: string)
    requires n < 10000
    ensures Dash(ReadYear(Pad2(n / 100) + (Pad2(n % 100) + ("-" + rest)))) == Some((n, rest))
  {
    hide Pad2, ReadTwo;
    ReadPadded(n / 100, Pad2(n % 100) + ("-" + rest));
    ReadPadded(n % 100, "-" + rest);
    assert ("-" + rest)[1..] == rest;
  }

  lemma StampText(s: Stamp)
    requires ValidStamp(s)
    ensures DateText(s) + (" " + TimeText(s))
         == Pad2(s.year / 100) + (Pad2(s.year % 100) + ("-" + (Pad2(s.month) + ("-" + (Pad2(s.day) + (" "
            + (Pad2(s.hour) + ("-" + (Pad2(s.minute) + ("-" + (Pad2(s.second) + "")))))))))))
  {
    hide Pad2;
  }

  lemma StampRoundTrip(s: Stamp)
    requires ValidStamp(s)
    ensures ParseStamp(DateText(s) + (" " + TimeText(s))) == Some(s.(nanos := 0))
  {
    hide Pad2, ReadTwo, ReadYear, ReadHour, Dash, CutSpaces, DateText, TimeText;
    StampText(s);
    var t5 := Pad2(s.second) + "";
    var t4 := Pad2(s.minute) + ("-" + t5);
    var t3 := Pad2(s.hour) + ("-" + t4);
    var t2 := Pad2(s.day) + (" " + t3);
    var t1 := Pad2(s.month) + ("-" + t2);
    ReadPaddedYear(s.year, t1);
    ReadDashed(s.month, t2);
    ReadPadded(s.day, " " + t3);
    ReadDashedHour(s.hour, t4);
    ReadDashed(s.minute, t5);
    ReadPadded(s.second, "");
  }

  predicate NoUnderscore(s: string) { '_' !in s }

  lemma StampNoUnderscore(s: Stamp)
    requires ValidStamp(s)
    ensures NoUnderscore(DateText(s)) && NoUnderscore(TimeText(s))
  {
  }

  // ---------- tokens come back as parameters ----------

  /** Token words are free of the separator and of the suffixes that make a parameter. */
  predicate EventingToken(t: Token) {
    match t
    case Word(text) =>
      NoUnderscore(text) && !HasSuffix(text, "rps") && !HasSuffix(text, "triggers") && !HasSuffix(text, "workers")
    case _ => t.n < INT64_LIMIT
  }

  predicate ServingToken(t: Token) {
    match t
    case Word(text) => NoUnderscore(text) && !HasSuffix(text, "rps")
    case _ => t.n < INT64_LIMIT
  }

  /** A later token overwrites an earlier one of its kind. */
  function EventingParams(tokens: seq<Token>, params: Params): Params
    decreases |tokens|
  {
    if tokens == [] then params
    else
      EventingParams(tokens[1..],
        match tokens[0]
        case Rps(n) => params["rps" := n]
        case Triggers(n) => params["triggers" := n]
        case Workers(n) => params["workers" := n]
        case Word(_) => params)
  }

  function ServingParams(tokens: seq<Token>, params: Params): Params
    decreases |tokens|
  {
    if tokens == [] then params
    else ServingParams(tokens[1..], if tokens[0].Rps? then params["rps" := tokens[0].n] else params)
  }

  function ServingLanguage(tokens: seq<Token>, language: string): string
    decreases |tokens|
  {
    if tokens == [] then language
    else ServingLanguage(tokens[1..],
      if tokens[0].Word? && tokens[0].text in LANGUAGES then tokens[0].text else language)
  }

  lemma SuffixAt(s: string, suffix: string, k: nat)
    requires HasSuffix(s, suffix) && k < |suffix|
    ensures s[|s| - 1 - k] == suffix[|suffix| - 1 - k]
  {
    assert s[|s| - |suffix|..][|suffix| - 1 - k] == suffix[|suffix| - 1 - k];
  }

  lemma SuffixMismatch(s: string, suffix: string, k: nat)
    requires k < |suffix| && k < |s| && s[|s| - 1 - k] != suffix[|suffix| - 1 - k]
    ensures !HasSuffix(s, suffix)
  {
    if HasSuffix(s, suffix) {
      SuffixAt(s, suffix, k);
    }
  }

  /** A number with one of the three suffixes has neither of the others. */
  lemma OneSuffix(digits: string)
    ensures !HasSuffix(digits + "rps", "triggers") && !HasSuffix(digits + "rps", "workers")
    ensures !HasSuffix(digits + "triggers", "rps") && !HasSuffix(digits + "triggers", "workers")
    ensures !HasSuffix(digits + "workers", "rps") && !HasSuffix(digits + "workers", "triggers")
  {
    SuffixMismatch(digits + "rps", "triggers", 1);
    SuffixMismatch(digits + "rps", "workers", 1);
    SuffixMismatch(digits + "triggers", "rps", 1);
    SuffixMismatch(digits + "triggers", "workers", 3);
    SuffixMismatch(digits + "workers", "rps", 1);
    SuffixMismatch(digits + "workers", "triggers", 3);
  }

  lemma NumberSuffixed(n: nat, suffix: string, reason: Reason, params: Params)
    requires n < INT64_LIMIT
    ensures Suffixed(Itoa(n) + suffix, suffix, reason, Success(params)) == Success(params[suffix := n])
  {
    TrimAppended(Itoa(n), suffix);
    AtoiSigned(n);
  }

  lemma EventingTokenPart(t: Token, params: Params)
    requires EventingToken(t)
    ensures EventingPart(TokenText(t), params)
         == Success(match t
                    case Rps(n) => params["rps" := n]
                    case Triggers(n) => params["triggers" := n]
                    case Workers(n) => params["workers" := n]
                    case Word(_) => params)
  {
    hide Itoa, HasSuffix, TrimSuffix, Atoi;
    match t {
      case Rps(n) =>
        OneSuffix(Itoa(n));
        NumberSuffixed(n, "rps", BadRps, params);
      case Triggers(n) =>
        OneSuffix(Itoa(n));
        NumberSuffixed(n, "triggers", BadTriggers, params);
      case Workers(n) =>
        OneSuffix(Itoa(n));
        NumberSuffixed(n, "workers", BadWorkers, params);
      case Word(_) =>
    }
  }

  lemma {:induction false} EventingTokens(tokens: seq<Token>, params: Params)
    requires forall t | t in tokens :: EventingToken(t)
    ensures EventingParts(TokenTexts(tokens), params) == Success(EventingParams(tokens, params))
    decreases |tokens|
  {
    if tokens != [] {
      hide EventingPart, TokenText, EventingToken;
      assert tokens[0] in tokens && forall t | t in tokens[1..] :: t in tokens;
      EventingTokenPart(tokens[0], params);
      assert TokenTexts(tokens)[1..] == TokenTexts(tokens[1..]);
      EventingTokens(tokens[1..], EventingPart(TokenText(tokens[0]), params).value);
    }
  }

  /** A number with a suffix is no language. */
  lemma NumberNoLanguage(digits: string, suffix: string)
    requires digits != "" && AllDigits(digits)
    ensures digits + suffix !in LANGUAGES
  {
    assert digits[0] in digits && (digits + suffix)[0] == digits[0];
    forall l | l in LANGUAGES ensures l != "" && !IsDigit(l[0]) {
    }
  }

  lemma {:induction false} ServingTokens(tokens: seq<Token>, params: Params, language: string)
    requires forall t | t in tokens :: ServingToken(t)
    ensures ServingParts(TokenTexts(tokens), params, language)
         == Success((ServingParams(tokens, params), ServingLanguage(tokens, language)))
    decreases |tokens|
  {
    if tokens != [] {
      hide Suffixed, HasSuffix, Itoa;
      var t := tokens[0];
      assert t in tokens && forall x | x in tokens[1..] :: x in tokens;
      assert TokenTexts(tokens)[1..] == TokenTexts(tokens[1..]);
      match t {
        case Rps(n) =>
          TrimAppended(Itoa(n), "rps");
          NumberSuffixed(n, "rps", BadRps, params);
          ServingTokens(tokens[1..], params["rps" := n], language);
        case Triggers(n) =>
          ItoaNumeral(n);
          OneSuffix(Itoa(n));
          NumberNoLanguage(Itoa(n), "triggers");
          ServingTokens(tokens[1..], params, language);
        case Workers(n) =>
          ItoaNumeral(n);
          OneSuffix(Itoa(n));
          NumberNoLanguage(Itoa(n), "workers");
          ServingTokens(tokens[1..], params, language);
        case Word(text) =>
          ServingTokens(tokens[1..], params, if text in LANGUAGES then text else language);
      }
    }
  }

  // ---------- whole names ----------

  lemma {:induction false} JoinAppend(xs: seq<string>, ys: seq<string>, sep: char)
    requires xs != [] && ys != []
    ensures Join(xs + ys, sep) == Join(xs, sep) + [sep] + Join(ys, sep)
  {
    if |xs| == 1 {
      assert (xs + ys)[1..] == ys;
    } else {
      JoinAppend(xs[1..], ys, sep);
      assert (xs + ys)[1..] == xs[1..] + ys;
      assert xs[0] + [sep] + (Join(xs[1..], sep) + [sep] + Join(ys, sep))
          == (xs[0] + [sep] + Join(xs[1..], sep)) + [sep] + Join(ys, sep);
    }
  }

  /** The parser sees the parts of the prefix and the timestamp. */
  lemma NameParts(parts: seq<string>, s: Stamp)
    requires ValidStamp(s) && parts != [] && forall p | p in parts :: NoUnderscore(p)
    ensures FilenameInfo(FileName(Join(parts, '_'), s)) == InfoOf(parts, s.(nanos := 0))
  {
    hide Join, DateText, TimeText, ParseStamp, Split, InfoOf, TrimSuffix;
    var name := FileName(Join(parts, '_'), s);
    var stamp := [DateText(s), TimeText(s)];
    var all := parts + stamp;
    StampNoUnderscore(s);
    JoinAppend(parts, stamp, '_');
    JoinTwo(DateText(s), TimeText(s));
    assert Join(parts, '_') + "_" + (DateText(s) + ("_" + TimeText(s))) == Join(all, '_');
    TrimAppended(Join(all, '_'), ".log");
    SplitJoin(all, '_');
    StampRoundTrip(s);
    assert all[..|all| - 2] == parts;
  }

  lemma JoinTwo(a: string, b: string)
    ensures Join([a, b], '_') == a + ("_" + b)
  {
    assert [a, b][1..] == [b];
    assert Join([b], '_') == b;
    assert a + ['_'] + b == a + ("_" + b);
  }

  lemma {:induction false} TextsNoUnderscore(tokens: seq<Token>)
    requires forall t | t in tokens && t.Word? :: NoUnderscore(t.text)
    ensures forall p | p in TokenTexts(tokens) :: NoUnderscore(p)
  {
    if tokens != [] {
      var t := tokens[0];
      assert t in tokens && forall x | x in tokens[1..] :: x in tokens;
      TextsNoUnderscore(tokens[1..]);
      if !t.Word? {
        ItoaNumeral(t.n);
        assert NoUnderscore(TokenText(t));
      }
    }
  }

  /** For every timestamp, eventing scenario and list of tokens. */
  lemma EventingRoundTrip(scenario: string, tokens: seq<Token>, s: Stamp)
    requires ValidStamp(s) && "eventing" <= scenario && NoUnderscore(scenario)
    requires forall t | t in tokens :: EventingToken(t)
    ensures FilenameInfo(FileName(Prefix(scenario, tokens), s))
         == Success(Info(s.(nanos := 0), "", scenario, EventingParams(tokens, map[])))
  {
    hide FilenameInfo, FileName, Join, EventingParts, EventingParams, HasSuffix, ValidStamp;
    var parts := [scenario] + TokenTexts(tokens);
    TextsNoUnderscore(tokens);
    NameParts(parts, s);
    EventingTokens(tokens, map[]);
    assert parts[1..] == TokenTexts(tokens);
  }

  /** For every timestamp, serving scenario and list of tokens. */
  lemma ServingRoundTrip(scenario: string, tokens: seq<Token>, s: Stamp)
    requires ValidStamp(s) && "serving" <= scenario && NoUnderscore(scenario)
    requires forall t | t in tokens :: ServingToken(t)
    ensures FilenameInfo(FileName(Prefix(scenario, tokens), s))
         == Success(Info(s.(nanos := 0), ServingLanguage(tokens, ""), scenario, ServingParams(tokens, map[])))
  {
    hide FilenameInfo, FileName, Join, ServingParts, ServingParams, ServingLanguage, HasSuffix, ValidStamp;
    var parts := [scenario] + TokenTexts(tokens);
    TextsNoUnderscore(tokens);
    NameParts(parts, s);
    ServingTokens(tokens, map[], "");
    assert parts[1..] == TokenTexts(tokens);
    NotEventing(scenario);
  }

  lemma NotEventing(scenario: string)
    requires "serving" <= scenario
    ensures !("eventing" <= scenario)
  {
    assert scenario[0] == "serving"[0] && "eventing"[0] == 'e';
  }

  // ---------- the order of the tokens does not matter ----------

  function KindOf(t: Token): string {
    match t
    case Rps(_) => "rps"
    case Triggers(_) => "triggers"
    case Workers(_) => "workers"
    case Word(text) => if text in LANGUAGES then "language" else ""
  }

  /** At most one token of each kind that matters (the same one may be repeated). */
  predicate OnePerKind(tokens: seq<Token>) {
    forall a, b | a in tokens && b in tokens && KindOf(a) == KindOf(b) && KindOf(a) != "" :: a == b
  }

  predicate Parameter(t: Token) { !t.Word? }

  lemma {:induction false} ParamsByToken(tokens: seq<Token>, params: Params, key: string)
    ensures var p := EventingParams(tokens, params);
            if exists t :: t in tokens && Parameter(t) && KindOf(t) == key
            then key in p && exists t :: t in tokens && Parameter(t) && KindOf(t) == key && p[key] == t.n
            else (key in p <==> key in params) && (key in params ==> p[key] == params[key])
    decreases |tokens|
  {
    if tokens != [] {
      var t := tokens[0];
      var next := if Parameter(t) then params[KindOf(t) := t.n] else params;
      assert forall x :: x in tokens <==> x == t || x in tokens[1..];
      assert EventingParams(tokens, params) == EventingParams(tokens[1..], next);
      ParamsByToken(tokens[1..], next, key);
    }
  }

  /** The same tokens in any order give the same parameters. */
  lemma EventingOrder(xs: seq<Token>, ys: seq<Token>)
    requires OnePerKind(xs) && (forall t :: t in xs <==> t in ys)
    ensures EventingParams(xs, map[]) == EventingParams(ys, map[])
  {
    hide KindOf;
    var p, q := EventingParams(xs, map[]), EventingParams(ys, map[]);
    forall key ensures (key in p <==> key in q) && (key in p ==> p[key] == q[key]) {
      ParamsByToken(xs, map[], key);
      ParamsByToken(ys, map[], key);
      if key in p {
        var a :| a in xs && Parameter(a) && KindOf(a) == key && p[key] == a.n;
        var b :| b in ys && Parameter(b) && KindOf(b) == key && q[key] == b.n;
        KindNamed(a);
      }
    }
  }

  lemma KindNamed(t: Token)
    requires Parameter(t)
    ensures KindOf(t) != ""
  {
  }

  /** Any order of the tokens of a name gives the same experiment. */
  lemma EventingPermutation(scenario: string, xs: seq<Token>, ys: seq<Token>, s: Stamp)
    requires ValidStamp(s) && "eventing" <= scenario && NoUnderscore(scenario)
    requires forall t | t in xs :: EventingToken(t)
    requires OnePerKind(xs) && multiset(xs) == multiset(ys)
    ensures FilenameInfo(FileName(Prefix(scenario, xs), s)) == FilenameInfo(FileName(Prefix(scenario, ys), s))
  {
    hide FilenameInfo, FileName, Prefix, EventingToken, OnePerKind, ValidStamp;
    assert forall t :: t in xs <==> t in multiset(xs);
    assert forall t :: t in ys <==> t in multiset(ys);
    EventingRoundTrip(scenario, xs, s);
    EventingRoundTrip(scenario, ys, s);
    EventingOrder(xs, ys);
  }

  lemma {:induction false} RpsOnly(tokens: seq<Token>, params: Params)
    ensures ServingParams(tokens, params) == EventingParams(Only(tokens), params)
    decreases |tokens|
  {
    if tokens != [] {
      RpsOnly(tokens[1..], if tokens[0].Rps? then params["rps" := tokens[0].n] else params);
      if tokens[0].Rps? {
        assert Only(tokens)[1..] == Only(tokens[1..]);
      } else {
        assert Only(tokens) == Only(tokens[1..]);
      }
    }
  }

  function Only(tokens: seq<Token>): seq<Token> {
    if tokens == [] then [] else (if tokens[0].Rps? then [tokens[0]] else []) + Only(tokens[1..])
  }

  lemma {:induction false} OnlyHas(tokens: seq<Token>, t: Token)
    ensures t in Only(tokens) <==> t in tokens && t.Rps?
  {
    if tokens != [] {
      OnlyHas(tokens[1..], t);
      assert tokens == [tokens[0]] + tokens[1..];
    }
  }

  lemma {:induction false} LanguageByToken(tokens: seq<Token>, language: string)
    ensures var l := ServingLanguage(tokens, language);
            if exists t :: t in tokens && KindOf(t) == "language"
            then exists t :: t in tokens && KindOf(t) == "language" && t == Word(l)
            else l == language
    decreases |tokens|
  {
    if tokens != [] {
      var t := tokens[0];
      assert forall x :: x in tokens <==> x == t || x in tokens[1..];
      var next := if t.Word? && t.text in LANGUAGES then t.text else language;
      assert KindOf(t) == "language" <==> t.Word? && t.text in LANGUAGES;
      LanguageByToken(tokens[1..], next);
    }
  }

  lemma ServingOrder(xs: seq<Token>, ys: seq<Token>)
    requires OnePerKind(xs) && (forall t :: t in xs <==> t in ys)
    ensures ServingParams(xs, map[]) == ServingParams(ys, map[])
    ensures ServingLanguage(xs, "") == ServingLanguage(ys, "")
  {
    hide KindOf;
    RpsOnly(xs, map[]);
    RpsOnly(ys, map[]);
    forall t ensures (t in Only(xs) <==> t in Only(ys)) && (t in Only(xs) ==> t in xs) {
      OnlyHas(xs, t);
      OnlyHas(ys, t);
    }
    EventingOrder(Only(xs), Only(ys));
    LanguageByToken(xs, "");
    LanguageByToken(ys, "");
  }

  lemma ServingPermutation(scenario: string, xs: seq<Token>, ys: seq<Token>, s: Stamp)
    requires ValidStamp(s) && "serving" <= scenario && NoUnderscore(scenario)
    requires forall t | t in xs :: ServingToken(t)
    requires OnePerKind(xs) && multiset(xs) == multiset(ys)
    ensures FilenameInfo(FileName(Prefix(scenario, xs), s)) == FilenameInfo(FileName(Prefix(scenario, ys), s))
  {
    hide FilenameInfo, FileName, Prefix, ServingToken, OnePerKind, ValidStamp;
    assert forall t :: t in xs <==> t in multiset(xs);
    assert forall t :: t in ys <==> t in multiset(ys);
    ServingRoundTrip(scenario, xs, s);
    ServingRoundTrip(scenario, ys, s);
    ServingOrder(xs, ys);
  }

  // ---------- the languages ----------

  /** A token that names a language. */
  predicate NamesLanguage(t: Token) {
    t.Word? && t.text in {"go", "python", "rust", "typescript", "ts", "quarkus", "springboot", "all"}
  }

  lemma {:induction false} LastLanguage(tokens: seq<Token>, language: string)
    ensures forall k | 0 <= k < |tokens| && NamesLanguage(tokens[k]) && (forall j | k < j < |tokens| :: !NamesLanguage(tokens[j])) ::
              ServingLanguage(tokens, language) == tokens[k].text
    ensures (forall k | 0 <= k < |tokens| :: !NamesLanguage(tokens[k])) ==> ServingLanguage(tokens, language) == language
    decreases |tokens|
  {
    if tokens != [] {
      var t, rest := tokens[0], tokens[1..];
      assert NamesLanguage(t) <==> t.Word? && t.text in LANGUAGES;
      hide NamesLanguage;
      var next := if t.Word? && t.text in LANGUAGES then t.text else language;
      LastLanguage(rest, next);
      assert ServingLanguage(tokens, language) == ServingLanguage(rest, next);
      hide ServingLanguage;
      forall k | 0 <= k < |tokens| && NamesLanguage(tokens[k]) && (forall j | k < j < |tokens| :: !NamesLanguage(tokens[j]))
        ensures ServingLanguage(rest, next) == tokens[k].text
      {
        assert forall j | 0 <= j < |rest| :: rest[j] == tokens[j + 1];
        if k > 0 {
          assert NamesLanguage(rest[k - 1]);
        }
      }
      if forall k | 0 <= k < |tokens| :: !NamesLanguage(tokens[k]) {
        assert !NamesLanguage(tokens[0]);
      }
    }
  }

  /** The language of a serving name is the last of the eight words among its tokens; other words leave
      it alone. */
  lemma LanguageOfName(scenario: string, tokens: seq<Token>, s: Stamp)
    requires ValidStamp(s) && "serving" <= scenario && NoUnderscore(scenario)
    requires forall t | t in tokens :: ServingToken(t)
    ensures var r := FilenameInfo(FileName(Prefix(scenario, tokens), s));
            && r.Success?
            && (forall k | 0 <= k < |tokens| && NamesLanguage(tokens[k]) && (forall j | k < j < |tokens| :: !NamesLanguage(tokens[j])) ::
                  r.value.language == tokens[k].text)
            && ((forall k | 0 <= k < |tokens| :: !NamesLanguage(tokens[k])) ==> r.value.language == "")
  {
    hide FilenameInfo, FileName, Prefix, ServingToken, ServingLanguage, ServingParams, ValidStamp, NamesLanguage;
    ServingRoundTrip(scenario, tokens, s);
    LastLanguage(tokens, "");
  }
}
