/** cmd/logparser/main.go on one file: parseRequest, processFile, and what they recover from the
    records of the generators. */
module LogFile {
  import opened Options
  import opened Text
  import opened Tokens
  import opened Durations
  import opened Instants
  import opened Slog
  import opened Lines
  import opened ConfigLine

  /** A row of the requests table, with its instant in nanoseconds. */
  datatype Request = Request(
    timestamp: int, eventId: string, status: int, ttfb: int, total: int, isCold: bool,
    dns: int, connect: int, tls: int, errorMessage: string, target: string)

  // ---------- parseRequest ----------

  function Lookup(pairs: map<string, string>, key: string): string {
    if key in pairs then pairs[key] else ""
  }

  /** strconv.Atoi with its error dropped: 0 on malformed text, the nearest int64 out of range. */
  function LooseAtoi(s: string): int {
    var negative := s != "" && s[0] == '-';
    var digits := if s != "" && (s[0] == '-' || s[0] == '+') then s[1..] else s;
    if digits == "" || !AllDigits(digits) then 0
    else if negative then (if Numeral(digits) > INT64_LIMIT then -INT64_LIMIT else 0 - Numeral(digits))
    else if Numeral(digits) >= INT64_LIMIT then INT64_LIMIT - 1 else Numeral(digits)
  }

  /** Where Atoi has a value it is that value, otherwise zero or the end of the range. */
  lemma LooseIsAtoi(s: string)
    ensures Atoi(s).Some? ==> LooseAtoi(s) == Atoi(s).value
    ensures Atoi(s).None? ==> LooseAtoi(s) in {0, -0x8000_0000_0000_0000, 0x7FFF_FFFF_FFFF_FFFF}
  {
    hide Numeral;
  }

  /** strings.ReplaceAll of an escaped quote by nothing. */
  function DropEscapedQuotes(s: string): string {
    if "\\\"" <= s then DropEscapedQuotes(s[2..])
    else if s == "" then ""
    else [s[0]] + DropEscapedQuotes(s[1..])
  }

  function TrimLeft(s: string): string {
    if s != "" && s[0] == QUOTE then TrimLeft(s[1..]) else s
  }

  function TrimRight(s: string): string {
    if s != "" && s[|s| - 1] == QUOTE then TrimRight(s[..|s| - 1]) else s
  }

  function Lower(c: char): char {
    if 'A' <= c <= 'Z' then (c as int + 32) as char else c
  }

  function ToLower(s: string): string {
    if s == "" then "" else [Lower(s[0])] + ToLower(s[1..])
  }

  function CleanCold(text: string): string { ToLower(TrimRight(TrimLeft(DropEscapedQuotes(text)))) }

  function RequestOf(pairs: map<string, string>): Request {
    Request(
      LooseInstant(Lookup(pairs, "time")),
      Lookup(pairs, "id"),
      LooseAtoi(Lookup(pairs, "status")),
      ParseDuration(Lookup(pairs, "TTFB")),
      ParseDuration(Lookup(pairs, "Total")),
      CleanCold(Lookup(pairs, "isCold")) == "true",
      ParseDuration(Lookup(pairs, "DNS")),
      ParseDuration(Lookup(pairs, "Connect")),
      ParseDuration(Lookup(pairs, "TLS")),
      if Lookup(pairs, "msg") == "Failed" then Lookup(pairs, "error") else "",
      Lookup(pairs, "target"))
  }

  function LineRequest(line: string): Request { RequestOf(Fill(map[], FindAll(line))) }

  lemma AbsentFields()
    ensures LooseAtoi("") == 0 && CleanCold("") == "" && LooseInstant("") == 0
  {
  }

  method ParseRequest(line: string) returns (req: Request)
    ensures req == LineRequest(line)
  {
    AbsentFields();
    hide ParseDuration, LooseAtoi, CleanCold, Fill, FindAll, ParseInstant, LastValues;
    var pairs := ParseKeyValuePairs(line);
    req := Request(0, "", 0, 0, 0, false, 0, 0, 0, "", "");
    if "time" in pairs {
      var ts := ParseInstant(pairs["time"]);
      if ts.Some? {
        req := req.(timestamp := ts.value);
      }
    }
    if "status" in pairs {
      req := req.(status := LooseAtoi(pairs["status"]));
    }
    if "target" in pairs {
      req := req.(target := pairs["target"]);
    }
    if "isCold" in pairs {
      req := req.(isCold := CleanCold(pairs["isCold"]) == "true");
    }
    req := req.(ttfb := ParseDuration(Lookup(pairs, "TTFB")));
    req := req.(total := ParseDuration(Lookup(pairs, "Total")));
    req := req.(dns := ParseDuration(Lookup(pairs, "DNS")));
    req := req.(connect := ParseDuration(Lookup(pairs, "Connect")));
    req := req.(tls := ParseDuration(Lookup(pairs, "TLS")));
    if Lookup(pairs, "msg") == "Failed" {
      req := req.(errorMessage := Lookup(pairs, "error"));
    }
    if "id" in pairs {
      req := req.(eventId := pairs["id"]);
    }
  }

  // ---------- processFile ----------

  predicate Selected(line: string) { Contains(line, "msg=Success") || Contains(line, "msg=Failed") }

  function LineRequests(lines: seq<string>): seq<Request> {
    if lines == [] then []
    else (if Selected(lines[0]) then [LineRequest(lines[0])] else []) + LineRequests(lines[1..])
  }

  datatype FileError = Unreadable | EmptyFile | MissingConfig

  datatype FileResult = Failure(error: FileError) | Success(config: Config, requests: seq<Request>)

  function FileOf(content: Option<string>): FileResult {
    match content
    case None => Failure(Unreadable)
    case Some(text) =>
      var lines := ScanLines(text);
      if lines == [] then Failure(EmptyFile)
      else if |lines| == 1 then Failure(MissingConfig)
      else Success(ConfigOf(lines[1]), LineRequests(lines[2..]))
  }

  /** A file is refused exactly if it cannot be opened, is empty, or has one line. */
  lemma FileRefused(content: Option<string>)
    ensures FileOf(content) == Failure(Unreadable) <==> content.None?
    ensures FileOf(content) == Failure(EmptyFile) <==> content == Some("")
    ensures FileOf(content) == Failure(MissingConfig) <==> content.Some? && |ScanLines(content.value)| == 1
    ensures FileOf(content).Success? <==> content.Some? && |ScanLines(content.value)| >= 2
  {
    hide ConfigOf, LineRequests;
  }

  lemma {:induction false} LineRequestsSnoc(lines: seq<string>, line: string)
    ensures LineRequests(lines + [line])
         == LineRequests(lines) + if Selected(line) then [LineRequest(line)] else []
  {
    hide Selected, LineRequest;
    if lines == [] {
      assert lines + [line] == [line];
    } else {
      LineRequestsSnoc(lines[1..], line);
      assert (lines + [line])[1..] == lines[1..] + [line];
    }
  }

  lemma SliceSnoc(lines: seq<string>, from: nat, i: nat)
    requires from <= i < |lines|
    ensures lines[from..i + 1] == lines[from..i] + [lines[i]]
  {
  }

  /** The file is given by its contents, or by nothing when it cannot be opened. */
  method ProcessFile(content: Option<string>) returns (result: FileResult)
    ensures result == FileOf(content)
  {
    hide Contains, LineRequest, ConfigOf, ScanLines;
    if content.None? {
      return Failure(Unreadable);
    }
    var lines := ScanLines(content.value);
    if lines == [] {
      return Failure(EmptyFile);
    }
    if |lines| == 1 {
      return Failure(MissingConfig);
    }
    var config := ParseConfig(lines[1]);
    var requests: seq<Request> := [];
    var i := 2;
    while i < |lines|
      invariant 2 <= i <= |lines|
      invariant requests == LineRequests(lines[2..i])
    {
      SliceSnoc(lines, 2, i);
      LineRequestsSnoc(lines[2..i], lines[i]);
      if Contains(lines[i], "msg=Success") || Contains(lines[i], "msg=Failed") {
        var req := ParseRequest(lines[i]);
        requests := requests + [req];
      }
      i := i + 1;
    }
    assert lines[2..i] == lines[2..];
    result := Success(config, requests);
  }

  // ---------- records with distinct keys ----------

  predicate DistinctKeys(r: Record) {
    forall i, j | 0 <= i < j < |r| :: r[i].key != r[j].key
  }

  predicate HasKey(r: Record, key: string) { exists a :: a in r && a.key == key }

  lemma {:induction false} FillOther(m: map<string, string>, r: Record, key: string)
    requires !HasKey(r, key)
    ensures key in Fill(m, Texts(r)) <==> key in m
    ensures key in m ==> Fill(m, Texts(r))[key] == m[key]
    decreases |r|
  {
    hide ValueText;
    if r != [] {
      assert r[0] in r && forall a | a in r[1..] :: a in r;
      assert Texts(r)[1..] == Texts(r[1..]);
      FillOther(m[r[0].key := ValueText(r[0].value)], r[1..], key);
    }
  }

  lemma {:induction false} FillAt(m: map<string, string>, r: Record, i: nat)
    requires DistinctKeys(r) && i < |r|
    ensures r[i].key in Fill(m, Texts(r)) && Fill(m, Texts(r))[r[i].key] == ValueText(r[i].value)
    decreases |r|
  {
    hide ValueText;
    var m1 := m[r[0].key := ValueText(r[0].value)];
    assert Texts(r)[1..] == Texts(r[1..]);
    if i == 0 {
      forall a | a in r[1..] ensures a.key != r[0].key {
        var j :| 0 <= j < |r[1..]| && r[1..][j] == a;
        assert r[j + 1] == a;
      }
      FillOther(m1, r[1..], r[0].key);
    } else {
      assert DistinctKeys(r[1..]);
      FillAt(m1, r[1..], i - 1);
    }
  }

  /** The value of a key, if the record has it. */
  ghost function ValueOf(r: Record, key: string): (v: Option<Value>)
    ensures v.Some? <==> HasKey(r, key)
    ensures v.Some? ==> exists i :: 0 <= i < |r| && r[i] == Attr(key, v.value)
  {
    if HasKey(r, key) then
      var a :| a in r && a.key == key;
      Some(a.value)
    else None
  }

  /** A record's text for a key: empty when absent. */
  ghost function TextOf(r: Record, key: string): string {
    match ValueOf(r, key)
    case Some(v) => ValueText(v)
    case None => ""
  }

  /** What the row of a record has to be: every field from the value of its own key. */
  ghost function RowOf(r: Record): Request {
    Request(
      LooseInstant(TextOf(r, "time")), TextOf(r, "id"), LooseAtoi(TextOf(r, "status")),
      ParseDuration(TextOf(r, "TTFB")), ParseDuration(TextOf(r, "Total")),
      CleanCold(TextOf(r, "isCold")) == "true",
      ParseDuration(TextOf(r, "DNS")), ParseDuration(TextOf(r, "Connect")), ParseDuration(TextOf(r, "TLS")),
      if TextOf(r, "msg") == "Failed" then TextOf(r, "error") else "",
      TextOf(r, "target"))
  }

  lemma LookupText(r: Record, key: string)
    requires DistinctKeys(r)
    ensures Lookup(Fill(map[], Texts(r)), key) == TextOf(r, key)
  {
    hide ValueText, Fill, Texts;
    var v := ValueOf(r, key);
    if v.Some? {
      var i :| 0 <= i < |r| && r[i] == Attr(key, v.value);
      FillAt(map[], r, i);
    } else {
      FillOther(map[], r, key);
    }
  }

  /** A rendered record, tokenised and parsed, gives exactly its own fields. */
  lemma RecordRow(r: Record)
    requires WordKeys(r) && DistinctKeys(r) && AllRecoverable(r)
    ensures LineRequest(Render(r)) == RowOf(r)
  {
    RecordTokens(r);
    hide Fill, Texts, TextOf, Render, FindAll, LooseAtoi, LooseInstant, ParseDuration, CleanCold, Recoverable, Lookup;
    LookupText(r, "time");
    LookupText(r, "id");
    LookupText(r, "status");
    LookupText(r, "TTFB");
    LookupText(r, "Total");
    LookupText(r, "isCold");
    LookupText(r, "DNS");
    LookupText(r, "Connect");
    LookupText(r, "TLS");
    LookupText(r, "msg");
    LookupText(r, "error");
    LookupText(r, "target");
  }

  // ---------- end to end ----------

  predicate QuietAttr(a: Attr) {
    && !Contains(ValueText(a.value), "msg=Success") && !Contains(ValueText(a.value), "msg=Failed")
    && (HasSuffix(a.key, "msg") ==> a.key == "msg")
  }

  /** No attribute other than the message says what the filter looks for. */
  predicate Quiet(r: Record) { forall a | a in r :: QuietAttr(a) }

  /** The generators' messages: none merely begins with one of the two words. */
  predicate Message(r: Record, text: string) {
    && HasKey(r, "msg") && (forall a | a in r && a.key == "msg" :: a.value == Str(text))
    && ("Success" <= StrText(text) ==> text == "Success")
    && ("Failed" <= StrText(text) ==> text == "Failed")
  }

  /** A record as a worker or the scheduler may write it. */
  predicate Emitted(r: Record, text: string) {
    WordKeys(r) && DistinctKeys(r) && Quiet(r) && Message(r, text)
  }

  predicate Counted(text: string) { text == "Success" || text == "Failed" }

  lemma PlainWord(text: string)
    requires Counted(text)
    ensures StrText(text) == text
  {
  }

  /** The filter keeps exactly the records whose message is Success or Failed. */
  lemma FilterByMessage(r: Record, text: string)
    requires Emitted(r, text)
    ensures Selected(Render(r)) <==> Counted(text)
  {
    hide Render, Contains, StrText, HasSuffix, DistinctKeys, Mentions, QuietAttr, WordKeys, AllWord;
    assert AllWord("Success") && AllWord("Failed") by { TwoWords(); }
    FilterExact(r, "Success");
    FilterExact(r, "Failed");
    MentionsMessage(r, text, "Success");
    MentionsMessage(r, text, "Failed");
    if Counted(text) {
      PlainWord(text);
    }
    assert "msg=" + "Success" == "msg=Success" && "msg=" + "Failed" == "msg=Failed";
  }

  lemma TwoWords()
    ensures AllWord("Success") && AllWord("Failed")
  {
  }

  /** In a quiet record only the message can mention a word of the filter. */
  lemma MentionsMessage(r: Record, text: string, word: string)
    requires Quiet(r) && Message(r, text) && Counted(word)
    ensures (exists a :: a in r && Mentions(a, word)) <==> word <= StrText(text)
  {
    hide Contains, StrText, HasSuffix;
    assert HasSuffix("msg", "msg") by { SuffixWhole("msg"); }
    assert "msg=" + "Success" == "msg=Success" && "msg=" + "Failed" == "msg=Failed";
    var a :| a in r && a.key == "msg";
    assert Mentions(a, word) <==> word <= StrText(text);
    forall b | b in r && Mentions(b, word) ensures word <= StrText(text) {
      assert QuietAttr(b);
    }
  }

  /** A record and its message. */
  datatype Entry = Entry(record: Record, message: string)

  ghost function Rows(entries: seq<Entry>): seq<Request> {
    if entries == [] then []
    else (if Counted(entries[0].message) then [RowOf(entries[0].record)] else []) + Rows(entries[1..])
  }

  function RecordLines(entries: seq<Entry>): seq<string> {
    if entries == [] then [] else [Render(entries[0].record)] + RecordLines(entries[1..])
  }

  /** Only the records that are kept need values the tokeniser returns whole. */
  predicate WellWritten(e: Entry) {
    Emitted(e.record, e.message) && (Counted(e.message) ==> AllRecoverable(e.record))
  }

  /** What the parser makes of the lines it keeps. */
  function LineRows(entries: seq<Entry>): seq<Request> {
    if entries == [] then []
    else (if Counted(entries[0].message) then [LineRequest(Render(entries[0].record))] else []) + LineRows(entries[1..])
  }

  lemma {:induction false} LinesAreRows(entries: seq<Entry>)
    requires forall e | e in entries :: Emitted(e.record, e.message)
    ensures LineRequests(RecordLines(entries)) == LineRows(entries)
    ensures forall l | l in RecordLines(entries) :: ControlFree(l)
  {
    if entries != [] {
      hide Render, Selected, LineRequest, Emitted, Counted, ControlFree;
      var e := entries[0];
      assert e in entries && forall x | x in entries[1..] :: x in entries;
      LinesAreRows(entries[1..]);
      EntryLine(e);
      assert RecordLines(entries)[1..] == RecordLines(entries[1..]);
    }
  }

  lemma EntryLine(e: Entry)
    requires Emitted(e.record, e.message)
    ensures ControlFree(Render(e.record))
    ensures Selected(Render(e.record)) <==> Counted(e.message)
  {
    hide Render, Selected;
    RecordIsLine(e.record);
    FilterByMessage(e.record, e.message);
  }

  /** With values the tokeniser returns whole they are the records' own rows. */
  lemma {:induction false} WholeRows(entries: seq<Entry>)
    requires forall e | e in entries :: WellWritten(e)
    ensures LineRows(entries) == Rows(entries)
  {
    if entries != [] {
      hide Render, LineRequest, RowOf, AllRecoverable;
      var e := entries[0];
      assert e in entries && forall x | x in entries[1..] :: x in entries;
      WholeRows(entries[1..]);
      if Counted(e.message) {
        RecordRow(e.record);
      }
    }
  }

  /** However the workers' records interleave after the two header lines, the parser returns one
      row per Success or Failed record, in file order, and nothing for any other record. */
  lemma LogKept(first: Record, second: Record, entries: seq<Entry>)
    requires WordKeys(first) && WordKeys(second)
    requires forall e | e in entries :: Emitted(e.record, e.message)
    ensures FileOf(Some(FileText([Render(first), Render(second)] + RecordLines(entries))))
         == Success(ConfigOf(Render(second)), LineRows(entries))
  {
    hide Render, Emitted, LineRequests, LineRows, ControlFree, ScanLines, FileText, ConfigOf;
    var lines := [Render(first), Render(second)] + RecordLines(entries);
    RecordIsLine(first);
    RecordIsLine(second);
    LinesAreRows(entries);
    LinesRoundTrip(lines);
    assert lines[1] == Render(second) && lines[2..] == RecordLines(entries);
  }

  /** And if the counted records have values the tokeniser returns whole, each row holds its record's. */
  lemma LogRecovered(first: Record, second: Record, entries: seq<Entry>)
    requires WordKeys(first) && WordKeys(second)
    requires forall e | e in entries :: WellWritten(e)
    ensures FileOf(Some(FileText([Render(first), Render(second)] + RecordLines(entries))))
         == Success(ConfigOf(Render(second)), Rows(entries))
  {
    hide Render, LineRows, Rows, FileText, FileOf, ConfigOf, Emitted, AllRecoverable;
    LogKept(first, second, entries);
    WholeRows(entries);
  }
}
