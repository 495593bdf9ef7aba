/** The records the generators write for a request, and the rows the parser makes of them. */
module Records {
  import opened Options
  import opened Text
  import opened Durations
  import opened Instants
  import opened Slog
  import opened LogFile

  /** What a worker knows when its request has been answered. */
  datatype Metrics = Metrics(
    ttfb: int, total: int, dns: int, connect: int, tls: int, status: int, body: string)

  /** What every record of a request begins with. */
  function Head(time: string, level: string, message: string, target: string): Record {
    [Attr("time", Str(time)), Attr("level", Str(level)), Attr("msg", Str(message)), Attr("target", Str(target))]
  }

  function SuccessTail(id: Option<string>, m: Metrics): Record {
    (if id.Some? then [Attr("id", Str(id.value))] else [])
    + [Attr("TTFB", Dur(m.ttfb)), Attr("Total", Dur(m.total)), Attr("isCold", Str(m.body)), Attr("status", Num(m.status)),
       Attr("DNS", Dur(m.dns)), Attr("Connect", Dur(m.connect)), Attr("TLS", Dur(m.tls))]
  }

  /** Written on success; cloud events carry an id. */
  function SuccessRecord(time: string, target: string, id: Option<string>, m: Metrics): Record {
    Head(time, "INFO", "Success", target) + SuccessTail(id, m)
  }

  function FailedTail(m: Metrics): Record {
    [Attr("status", Num(m.status)), Attr("TTFB", Dur(m.ttfb)), Attr("Total", Dur(m.total)),
     Attr("DNS", Dur(m.dns)), Attr("Connect", Dur(m.connect)), Attr("TLS", Dur(m.tls))]
  }

  /** Written at maximum throughput for an answer other than 200. */
  function FailedRecord(time: string, target: string, m: Metrics): Record {
    Head(time, "ERROR", "Failed", target) + FailedTail(m)
  }

  /** Written when the request or the reading of its body fails. */
  function ErrorRecord(time: string, message: string, target: string, error: string): Record {
    Head(time, "ERROR", message, target) + [Attr("error", Str(error))]
  }

  // ---------- the keys are different words ----------

  /** Length and first letter tell the keys apart. */
  function Code(key: string): int { if key == "" then 0 else 256 * |key| + key[0] as int }

  lemma ByCode(r: Record, codes: seq<int>)
    requires |codes| == |r| && forall i | 0 <= i < |r| :: Code(r[i].key) == codes[i]
    requires forall i, j | 0 <= i < j < |codes| :: codes[i] != codes[j]
    requires forall i | 0 <= i < |r| :: r[i].key != "" && AllWord(r[i].key)
    ensures DistinctKeys(r) && WordKeys(r)
  {
    forall a | a in r ensures a.key != "" && AllWord(a.key) {
      var i :| 0 <= i < |r| && r[i] == a;
    }
  }

  lemma Codes()
    ensures Code("time") == 1140 && Code("level") == 1388 && Code("msg") == 877 && Code("target") == 1652
    ensures Code("id") == 617 && Code("error") == 1381 && Code("TTFB") == 1108 && Code("Total") == 1364
    ensures Code("isCold") == 1641 && Code("status") == 1651
    ensures Code("DNS") == 836 && Code("Connect") == 1859 && Code("TLS") == 852
  {
  }

  lemma Words()
    ensures AllWord("time") && AllWord("level") && AllWord("msg") && AllWord("target")
    ensures AllWord("id") && AllWord("error") && AllWord("TTFB") && AllWord("Total")
    ensures AllWord("isCold") && AllWord("status")
    ensures AllWord("DNS") && AllWord("Connect") && AllWord("TLS")
  {
  }

  lemma SuccessKeysPlain(time: string, target: string, m: Metrics)
    ensures DistinctKeys(SuccessRecord(time, target, None, m)) && WordKeys(SuccessRecord(time, target, None, m))
  {
    Codes();
    Words();
    hide Code, AllWord;
    ByCode(SuccessRecord(time, target, None, m), [1140, 1388, 877, 1652, 1108, 1364, 1641, 1651, 836, 1859, 852]);
  }

  lemma SuccessKeysId(time: string, target: string, id: string, m: Metrics)
    ensures DistinctKeys(SuccessRecord(time, target, Some(id), m)) && WordKeys(SuccessRecord(time, target, Some(id), m))
  {
    Codes();
    Words();
    hide Code, AllWord;
    ByCode(SuccessRecord(time, target, Some(id), m), [1140, 1388, 877, 1652, 617, 1108, 1364, 1641, 1651, 836, 1859, 852]);
  }

  lemma SuccessKeys(time: string, target: string, id: Option<string>, m: Metrics)
    ensures DistinctKeys(SuccessRecord(time, target, id, m)) && WordKeys(SuccessRecord(time, target, id, m))
  {
    hide *;
    if id.None? {
      SuccessKeysPlain(time, target, m);
    } else {
      SuccessKeysId(time, target, id.value, m);
    }
  }

  lemma FailedKeys(time: string, target: string, m: Metrics)
    ensures DistinctKeys(FailedRecord(time, target, m)) && WordKeys(FailedRecord(time, target, m))
  {
    Codes();
    Words();
    hide Code, AllWord;
    ByCode(FailedRecord(time, target, m), [1140, 1388, 877, 1652, 1651, 1108, 1364, 836, 1859, 852]);
  }

  lemma ErrorKeys(time: string, message: string, target: string, error: string)
    ensures DistinctKeys(ErrorRecord(time, message, target, error)) && WordKeys(ErrorRecord(time, message, target, error))
  {
    Codes();
    Words();
    hide Code, AllWord;
    ByCode(ErrorRecord(time, message, target, error), [1140, 1388, 877, 1652, 1381]);
  }

  lemma TextAt(r: Record, i: nat)
    requires DistinctKeys(r) && i < |r|
    ensures HasKey(r, r[i].key) && TextOf(r, r[i].key) == ValueText(r[i].value)
  {
    hide ValueText;
    assert r[i] in r;
    var v := ValueOf(r, r[i].key);
    var j :| 0 <= j < |r| && r[j] == Attr(r[i].key, v.value);
  }

  // ---------- the cold flag ----------

  lemma DropOne(c: char, rest: string)
    requires c != SLASH
    ensures DropEscapedQuotes([c] + rest) == [c] + DropEscapedQuotes(rest)
  {
    var s := [c] + rest;
    assert "\\\""[0] == SLASH && s[0] == c && s[1..] == rest;
  }

  lemma {:induction false} DropPlain(w: string, rest: string)
    requires PlainText(w)
    ensures DropEscapedQuotes(w + rest) == w + DropEscapedQuotes(rest)
  {
    hide PlainText, DropEscapedQuotes, EscapeChar;
    if w == "" {
      assert w + rest == rest;
    } else {
      PlainTail(w);
      DropPlain(w[1..], rest);
      DropOne(w[0], w[1..] + rest);
      assert w + rest == [w[0]] + (w[1..] + rest);
    }
  }

  lemma TrimAround(w: string)
    requires PlainText(w)
    ensures TrimRight(TrimLeft("\"" + w + "\"")) == w
  {
    var s := "\"" + w + "\"";
    assert s[1..] == w + "\"";
    if w == "" {
      assert TrimLeft(s) == TrimLeft("\"") == "";
    } else {
      assert w[0] in w && w[|w| - 1] in w;
      assert TrimLeft(s) == w + "\"";
      assert (w + "\"")[..|w|] == w;
    }
  }

  /** A word as the functions return it: bare, or as a JSON string. */
  function Spelling(w: string, json: bool): string { if json then "\"" + w + "\"" else w }

  /** Text without quotes at its ends keeps them. */
  lemma TrimNothing(w: string)
    requires PlainText(w)
    ensures TrimRight(TrimLeft(w)) == w
  {
    if w != "" {
      assert w[0] in w && w[|w| - 1] in w;
    }
  }

  lemma BareCold(w: string)
    requires PlainText(w)
    ensures CleanCold(StrText(w)) == ToLower(w)
  {
    PlainEscape(w);
    LoneQuote();
    QuoteIsNoSlash();
    assert w + "" == w && DropEscapedQuotes("") == "";
    hide DropEscapedQuotes, TrimLeft, TrimRight, PlainText, Escape, NeedsQuoting, ToLower;
    DropPlain(w, "");
    if NeedsQuoting(w) {
      DropPlain(w, "\"");
      DropOne(QUOTE, w + "\"");
      assert [QUOTE] + (w + "\"") == "\"" + w + "\"";
      TrimAround(w);
    } else {
      TrimNothing(w);
    }
  }

  lemma LoneQuote()
    ensures DropEscapedQuotes("\"") == "\""
  {
  }

  lemma JsonText(w: string)
    requires PlainText(w)
    ensures StrText("\"" + w + "\"") == "\"" + ("\\\"" + (w + ("\\\"" + "\"")))
  {
    var s := "\"" + w + "\"";
    assert QUOTE in s && ForcesQuotes(QUOTE);
    PlainEscape(w);
    EscapeAppend("\"", w);
    EscapeAppend("\"" + w, "\"");
    EscapedQuote();
    assert Escape("\"") == "\\\"" by { assert "\""[1..] == ""; }
  }

  lemma DropEscaped(rest: string)
    ensures DropEscapedQuotes("\\\"" + rest) == DropEscapedQuotes(rest)
  {
    assert ("\\\"" + rest)[2..] == rest;
  }

  lemma QuoteIsNoSlash()
    ensures "\""[0] == QUOTE != SLASH
  {
  }

  lemma JsonCold(w: string)
    requires PlainText(w)
    ensures CleanCold(StrText("\"" + w + "\"")) == ToLower(w)
  {
    JsonText(w);
    LoneQuote();
    hide DropEscapedQuotes, StrText, PlainText, TrimLeft, TrimRight;
    var quoted := w + "\"";
    DropEscaped("\"");
    DropPlain(w, "\\\"" + "\"");
    DropEscaped(w + ("\\\"" + "\""));
    QuoteIsNoSlash();
    DropOne(QUOTE, "\\\"" + (w + ("\\\"" + "\"")));
    assert [QUOTE] == "\"";
    assert "\"" + quoted == "\"" + w + "\"";
    TrimAround(w);
  }

  lemma SpellingRecoverable(w: string, json: bool)
    requires PlainText(w)
    ensures Recoverable(Str(Spelling(w, json)))
  {
    var s := Spelling(w, json);
    if json {
      assert s[0] == QUOTE && s[1..|s| - 1] == w;
    }
  }

  /** Bare or as JSON, in any case: a success is read as cold exactly when its body says true. */
  lemma ColdFlag(time: string, target: string, id: Option<string>, m: Metrics, w: string, json: bool)
    requires PlainText(w) && m.body == Spelling(w, json)
    ensures RowOf(SuccessRecord(time, target, id, m)).isCold <==> ToLower(w) == "true"
  {
    var r := SuccessRecord(time, target, id, m);
    var i := if id.Some? then 7 else 6;
    SuccessKeys(time, target, id, m);
    hide CleanCold, ToLower, StrText, TextOf, DistinctKeys, WordKeys, ParseDuration, LooseAtoi;
    assert r[i] == Attr("isCold", Str(m.body));
    TextAt(r, i);
    if json {
      JsonCold(w);
    } else {
      BareCold(w);
    }
  }

  // ---------- the row of a success ----------

  /** The tokeniser gives the texts back whole. */
  predicate Traceable(time: string, target: string, id: Option<string>) {
    Recoverable(Str(time)) && Recoverable(Str(target)) && (id.Some? ==> Recoverable(Str(id.value)))
  }

  predicate Measured(m: Metrics) {
    && 0 <= m.ttfb < INT64_LIMIT && 0 <= m.total < INT64_LIMIT && 0 <= m.dns < INT64_LIMIT
    && 0 <= m.connect < INT64_LIMIT && 0 <= m.tls < INT64_LIMIT
    && -INT64_LIMIT <= m.status < INT64_LIMIT
  }

  lemma StatusBack(n: int)
    requires -INT64_LIMIT <= n < INT64_LIMIT
    ensures LooseAtoi(Signed(n)) == n
  {
    AtoiSigned(n);
    ItoaNumeral(if n < 0 then -n else n);
  }

  lemma SuccessTexts(time: string, target: string, id: Option<string>, m: Metrics)
    ensures var r := SuccessRecord(time, target, id, m);
            && TextOf(r, "time") == StrText(time) && TextOf(r, "target") == StrText(target)
            && TextOf(r, "msg") == StrText("Success")
            && TextOf(r, "isCold") == StrText(m.body) && TextOf(r, "status") == Signed(m.status)
            && TextOf(r, "TTFB") == DurationText(m.ttfb) && TextOf(r, "Total") == DurationText(m.total)
            && TextOf(r, "DNS") == DurationText(m.dns) && TextOf(r, "Connect") == DurationText(m.connect)
            && TextOf(r, "TLS") == DurationText(m.tls)
    ensures id.Some? ==> TextOf(SuccessRecord(time, target, id, m), "id") == StrText(id.value)
  {
    var r := SuccessRecord(time, target, id, m);
    var k := if id.Some? then 5 else 4;
    SuccessKeys(time, target, id, m);
    hide TextOf, DistinctKeys, WordKeys, StrText, DurationText, Signed;
    TextAt(r, 0);
    TextAt(r, 2);
    TextAt(r, 3);
    if id.Some? {
      TextAt(r, 4);
    }
    TextAt(r, k);
    TextAt(r, k + 1);
    TextAt(r, k + 2);
    TextAt(r, k + 3);
    TextAt(r, k + 4);
    TextAt(r, k + 5);
    TextAt(r, k + 6);
  }

  lemma SuccessTailLacks(m: Metrics)
    ensures forall a | a in SuccessTail(None, m) :: Code(a.key) != 617
  {
    Codes();
    hide Code;
  }

  lemma NoId(time: string, target: string, m: Metrics)
    ensures TextOf(SuccessRecord(time, target, None, m), "id") == ""
  {
    Codes();
    HeadLacks(time, "INFO", "Success", target);
    SuccessTailLacks(m);
    hide Code, TextOf, Head, SuccessTail;
    NoKey(SuccessRecord(time, target, None, m), "id");
  }

  /** A success line, rendered and parsed, gives back its time, the printed target and id, its status,
      and every duration in whole milliseconds. */
  lemma SuccessRow(time: string, target: string, id: Option<string>, m: Metrics)
    requires Traceable(time, target, id) && Measured(m) && Recoverable(Str(m.body))
    ensures LineRequest(Render(SuccessRecord(time, target, id, m)))
         == Request(LooseInstant(StrText(time)), if id.Some? then StrText(id.value) else "", m.status, m.ttfb / MILLI, m.total / MILLI,
                    CleanCold(StrText(m.body)) == "true", m.dns / MILLI, m.connect / MILLI, m.tls / MILLI, "", StrText(target))
  {
    hide Render, LineRequest, TextOf, ParseDuration, DurationText, LooseAtoi, Signed, LooseInstant, CleanCold, DistinctKeys, WordKeys, Recoverable;
    var r := SuccessRecord(time, target, id, m);
    SuccessKeys(time, target, id, m);
    SuccessRecoverable(time, target, id, m);
    RecordRow(r);
    SuccessTexts(time, target, id, m);
    PlainWord("Success");
    if id.None? {
      NoId(time, target, m);
    }
    StatusBack(m.status);
    MetricsBack(m);
    OneWord();
  }

  lemma RecoverableAppend(x: Record, y: Record)
    requires AllRecoverable(x) && AllRecoverable(y)
    ensures AllRecoverable(x + y)
  {
    hide Recoverable;
  }

  lemma HeadRecoverable(time: string, level: string, message: string, target: string)
    requires Recoverable(Str(time)) && QuoteFree(level) && QuoteFree(message) && Recoverable(Str(target))
    ensures AllRecoverable(Head(time, level, message, target))
  {
    hide QuoteFree, JsonShape;
  }

  lemma LevelsQuoteFree()
    ensures QuoteFree("INFO") && QuoteFree("ERROR") && QuoteFree("Success") && QuoteFree("Failed")
  {
  }

  lemma SuccessTailRecoverable(id: Option<string>, m: Metrics)
    requires Recoverable(Str(m.body)) && (id.Some? ==> Recoverable(Str(id.value)))
    ensures AllRecoverable(SuccessTail(id, m))
  {
    hide QuoteFree, JsonShape;
  }

  lemma SuccessRecoverable(time: string, target: string, id: Option<string>, m: Metrics)
    requires Traceable(time, target, id) && Recoverable(Str(m.body))
    ensures AllRecoverable(SuccessRecord(time, target, id, m))
  {
    LevelsQuoteFree();
    hide QuoteFree, Recoverable, AllRecoverable, Head, SuccessTail, NeedsQuoting;
    HeadRecoverable(time, "INFO", "Success", target);
    SuccessTailRecoverable(id, m);
    RecoverableAppend(Head(time, "INFO", "Success", target), SuccessTail(id, m));
  }

  lemma PlainRecoverable(s: string)
    requires !NeedsQuoting(s)
    ensures Recoverable(Str(s)) && StrText(s) == s
  {
    assert ForcesQuotes(QUOTE);
  }

  /** The same end to end: rendered, tokenised and parsed. */
  lemma ColdRow(time: string, target: string, id: Option<string>, m: Metrics, w: string, json: bool)
    requires Traceable(time, target, id) && PlainText(w) && m.body == Spelling(w, json)
    ensures LineRequest(Render(SuccessRecord(time, target, id, m))).isCold <==> ToLower(w) == "true"
  {
    hide Render, LineRequest, RowOf, PlainText, Spelling, Recoverable, DistinctKeys, WordKeys, AllRecoverable;
    SpellingRecoverable(w, json);
    SuccessKeys(time, target, id, m);
    SuccessRecoverable(time, target, id, m);
    RecordRow(SuccessRecord(time, target, id, m));
    ColdFlag(time, target, id, m, w, json);
  }

  // ---------- the row of a failure ----------

  function EventFailure(id: string, error: string, m: Metrics): Record {
    [Attr("id", Str(id)), Attr("error", Str(error)), Attr("TTFB", Dur(m.ttfb)), Attr("Total", Dur(m.total)),
     Attr("DNS", Dur(m.dns)), Attr("Connect", Dur(m.connect)), Attr("TLS", Dur(m.tls))]
  }

  /** Written by the cloud-event generator when the pool returns both an error and metrics. */
  function FailedEventRecord(time: string, target: string, id: string, error: string, m: Metrics): Record {
    Head(time, "ERROR", "Failed", target) + EventFailure(id, error, m)
  }

  lemma FailedEventKeys(time: string, target: string, id: string, error: string, m: Metrics)
    ensures DistinctKeys(FailedEventRecord(time, target, id, error, m)) && WordKeys(FailedEventRecord(time, target, id, error, m))
  {
    Codes();
    Words();
    hide Code, AllWord;
    ByCode(FailedEventRecord(time, target, id, error, m), [1140, 1388, 877, 1652, 617, 1381, 1108, 1364, 836, 1859, 852]);
  }

  lemma NoKey(r: Record, key: string)
    requires forall a | a in r :: Code(a.key) != Code(key)
    ensures TextOf(r, key) == ""
  {
    hide Code;
    assert !HasKey(r, key);
  }

  lemma HeadLacks(time: string, level: string, message: string, target: string)
    ensures forall a | a in Head(time, level, message, target) ::
              Code(a.key) != 617 && Code(a.key) != 1381 && Code(a.key) != 1641 && Code(a.key) != 1651
  {
    Codes();
    hide Code;
  }

  lemma FailedTailLacks(m: Metrics)
    ensures forall a | a in FailedTail(m) :: Code(a.key) != 617 && Code(a.key) != 1381 && Code(a.key) != 1641
  {
    Codes();
    hide Code;
  }

  lemma FailedMissing(time: string, target: string, m: Metrics)
    ensures var r := FailedRecord(time, target, m);
            TextOf(r, "id") == "" && TextOf(r, "error") == "" && TextOf(r, "isCold") == ""
  {
    Codes();
    HeadLacks(time, "ERROR", "Failed", target);
    FailedTailLacks(m);
    hide TextOf, Code, Head, FailedTail;
    var r := FailedRecord(time, target, m);
    NoKey(r, "id");
    NoKey(r, "error");
    NoKey(r, "isCold");
  }

  lemma FailedTexts(time: string, target: string, m: Metrics)
    ensures var r := FailedRecord(time, target, m);
            && TextOf(r, "time") == StrText(time) && TextOf(r, "target") == StrText(target)
            && TextOf(r, "msg") == StrText("Failed") && TextOf(r, "status") == Signed(m.status)
            && TextOf(r, "TTFB") == DurationText(m.ttfb) && TextOf(r, "Total") == DurationText(m.total)
            && TextOf(r, "DNS") == DurationText(m.dns) && TextOf(r, "Connect") == DurationText(m.connect)
            && TextOf(r, "TLS") == DurationText(m.tls)
  {
    var r := FailedRecord(time, target, m);
    FailedKeys(time, target, m);
    hide TextOf, DistinctKeys, WordKeys, StrText, DurationText, Signed;
    TextAt(r, 0);
    TextAt(r, 2);
    TextAt(r, 3);
    TextAt(r, 4);
    TextAt(r, 5);
    TextAt(r, 6);
    TextAt(r, 7);
    TextAt(r, 8);
    TextAt(r, 9);
  }

  lemma NeverCold()
    ensures CleanCold("") != "true"
  {
  }

  /** The five durations, in whole milliseconds. */
  lemma MetricsBack(m: Metrics)
    requires Measured(m)
    ensures ParseDuration(DurationText(m.ttfb)) == m.ttfb / MILLI && ParseDuration(DurationText(m.total)) == m.total / MILLI
    ensures ParseDuration(DurationText(m.dns)) == m.dns / MILLI && ParseDuration(DurationText(m.connect)) == m.connect / MILLI
    ensures ParseDuration(DurationText(m.tls)) == m.tls / MILLI
  {
    hide ParseDuration, DurationText;
    PrintedMilliseconds(m.ttfb);
    PrintedMilliseconds(m.total);
    PrintedMilliseconds(m.dns);
    PrintedMilliseconds(m.connect);
    PrintedMilliseconds(m.tls);
  }

  lemma FailedRecoverable(time: string, target: string, m: Metrics)
    requires Traceable(time, target, None)
    ensures AllRecoverable(FailedRecord(time, target, m))
  {
    LevelsQuoteFree();
    assert AllRecoverable(FailedTail(m));
    hide QuoteFree, Recoverable, AllRecoverable, Head, FailedTail, NeedsQuoting;
    HeadRecoverable(time, "ERROR", "Failed", target);
    RecoverableAppend(Head(time, "ERROR", "Failed", target), FailedTail(m));
  }

  /** A refused status gives a row with that status and no error text. */
  lemma FailedRow(time: string, target: string, m: Metrics)
    requires Traceable(time, target, None) && Measured(m)
    ensures LineRequest(Render(FailedRecord(time, target, m)))
         == Request(LooseInstant(StrText(time)), "", m.status, m.ttfb / MILLI, m.total / MILLI, false,
                    m.dns / MILLI, m.connect / MILLI, m.tls / MILLI, "", StrText(target))
  {
    hide Render, LineRequest, TextOf, ParseDuration, DurationText, LooseAtoi, Signed, LooseInstant, CleanCold, DistinctKeys, WordKeys;
    FailedKeys(time, target, m);
    FailedRecoverable(time, target, m);
    PlainWord("Failed");
    hide AllRecoverable, FailedRecord;
    RecordRow(FailedRecord(time, target, m));
    FailedTexts(time, target, m);
    FailedMissing(time, target, m);
    StatusBack(m.status);
    MetricsBack(m);
    NeverCold();
  }

  lemma EventFailureLacks(id: string, error: string, m: Metrics)
    ensures forall a | a in EventFailure(id, error, m) :: Code(a.key) != 1651 && Code(a.key) != 1641
  {
    Codes();
    hide Code;
  }

  lemma FailedEventMissing(time: string, target: string, id: string, error: string, m: Metrics)
    ensures var r := FailedEventRecord(time, target, id, error, m);
            TextOf(r, "status") == "" && TextOf(r, "isCold") == ""
  {
    Codes();
    HeadLacks(time, "ERROR", "Failed", target);
    EventFailureLacks(id, error, m);
    hide TextOf, Code, Head, EventFailure;
    var r := FailedEventRecord(time, target, id, error, m);
    NoKey(r, "status");
    NoKey(r, "isCold");
  }

  lemma FailedEventTexts(time: string, target: string, id: string, error: string, m: Metrics)
    ensures var r := FailedEventRecord(time, target, id, error, m);
            && TextOf(r, "time") == StrText(time) && TextOf(r, "target") == StrText(target)
            && TextOf(r, "msg") == StrText("Failed") && TextOf(r, "id") == StrText(id) && TextOf(r, "error") == StrText(error)
            && TextOf(r, "TTFB") == DurationText(m.ttfb) && TextOf(r, "Total") == DurationText(m.total)
            && TextOf(r, "DNS") == DurationText(m.dns) && TextOf(r, "Connect") == DurationText(m.connect)
            && TextOf(r, "TLS") == DurationText(m.tls)
  {
    var r := FailedEventRecord(time, target, id, error, m);
    FailedEventKeys(time, target, id, error, m);
    hide TextOf, DistinctKeys, WordKeys, StrText, DurationText;
    TextAt(r, 0);
    TextAt(r, 2);
    TextAt(r, 3);
    TextAt(r, 4);
    TextAt(r, 5);
    TextAt(r, 6);
    TextAt(r, 7);
    TextAt(r, 8);
    TextAt(r, 9);
    TextAt(r, 10);
  }

  lemma NoStatus()
    ensures LooseAtoi("") == 0
  {
  }

  lemma EventFailureRecoverable(id: string, error: string, m: Metrics)
    requires Recoverable(Str(id)) && Recoverable(Str(error))
    ensures AllRecoverable(EventFailure(id, error, m))
  {
    hide QuoteFree, JsonShape;
  }

  lemma FailedEventRecoverable(time: string, target: string, id: string, error: string, m: Metrics)
    requires Traceable(time, target, Some(id)) && Recoverable(Str(error))
    ensures AllRecoverable(FailedEventRecord(time, target, id, error, m))
  {
    LevelsQuoteFree();
    hide QuoteFree, Recoverable, AllRecoverable, Head, EventFailure, NeedsQuoting;
    HeadRecoverable(time, "ERROR", "Failed", target);
    EventFailureRecoverable(id, error, m);
    RecoverableAppend(Head(time, "ERROR", "Failed", target), EventFailure(id, error, m));
  }

  /** A failed cloud event gives a row with status 0 and the error's printed text, quotes included. */
  lemma FailedEventRow(time: string, target: string, id: string, error: string, m: Metrics)
    requires Traceable(time, target, Some(id)) && Measured(m) && Recoverable(Str(error))
    ensures LineRequest(Render(FailedEventRecord(time, target, id, error, m)))
         == Request(LooseInstant(StrText(time)), StrText(id), 0, m.ttfb / MILLI, m.total / MILLI, false,
                    m.dns / MILLI, m.connect / MILLI, m.tls / MILLI, StrText(error), StrText(target))
  {
    hide Render, LineRequest, TextOf, ParseDuration, DurationText, LooseAtoi, LooseInstant, CleanCold, DistinctKeys, WordKeys;
    FailedEventKeys(time, target, id, error, m);
    FailedEventRecoverable(time, target, id, error, m);
    PlainWord("Failed");
    hide AllRecoverable, FailedEventRecord;
    RecordRow(FailedEventRecord(time, target, id, error, m));
    FailedEventTexts(time, target, id, error, m);
    FailedEventMissing(time, target, id, error, m);
    NoStatus();
    MetricsBack(m);
    NeverCold();
  }

  // ---------- times ----------

  /** Every success row keeps the order of first byte and completion. */
  lemma TimingOrder(time: string, target: string, id: Option<string>, m: Metrics)
    requires Traceable(time, target, id) && Measured(m) && Recoverable(Str(m.body)) && m.ttfb <= m.total
    ensures var row := LineRequest(Render(SuccessRecord(time, target, id, m)));
            0 <= row.ttfb <= row.total
  {
    hide Render, LineRequest, CleanCold, Recoverable, Traceable;
    SuccessRow(time, target, id, m);
  }

  lemma TimelyPlain(s: string)
    requires Timely(s) && s != ""
    ensures !NeedsQuoting(s) && '=' !in s
  {
  }

  /** A success logged at any instant, in any zone, is stored at that instant to the millisecond. */
  lemma SuccessInstant(t: int, offset: int, target: string, id: Option<string>, m: Metrics)
    requires Zoned(t, offset) && Traceable("", target, id) && Measured(m) && Recoverable(Str(m.body))
    ensures LineRequest(Render(SuccessRecord(InstantText(t, offset), target, id, m))).timestamp == t - t % MILLI
  {
    hide Render, LineRequest, CleanCold, Recoverable, NeedsQuoting, Timely, InstantText, ParseInstant, Zoned;
    InstantRoundTrip(t, offset);
    InstantTimely(t, offset);
    TimelyPlain(InstantText(t, offset));
    PlainRecoverable(InstantText(t, offset));
    SuccessRow(InstantText(t, offset), target, id, m);
  }

  // ---------- what the filter asks of the texts ----------

  predicate QuietText(text: string) { !Contains(text, "msg=Success") && !Contains(text, "msg=Failed") }

  lemma {:induction false} NoEquals(s: string, word: string)
    requires '=' !in s
    ensures !Contains(s, "msg=" + word)
  {
    var pat := "msg=" + word;
    assert pat[3] == '=';
    if |s| > 3 {
      assert s[3] in s;
    }
    if s != "" {
      NoEquals(s[1..], word);
    }
  }

  lemma QuietNumbers(n: int)
    ensures QuietText(Signed(n)) && QuietText(DurationText(n))
  {
    hide Contains, DurationText;
    ItoaNumeral(if n < 0 then -n else n);
    DurationChars(n);
    assert "msg=" + "Success" == "msg=Success" && "msg=" + "Failed" == "msg=Failed";
    NoEquals(Signed(n), "Success");
    NoEquals(Signed(n), "Failed");
    NoEquals(DurationText(n), "Success");
    NoEquals(DurationText(n), "Failed");
  }

  lemma QuietWord(w: string)
    requires AllWord(w)
    ensures QuietText(w)
  {
    hide Contains;
    assert "msg=" + "Success" == "msg=Success" && "msg=" + "Failed" == "msg=Failed";
    NoEquals(w, "Success");
    NoEquals(w, "Failed");
  }

  /** Only the message key ends in `msg`. */
  lemma OtherKeys(key: string)
    requires key != "" && key[|key| - 1] != 'g'
    ensures !HasSuffix(key, "msg") && key != "msg"
  {
    if HasSuffix(key, "msg") {
      SuffixByLast(key, "msg");
    }
  }

  lemma Lasts()
    ensures !HasSuffix("time", "msg") && !HasSuffix("level", "msg") && !HasSuffix("target", "msg")
    ensures !HasSuffix("id", "msg") && !HasSuffix("error", "msg") && !HasSuffix("TTFB", "msg")
    ensures !HasSuffix("Total", "msg") && !HasSuffix("isCold", "msg") && !HasSuffix("status", "msg")
    ensures !HasSuffix("DNS", "msg") && !HasSuffix("Connect", "msg") && !HasSuffix("TLS", "msg")
  {
    OtherKeys("time");
    OtherKeys("level");
    OtherKeys("target");
    OtherKeys("id");
    OtherKeys("error");
    OtherKeys("TTFB");
    OtherKeys("Total");
    OtherKeys("isCold");
    OtherKeys("status");
    OtherKeys("DNS");
    OtherKeys("Connect");
    OtherKeys("TLS");
  }

  predicate QuietTexts(time: string, target: string, id: Option<string>) {
    && QuietText(StrText(time)) && QuietText(StrText(target)) && (id.Some? ==> QuietText(StrText(id.value)))
  }

  lemma MessageKey(r: Record, text: string)
    requires DistinctKeys(r) && |r| > 2 && r[2] == Attr("msg", Str(text))
    requires "Success" <= StrText(text) ==> text == "Success"
    requires "Failed" <= StrText(text) ==> text == "Failed"
    ensures Message(r, text)
  {
    hide StrText;
    assert r[2] in r;
    forall a | a in r && a.key == "msg" ensures a.value == Str(text) {
      var i :| 0 <= i < |r| && r[i] == a;
    }
  }

  lemma QuietStr(key: string, s: string)
    requires QuietText(StrText(s)) && (HasSuffix(key, "msg") ==> key == "msg")
    ensures QuietAttr(Attr(key, Str(s)))
  {
  }

  lemma QuietDur(key: string, d: int)
    requires !HasSuffix(key, "msg")
    ensures QuietAttr(Attr(key, Dur(d))) && QuietAttr(Attr(key, Num(d)))
  {
    QuietNumbers(d);
  }

  lemma PlainLevel()
    ensures StrText("INFO") == "INFO" && StrText("ERROR") == "ERROR"
  {
  }

  lemma QuietLevels()
    ensures QuietAttr(Attr("level", Str("INFO"))) && QuietAttr(Attr("level", Str("ERROR")))
    ensures QuietAttr(Attr("msg", Str("Success"))) && QuietAttr(Attr("msg", Str("Failed")))
  {
    hide StrText, Contains, HasSuffix;
    PlainLevel();
    PlainWord("Success");
    PlainWord("Failed");
    QuietWord("INFO");
    QuietWord("ERROR");
    QuietWord("Success");
    QuietWord("Failed");
    Lasts();
  }

  lemma QuietMetrics(m: Metrics)
    ensures QuietAttr(Attr("TTFB", Dur(m.ttfb))) && QuietAttr(Attr("Total", Dur(m.total)))
    ensures QuietAttr(Attr("status", Num(m.status))) && QuietAttr(Attr("DNS", Dur(m.dns)))
    ensures QuietAttr(Attr("Connect", Dur(m.connect))) && QuietAttr(Attr("TLS", Dur(m.tls)))
  {
    Lasts();
    hide HasSuffix, QuietAttr;
    QuietDur("TTFB", m.ttfb);
    QuietDur("Total", m.total);
    QuietDur("status", m.status);
    QuietDur("DNS", m.dns);
    QuietDur("Connect", m.connect);
    QuietDur("TLS", m.tls);
  }

  lemma OneWord()
    ensures !("Failed" <= "Success") && !("Success" <= "Failed") && "Success" != "Failed"
  {
    assert "Success"[0] != "Failed"[0];
  }

  lemma QuietAppend(x: Record, y: Record)
    requires Quiet(x) && Quiet(y)
    ensures Quiet(x + y)
  {
  }

  lemma QuietTail(id: Option<string>, m: Metrics)
    requires id.Some? ==> QuietText(StrText(id.value))
    requires QuietText(StrText(m.body))
    ensures Quiet(SuccessTail(id, m))
  {
    Lasts();
    QuietMetrics(m);
    hide StrText, HasSuffix, QuietAttr, QuietText;
    QuietStr("isCold", m.body);
    if id.Some? {
      QuietStr("id", id.value);
    }
  }

  lemma QuietHead(time: string, level: string, message: string, target: string)
    requires QuietText(StrText(time)) && QuietText(StrText(target))
    requires level == "INFO" || level == "ERROR"
    requires QuietText(StrText(message))
    ensures Quiet(Head(time, level, message, target))
  {
    Lasts();
    QuietLevels();
    hide StrText, HasSuffix, QuietAttr, QuietText;
    QuietStr("time", time);
    QuietStr("target", target);
    QuietStr("msg", message);
  }

  lemma SuccessQuiet(time: string, target: string, id: Option<string>, m: Metrics)
    requires QuietTexts(time, target, id) && QuietText(StrText(m.body))
    ensures Quiet(SuccessRecord(time, target, id, m))
  {
    PlainWord("Success");
    QuietWord("Success");
    hide StrText, Quiet, QuietText, SuccessTail, Head;
    QuietHead(time, "INFO", "Success", target);
    QuietTail(id, m);
    QuietAppend(Head(time, "INFO", "Success", target), SuccessTail(id, m));
  }

  lemma CountedEmitted(r: Record, text: string)
    requires WordKeys(r) && DistinctKeys(r) && Quiet(r)
    requires |r| > 2 && r[2] == Attr("msg", Str(text)) && Counted(text)
    ensures Emitted(r, text)
  {
    PlainWord(text);
    OneWord();
    hide StrText, DistinctKeys, Quiet, WordKeys;
    MessageKey(r, text);
  }

  lemma SuccessMessage(time: string, target: string, id: Option<string>, m: Metrics)
    ensures var r := SuccessRecord(time, target, id, m); |r| > 2 && r[2] == Attr("msg", Str("Success")) && Counted("Success")
  {
  }

  lemma SuccessEmitted(time: string, target: string, id: Option<string>, m: Metrics)
    requires QuietTexts(time, target, id) && QuietText(StrText(m.body))
    ensures Emitted(SuccessRecord(time, target, id, m), "Success")
  {
    hide *;
    SuccessKeys(time, target, id, m);
    SuccessQuiet(time, target, id, m);
    SuccessMessage(time, target, id, m);
    CountedEmitted(SuccessRecord(time, target, id, m), "Success");
  }

  lemma QuietFailure(m: Metrics)
    ensures Quiet(FailedTail(m))
  {
    QuietMetrics(m);
    hide QuietAttr;
  }

  lemma FailedQuiet(time: string, target: string, m: Metrics)
    requires QuietTexts(time, target, None)
    ensures Quiet(FailedRecord(time, target, m))
  {
    PlainWord("Failed");
    QuietWord("Failed");
    hide StrText, Quiet, QuietText, FailedTail, Head;
    QuietHead(time, "ERROR", "Failed", target);
    QuietFailure(m);
    QuietAppend(Head(time, "ERROR", "Failed", target), FailedTail(m));
  }

  lemma FailedMessage(time: string, target: string, m: Metrics)
    ensures var r := FailedRecord(time, target, m); |r| > 2 && r[2] == Attr("msg", Str("Failed")) && Counted("Failed")
  {
  }

  lemma FailedEmitted(time: string, target: string, m: Metrics)
    requires QuietTexts(time, target, None)
    ensures Emitted(FailedRecord(time, target, m), "Failed")
  {
    hide *;
    FailedKeys(time, target, m);
    FailedQuiet(time, target, m);
    FailedMessage(time, target, m);
    CountedEmitted(FailedRecord(time, target, m), "Failed");
  }

  lemma QuietEventFailure(id: string, error: string, m: Metrics)
    requires QuietText(StrText(id)) && QuietText(StrText(error))
    ensures Quiet(EventFailure(id, error, m))
  {
    Lasts();
    QuietMetrics(m);
    hide StrText, HasSuffix, QuietAttr, QuietText;
    QuietStr("id", id);
    QuietStr("error", error);
  }

  lemma FailedEventQuiet(time: string, target: string, id: string, error: string, m: Metrics)
    requires QuietTexts(time, target, Some(id)) && QuietText(StrText(error))
    ensures Quiet(FailedEventRecord(time, target, id, error, m))
  {
    PlainWord("Failed");
    QuietWord("Failed");
    hide StrText, Quiet, QuietText, EventFailure, Head;
    QuietHead(time, "ERROR", "Failed", target);
    QuietEventFailure(id, error, m);
    QuietAppend(Head(time, "ERROR", "Failed", target), EventFailure(id, error, m));
  }

  lemma FailedEventMessage(time: string, target: string, id: string, error: string, m: Metrics)
    ensures var r := FailedEventRecord(time, target, id, error, m);
            |r| > 2 && r[2] == Attr("msg", Str("Failed")) && Counted("Failed")
  {
  }

  lemma FailedEventEmitted(time: string, target: string, id: string, error: string, m: Metrics)
    requires QuietTexts(time, target, Some(id)) && QuietText(StrText(error))
    ensures Emitted(FailedEventRecord(time, target, id, error, m), "Failed")
  {
    hide *;
    FailedEventKeys(time, target, id, error, m);
    FailedEventQuiet(time, target, id, error, m);
    FailedEventMessage(time, target, id, error, m);
    CountedEmitted(FailedEventRecord(time, target, id, error, m), "Failed");
  }

  /** A message with a space is quoted, so it never looks like the one word Success or Failed. */
  lemma SpacedMessage(text: string)
    requires ' ' in text
    ensures !("Success" <= StrText(text)) && !("Failed" <= StrText(text)) && !Counted(text)
  {
    assert ForcesQuotes(' ');
    assert StrText(text)[0] == QUOTE && "Success"[0] != QUOTE && "Failed"[0] != QUOTE;
    assert ' ' !in "Success" && ' ' !in "Failed";
  }

  lemma ErrorMessage(time: string, message: string, target: string, error: string)
    ensures |ErrorRecord(time, message, target, error)| > 2
    ensures ErrorRecord(time, message, target, error)[2] == Attr("msg", Str(message))
  {
  }

  lemma ErrorQuiet(time: string, message: string, target: string, error: string)
    requires QuietTexts(time, target, None) && QuietText(StrText(message)) && QuietText(StrText(error))
    ensures Quiet(ErrorRecord(time, message, target, error))
  {
    Lasts();
    hide StrText, HasSuffix, QuietAttr, QuietText, Head;
    QuietHead(time, "ERROR", message, target);
    QuietStr("error", error);
    QuietAppend(Head(time, "ERROR", message, target), [Attr("error", Str(error))]);
  }

  /** An error record is never counted, whatever its error text, unless that text itself holds
      one of the two words of the filter. */
  lemma ErrorEmitted(time: string, message: string, target: string, error: string)
    requires QuietTexts(time, target, None) && QuietText(StrText(message)) && QuietText(StrText(error))
    requires ' ' in message
    ensures WellWritten(Entry(ErrorRecord(time, message, target, error), message))
    ensures !Counted(message)
  {
    ErrorKeys(time, message, target, error);
    SpacedMessage(message);
    ErrorQuiet(time, message, target, error);
    ErrorMessage(time, message, target, error);
    hide StrText, DistinctKeys, WordKeys, Quiet, QuietText, Message, ErrorRecord, Counted, AllRecoverable;
    MessageKey(ErrorRecord(time, message, target, error), message);
  }

  /** Written by the ramp-up and the cold-start loop for a request that sendRequest gave up. */
  function ComplaintRecord(time: string, error: string): Record {
    [Attr("time", Str(time)), Attr("level", Str("ERROR")), Attr("msg", Str("Request failed")), Attr("error", Str(error))]
  }

  lemma ComplaintKeys(time: string, error: string)
    ensures DistinctKeys(ComplaintRecord(time, error)) && WordKeys(ComplaintRecord(time, error))
  {
    Codes();
    Words();
    hide Code, AllWord;
    ByCode(ComplaintRecord(time, error), [1140, 1388, 877, 1381]);
  }

  lemma ComplaintQuiet(time: string, error: string)
    requires QuietText(StrText(time)) && QuietText(StrText(error)) && QuietText(StrText("Request failed"))
    ensures Quiet(ComplaintRecord(time, error))
  {
    Lasts();
    QuietLevels();
    hide StrText, HasSuffix, QuietAttr, QuietText;
    QuietStr("time", time);
    QuietStr("msg", "Request failed");
    QuietStr("error", error);
  }

  /** A plain text with a space is printed between quotes, as it is. */
  lemma QuietPhrase(s: string)
    requires PlainText(s) && ' ' in s && '=' !in s
    ensures QuietText(StrText(s))
  {
    assert ForcesQuotes(' ');
    PlainEscape(s);
    var text := "\"" + s + "\"";
    assert StrText(s) == text;
    assert "msg=" + "Success" == "msg=Success" && "msg=" + "Failed" == "msg=Failed";
    hide Contains, StrText;
    NoEquals(text, "Success");
    NoEquals(text, "Failed");
  }

  lemma ComplaintIsPlain()
    ensures PlainText("Request failed") && ' ' in "Request failed" && '=' !in "Request failed"
  {
    hide Control;
    var s := "Request failed";
    assert s[7] == ' ';
    forall i | 0 <= i < |s| ensures s[i] != QUOTE && s[i] != SLASH && 32 <= s[i] as int < 127 && s[i] != '=' {
    }
    assert forall c: char | c as int >= 32 :: !Control(c) by { Printable(); }
  }

  lemma Printable()
    ensures forall c: char | c as int >= 32 :: !Control(c)
  {
  }

  /** It repeats the error of the record before it and is never counted. */
  lemma ComplaintEmitted(time: string, error: string)
    requires QuietText(StrText(time)) && QuietText(StrText(error))
    ensures WellWritten(Entry(ComplaintRecord(time, error), "Request failed"))
    ensures !Counted("Request failed")
  {
    ComplaintKeys(time, error);
    ComplaintIsPlain();
    hide PlainText;
    QuietPhrase("Request failed");
    SpacedMessage("Request failed");
    ComplaintQuiet(time, error);
    hide StrText, HasSuffix, DistinctKeys, WordKeys, QuietAttr, QuietText, Message, Quiet;
    MessageKey(ComplaintRecord(time, error), "Request failed");
  }

  /** A record of main or of the scheduler: a message of several words and perhaps attributes. */
  function NoteRecord(time: string, level: string, message: string, attrs: Record): Record {
    [Attr("time", Str(time)), Attr("level", Str(level)), Attr("msg", Str(message))] + attrs
  }

  /** One that says no more than its message. */
  function InfoRecord(time: string, message: string): Record { NoteRecord(time, "INFO", message, []) }

  predicate NoteAttrs(attrs: Record) {
    && DistinctKeys(attrs) && WordKeys(attrs) && Quiet(attrs)
    && forall a | a in attrs :: a.key != "time" && a.key != "level" && a.key != "msg"
  }

  lemma NoteHead(time: string, level: string, message: string)
    ensures DistinctKeys(NoteRecord(time, level, message, [])) && WordKeys(NoteRecord(time, level, message, []))
  {
    Codes();
    Words();
    hide Code, AllWord;
    ByCode(NoteRecord(time, level, message, []), [1140, 1388, 877]);
  }

  lemma NoteKeys(time: string, level: string, message: string, attrs: Record)
    requires NoteAttrs(attrs)
    ensures DistinctKeys(NoteRecord(time, level, message, attrs)) && WordKeys(NoteRecord(time, level, message, attrs))
  {
    NoteHead(time, level, message);
    var head := NoteRecord(time, level, message, []);
    assert NoteRecord(time, level, message, attrs) == head + attrs;
    assert |head| == 3 && head[0].key == "time" && head[1].key == "level" && head[2].key == "msg";
    hide NoteRecord, Quiet, AllWord;
    assert forall k | 0 <= k < |attrs| :: attrs[k] in attrs;
  }

  lemma NoteQuiet(time: string, level: string, message: string, attrs: Record)
    requires QuietText(StrText(time)) && QuietText(StrText(message)) && NoteAttrs(attrs) && level in {"INFO", "ERROR"}
    ensures Quiet(NoteRecord(time, level, message, attrs))
  {
    Lasts();
    QuietLevels();
    hide StrText, HasSuffix, QuietAttr, QuietText, DistinctKeys, WordKeys;
    QuietStr("time", time);
    QuietStr("msg", message);
  }

  /** A message of several plain words is never counted, whatever the quiet attributes after it. */
  lemma NoteEmitted(time: string, level: string, message: string, attrs: Record)
    requires QuietText(StrText(time)) && PlainText(message) && ' ' in message && '=' !in message
    requires NoteAttrs(attrs) && level in {"INFO", "ERROR"}
    ensures WellWritten(Entry(NoteRecord(time, level, message, attrs), message)) && !Counted(message)
  {
    NoteKeys(time, level, message, attrs);
    QuietPhrase(message);
    SpacedMessage(message);
    NoteQuiet(time, level, message, attrs);
    hide StrText, HasSuffix, DistinctKeys, WordKeys, QuietAttr, QuietText, Message, Quiet, PlainText, NoteAttrs;
    MessageKey(NoteRecord(time, level, message, attrs), message);
  }

  /** Such as "Generator initialized". */
  lemma InfoEmitted(time: string, message: string)
    requires QuietText(StrText(time)) && PlainText(message) && ' ' in message && '=' !in message
    ensures WellWritten(Entry(InfoRecord(time, message), message)) && !Counted(message)
  {
    hide QuietText, StrText, PlainText, WellWritten, Counted, NoteRecord;
    NoteEmitted(time, "INFO", message, []);
  }
}
