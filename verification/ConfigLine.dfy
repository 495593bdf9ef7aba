/** The configuration line: how the logger prints the rate section of the configuration and what
    parseConfig in cmd/logparser/main.go finds in it by first match. */
module ConfigLine {
  import opened Options
  import opened Text
  import opened Regex
  import opened Durations
  import opened Slog
  import Instants

  datatype ConfigValue = Whole(n: int) | Words(text: string)

  type Config = map<string, ConfigValue>

  // ---------- parsing ----------

  function AddText(config: Config, key: string, found: Option<string>): Config {
    match found
    case None => config
    case Some(text) => config[key := Words(text)]
  }

  /** The submatches of the six patterns, each at the leftmost place it matches. */
  datatype Matches = Matches(
    rate: Option<string>, duration: Option<string>, maxIdleConns: Option<string>,
    maxIdleConnsPerHost: Option<string>, idleConnTimeout: Option<string>, timeout: Option<string>)

  function MatchesOf(line: string): Matches {
    Matches(
      FindAfter("RequestsPerSecond:", Digit, line),
      FindAfter("Duration:", Word, line),
      FindAfter("MaxIdleConns:", Digit, line),
      FindAfter("MaxIdleConnsPerHost:", Digit, line),
      FindAfter("IdleConnTimeout:", Word, line),
      FindAfter("Timeout:", Word, line))
  }

  function Collect(m: Matches): Config {
    var rate :=
      match m.rate
      case None => map[]
      case Some(digits) =>
        (match Atoi(digits)
         case None => map[]
         case Some(n) => map["requests_per_second" := Whole(n)]);
    var duration := AddText(rate, "duration", m.duration);
    var idle := AddText(duration, "max_idle_conns", m.maxIdleConns);
    var perHost := AddText(idle, "max_idle_conns_per_host", m.maxIdleConnsPerHost);
    var idleTimeout := AddText(perHost, "idle_conn_timeout", m.idleConnTimeout);
    AddText(idleTimeout, "timeout", m.timeout)
  }

  function ConfigOf(line: string): Config { Collect(MatchesOf(line)) }

  method AddConfigValue(line: string, tag: string, cls: Class, key: string, config: Config) returns (filled: Config)
    ensures filled == AddText(config, key, FindAfter(tag, cls, line))
  {
    filled := config;
    var found := FindAfter(tag, cls, line);
    if found.Some? {
      filled := filled[key := Words(found.value)];
    }
  }

  method ParseConfig(line: string) returns (config: Config)
    ensures config == ConfigOf(line)
  {
    config := map[];
    var found := FindAfter("RequestsPerSecond:", Digit, line);
    if found.Some? {
      var val := Atoi(found.value);
      if val.Some? {
        config := config["requests_per_second" := Whole(val.value)];
      }
    }
    config := AddConfigValue(line, "Duration:", Word, "duration", config);
    config := AddConfigValue(line, "MaxIdleConns:", Digit, "max_idle_conns", config);
    config := AddConfigValue(line, "MaxIdleConnsPerHost:", Digit, "max_idle_conns_per_host", config);
    config := AddConfigValue(line, "IdleConnTimeout:", Word, "idle_conn_timeout", config);
    config := AddConfigValue(line, "Timeout:", Word, "timeout", config);
  }

  // ---------- printing ----------

  /** A float64 in Go's shortest form: positional, or scientific from 1e6 up and below 1e-4. */
  datatype RateText =
    | Positional(whole: nat, fraction: string)
    | Scientific(lead: nat, fraction: string, exponent: int)

  function Fraction(digits: string): string { if digits == "" then "" else "." + digits }

  /** The digits in front of a rate's point or exponent. */
  function LeadDigits(r: RateText): string {
    match r
    case Positional(whole, _) => Itoa(whole)
    case Scientific(lead, _, _) => Itoa(lead)
  }

  function ExponentText(e: int): string {
    var n := if e < 0 then -e else e;
    (if e < 0 then "e-" else "e+") + (if n < 10 then "0" + Itoa(n) else Itoa(n))
  }

  function RateBack(r: RateText): string {
    match r
    case Positional(_, fraction) => Fraction(fraction)
    case Scientific(_, fraction, exponent) => Fraction(fraction) + ExponentText(exponent)
  }

  function PrintRate(r: RateText): string { LeadDigits(r) + RateBack(r) }

  /** Lead and fraction as one number, the point dropped. */
  function Mantissa(lead: nat, fraction: string): nat
    requires AllDigits(fraction)
  {
    lead * Pow10(|fraction|) + Numeral(fraction)
  }

  /** Shortest: no zero at the end of the fraction. */
  predicate Shortest(fraction: string) {
    AllDigits(fraction) && (fraction != "" ==> fraction[|fraction| - 1] != '0')
  }

  /** The forms the formatter chooses: positional for an exponent from -4 to 5 and for zero. */
  predicate RateForm(r: RateText) {
    match r
    case Positional(whole, fraction) =>
      && whole < 1_000_000 && Shortest(fraction)
      && (whole == 0 && fraction != "" ==> Numeral(fraction) * 10_000 >= Pow10(|fraction|))
    case Scientific(lead, fraction, exponent) =>
      1 <= lead < 10 && Shortest(fraction) && (exponent >= 6 || exponent < -4)
  }

  /** The rate the text denotes. */
  function RateValue(r: RateText): real
    requires RateForm(r)
  {
    match r
    case Positional(whole, fraction) => Mantissa(whole, fraction) as real / Pow10(|fraction|) as real
    case Scientific(lead, fraction, exponent) =>
      var m := Mantissa(lead, fraction) as real / Pow10(|fraction|) as real;
      if exponent >= 0 then m * Pow10(exponent) as real else m / Pow10(-exponent) as real
  }

  datatype RateSection = RateSection(
    rate: RateText, duration: int, maxIdleConns: int, maxIdleConnsPerHost: int,
    idleConnTimeout: int, timeout: int)

  /** A field of a structure as it is shown. */
  datatype Shown = Shown(name: string, value: string)

  function Field(name: string, value: string, end: char): string { name + (":" + (value + [end])) }

  /** The fields of a structure in the form %+v, up to the brace that closes it. */
  function PrintFields(fields: seq<Shown>): string {
    if fields == [] then ""
    else Field(fields[0].name, fields[0].value, if |fields| == 1 then '}' else ' ') + PrintFields(fields[1..])
  }

  function SectionFields(c: RateSection): seq<Shown> {
    [Shown("RequestsPerSecond", PrintRate(c.rate)), Shown("Duration", DurationText(c.duration)),
     Shown("MaxIdleConns", Signed(c.maxIdleConns)), Shown("MaxIdleConnsPerHost", Signed(c.maxIdleConnsPerHost)),
     Shown("IdleConnTimeout", DurationText(c.idleConnTimeout)), Shown("Timeout", DurationText(c.timeout))]
  }

  function PrintSection(c: RateSection): string { PrintFields(SectionFields(c)) }

  /** A colon that no pattern can end with: after a digit, or before no word character. */
  predicate ColonsHarmless(s: string) {
    forall k | 0 <= k < |s| && s[k] == ':' ::
      k == 0 || IsDigit(s[k - 1]) || k + 1 == |s| || !IsWord(s[k + 1])
  }

  // ---------- finding a tag among the fields ----------

  /** A pattern's tag: letters, then a colon. */
  predicate Tag(tag: string, body: string) {
    body != "" && tag == body + ":" && forall c | c in body :: IsWord(c) && !IsDigit(c)
  }

  lemma RateTag()
    ensures Tag("RequestsPerSecond:", "RequestsPerSecond")
  {
  }

  lemma DurationTag()
    ensures Tag("Duration:", "Duration")
  {
  }

  lemma MaxTag()
    ensures Tag("MaxIdleConns:", "MaxIdleConns")
  {
  }

  lemma PerHostTag()
    ensures Tag("MaxIdleConnsPerHost:", "MaxIdleConnsPerHost")
  {
  }

  lemma IdleTag()
    ensures Tag("IdleConnTimeout:", "IdleConnTimeout")
  {
  }

  lemma TimeoutTag()
    ensures Tag("Timeout:", "Timeout")
  {
  }

  predicate ValueClass(cls: Class) { cls == Word || cls == Digit }

  lemma FindSkips(tag: string, cls: Class, s: string)
    requires s != "" && !(tag <= s && Run(cls, s[|tag|..]) > 0)
    ensures FindAfter(tag, cls, s) == FindAfter(tag, cls, s[1..])
  {
  }

  /** Before any colon, only the whole text up to the colon can be a tag. */
  lemma TagAtName(tag: string, body: string, name: string, y: string)
    requires Tag(tag, body) && ':' !in name
    ensures tag <= name + (":" + y) <==> name == body
  {
    var s := name + (":" + y);
    if tag <= s {
      assert tag[|body|] == ':' && s[|name|] == ':';
      assert forall i | 0 <= i < |body| :: body[i] in body && tag[i] == body[i];
      assert forall i | 0 <= i < |tag| :: tag[i] == s[i];
      assert forall i | 0 <= i < |name| :: s[i] == name[i] && name[i] in name;
      assert !IsWord(':');
      assert |name| == |body|;
      assert name == body;
    }
    if name == body {
      assert s == tag + y;
    }
  }

  /** A tag cannot match across a character it does not have. */
  lemma TagMismatch(tag: string, body: string, s: string, j: nat)
    requires Tag(tag, body) && j <= |body| && j < |s|
    requires if j < |body| then !IsWord(s[j]) || IsDigit(s[j]) else s[j] != ':'
    ensures !(tag <= s)
  {
    assert tag <= s ==> s[j] == tag[j];
    assert tag[j] == if j < |body| then body[j] else ':';
    assert j < |body| ==> body[j] in body;
  }

  /** A stretch without colons before a character outside words. */
  lemma {:induction false} SkipValue(tag: string, body: string, cls: Class, value: string, y: string)
    requires Tag(tag, body) && ':' !in value && y != "" && !IsWord(y[0]) && y[0] != ':'
    ensures FindAfter(tag, cls, value + y) == FindAfter(tag, cls, y)
  {
    hide FindAfter;
    if value == "" {
      assert value + y == y;
    } else {
      var s := value + y;
      assert value[0] in value && s[1..] == value[1..] + y;
      SkipValue(tag, body, cls, value[1..], y);
      var j := if |value| <= |body| then |value| else |body|;
      assert s[j] == if j < |value| then value[j] else y[0];
      assert j < |value| ==> value[j] in value;
      TagMismatch(tag, body, s, j);
      FindSkips(tag, cls, s);
    }
  }

  lemma LetterFirst(tag: string, body: string, s: string)
    requires Tag(tag, body) && s != "" && !IsWord(s[0])
    ensures !(tag <= s)
  {
    TagMismatch(tag, body, s, 0);
  }

  lemma SuffixWhole(s: string)
    ensures HasSuffix(s, s)
  {
  }

  predicate Closing(end: char) { end == ' ' || end == '}' }

  lemma RunStops(cls: Class, value: string, end: char, y: string)
    requires ValueClass(cls) && Closing(end)
    ensures Run(cls, value + ([end] + y)) == Run(cls, value)
    ensures (value + ([end] + y))[..Run(cls, value)] == value[..Run(cls, value)]
  {
    var n := Run(cls, value);
    var rest := value[n..] + ([end] + y);
    assert value == value[..n] + value[n..];
    assert value + ([end] + y) == value[..n] + rest;
    assert rest[0] == if n < |value| then value[n] else end;
    RunAppend(cls, value[..n], rest);
  }

  /** A field is the first match if its name ends in the tag's and its value begins with a
      character of the class; otherwise it is passed over. */
  lemma {:induction false} PassField(tag: string, body: string, cls: Class, name: string, value: string, end: char, y: string)
    requires Tag(tag, body) && ValueClass(cls) && Closing(end) && ':' !in name && ':' !in value
    ensures FindAfter(tag, cls, Field(name, value, end) + y)
         == if HasSuffix(name, body) && Run(cls, value) > 0 then Some(value[..Run(cls, value)])
            else FindAfter(tag, cls, y)
  {
    hide FindAfter, HasSuffix, ValueClass, Has, Run;
    var s := Field(name, value, end) + y;
    var after := value + ([end] + y);
    assert s == name + (":" + after);
    TagAtName(tag, body, name, after);
    RunStops(cls, value, end, y);
    SuffixWhole(body);
    assert name == body ==> s == tag + after && s[|tag|..] == after;
    if name == body && Run(cls, value) > 0 {
      FoundHere(tag, cls, s);
    } else {
      FindSkips(tag, cls, s);
      if name == "" {
        NoSuffix(body);
        PassValue(tag, body, cls, value, end, y);
        assert s[1..] == after;
      } else {
        assert s[1..] == Field(name[1..], value, end) + y;
        assert forall c | c in name[1..] :: c in name;
        if name != body {
          SuffixTails(name, body);
        }
        PassField(tag, body, cls, name[1..], value, end, y);
      }
    }
  }

  lemma PassValue(tag: string, body: string, cls: Class, value: string, end: char, y: string)
    requires Tag(tag, body) && Closing(end) && ':' !in value
    ensures FindAfter(tag, cls, value + ([end] + y)) == FindAfter(tag, cls, y)
  {
    SkipValue(tag, body, cls, value, [end] + y);
    LetterFirst(tag, body, [end] + y);
    hide FindAfter, Tag;
    FindSkips(tag, cls, [end] + y);
    assert ([end] + y)[1..] == y;
  }

  lemma NoSuffix(body: string)
    ensures HasSuffix("", body) <==> body == ""
  {
  }

  lemma SuffixTails(name: string, body: string)
    requires name != "" && name != body
    ensures HasSuffix(name[1..], body) <==> HasSuffix(name, body)
  {
    if |body| < |name| {
      assert name[1..][|name| - 1 - |body|..] == name[|name| - |body|..];
    } else if |body| == |name| {
      assert name[0..] == name;
    }
  }

  lemma FoundHere(tag: string, cls: Class, s: string)
    requires tag <= s && Run(cls, s[|tag|..]) > 0
    ensures FindAfter(tag, cls, s) == Some(s[|tag|..][..Run(cls, s[|tag|..])])
  {
  }

  // ---------- a pattern among printed fields ----------

  /** The field a pattern matches first: its name ends in the label, its value begins with a
      character of the class. */
  predicate Hit(body: string, cls: Class, f: Shown) { HasSuffix(f.name, body) && Run(cls, f.value) > 0 }

  function FirstHit(body: string, cls: Class, fields: seq<Shown>): Option<string> {
    if fields == [] then None
    else if Hit(body, cls, fields[0]) then Some(fields[0].value[..Run(cls, fields[0].value)])
    else FirstHit(body, cls, fields[1..])
  }

  predicate Coloned(fields: seq<Shown>) { forall f | f in fields :: ':' !in f.name && ':' !in f.value }

  function OrElse(found: Option<string>, later: Option<string>): Option<string> {
    if found.Some? then found else later
  }

  /** Whatever follows the structure: a match among its fields comes first. */
  lemma {:induction false} FindInFields(tag: string, body: string, cls: Class, fields: seq<Shown>, tail: string)
    requires Tag(tag, body) && ValueClass(cls) && Coloned(fields)
    ensures FindAfter(tag, cls, PrintFields(fields) + tail) == OrElse(FirstHit(body, cls, fields), FindAfter(tag, cls, tail))
  {
    hide FindAfter, HasSuffix, Run, Tag, ValueClass, Field;
    if fields == [] {
      assert PrintFields(fields) + tail == tail;
    } else {
      var f, end := fields[0], if |fields| == 1 then '}' else ' ';
      assert f in fields && forall x | x in fields[1..] :: x in fields;
      Associate(Field(f.name, f.value, end), PrintFields(fields[1..]), tail);
      PassField(tag, body, cls, f.name, f.value, end, PrintFields(fields[1..]) + tail);
      FindInFields(tag, body, cls, fields[1..], tail);
    }
  }

  lemma Associate(a: string, b: string, c: string)
    ensures (a + b) + c == a + (b + c)
  {
  }

  lemma {:induction false} HitAt(body: string, cls: Class, fields: seq<Shown>, k: nat)
    requires k < |fields| && Hit(body, cls, fields[k]) && forall j | 0 <= j < k :: !Hit(body, cls, fields[j])
    ensures FirstHit(body, cls, fields) == Some(fields[k].value[..Run(cls, fields[k].value)])
  {
    hide Hit, Run;
    if k > 0 {
      assert !Hit(body, cls, fields[0]);
      HitAt(body, cls, fields[1..], k - 1);
    }
  }

  lemma {:induction false} NoHit(body: string, cls: Class, fields: seq<Shown>)
    requires forall j | 0 <= j < |fields| :: !Hit(body, cls, fields[j])
    ensures FirstHit(body, cls, fields) == None
  {
    hide Hit, Run;
    if fields != [] {
      NoHit(body, cls, fields[1..]);
    }
  }

  predicate HeadEnd(head: string, y: string) {
    head == "" || y == "" || (!IsWord(head[|head| - 1]) && head[|head| - 1] != ':')
  }

  lemma HeadMiss(tag: string, body: string, cls: Class, head: string, y: string)
    requires Tag(tag, body) && ValueClass(cls) && ColonsHarmless(head) && head != "" && HeadEnd(head, y)
    ensures !(tag <= head + y && Run(cls, (head + y)[|tag|..]) > 0)
  {
    var s := head + y;
    var n := |body|;
    if y == "" && |head| <= n + 1 {
    } else if |head| <= n {
      assert s[|head| - 1] == head[|head| - 1];
      TagMismatch(tag, body, s, |head| - 1);
    } else if head[n] != ':' {
      TagMismatch(tag, body, s, n);
    } else if IsDigit(head[n - 1]) {
      TagMismatch(tag, body, s, n - 1);
    } else {
      assert s[|tag|..][0] == head[n + 1];
    }
  }

  /** Text whose colons are harmless holds no match. */
  lemma {:induction false} SkipHead(tag: string, body: string, cls: Class, head: string, y: string)
    requires Tag(tag, body) && ValueClass(cls) && ColonsHarmless(head) && HeadEnd(head, y)
    ensures FindAfter(tag, cls, head + y) == FindAfter(tag, cls, y)
  {
    hide FindAfter, Tag, Run;
    if head == "" {
      assert head + y == y;
    } else {
      HeadMiss(tag, body, cls, head, y);
      FindSkips(tag, cls, head + y);
      assert (head + y)[1..] == head[1..] + y;
      assert forall k | 0 <= k < |head| - 1 :: head[1..][k] == head[k + 1];
      SkipHead(tag, body, cls, head[1..], y);
    }
  }

  // ---------- the values have no colons ----------

  lemma DurationFace(d: int)
    ensures ':' !in DurationText(d) && (Run(Word, DurationText(d)) > 0 <==> d >= 0)
  {
    hide MagnitudeText;
    DurationChars(d);
    MagnitudeStart(if d < 0 then -d else d);
  }

  lemma SignedFace(n: int)
    ensures ':' !in Signed(n) && Run(Digit, Signed(n)) == if n >= 0 then |Signed(n)| else 0
    ensures Signed(n) != ""
  {
    hide Itoa;
    ItoaNumeral(if n < 0 then -n else n);
    if n >= 0 {
      assert Signed(n) + "" == Signed(n);
      RunAppend(Digit, Signed(n), "");
    }
  }

  lemma FractionFace(digits: string)
    requires AllDigits(digits)
    ensures ':' !in Fraction(digits) && (Fraction(digits) == "" || !IsDigit(Fraction(digits)[0]))
  {
  }

  lemma ExponentFace(e: int)
    ensures ':' !in ExponentText(e) && ExponentText(e) != "" && !IsDigit(ExponentText(e)[0])
  {
    hide Itoa;
    NumberFace(if e < 0 then -e else e);
  }

  lemma RateFace(r: RateText)
    requires RateForm(r)
    ensures ':' !in PrintRate(r) && (RateBack(r) == "" || !IsDigit(RateBack(r)[0]))
  {
    hide Itoa, Fraction, ExponentText;
    NumberFace(match r case Positional(whole, _) => whole case Scientific(lead, _, _) => lead);
    FractionFace(r.fraction);
    if r.Scientific? {
      ExponentFace(r.exponent);
    }
  }

  // ---------- what the parser recovers ----------

  /** The part of a duration text in front of its point or micro sign. */
  function WordPrefix(d: int): string { DurationText(d)[..Run(Word, DurationText(d))] }

  /** What the patterns find first in a printed section, `later` being what they find after it: a
      negative number is passed over, and the plain timeout's pattern fits the idle timeout's label. */
  function FirstMatches(c: RateSection, later: Matches): Matches {
    Matches(
      Some(LeadDigits(c.rate)),
      if c.duration >= 0 then Some(WordPrefix(c.duration)) else later.duration,
      if c.maxIdleConns >= 0 then Some(Signed(c.maxIdleConns)) else later.maxIdleConns,
      if c.maxIdleConnsPerHost >= 0 then Some(Signed(c.maxIdleConnsPerHost)) else later.maxIdleConnsPerHost,
      if c.idleConnTimeout >= 0 then Some(WordPrefix(c.idleConnTimeout)) else later.idleConnTimeout,
      if c.idleConnTimeout >= 0 then Some(WordPrefix(c.idleConnTimeout))
      else if c.timeout >= 0 then Some(WordPrefix(c.timeout))
      else later.timeout)
  }

  function Recovered(c: RateSection, tail: string): Config { Collect(FirstMatches(c, MatchesOf(tail))) }

  /** The text before the section: it ends outside a word, and its colons match nothing. */
  predicate SectionHead(head: string) {
    head != "" && !IsWord(head[|head| - 1]) && head[|head| - 1] != ':' && ColonsHarmless(head)
  }

  lemma NumberFace(n: nat)
    ensures ':' !in Itoa(n)
  {
    ItoaNumeral(n);
  }

  /** The digits of a rate end at its point or exponent. */
  lemma RateRun(r: RateText)
    requires RateForm(r)
    ensures Run(Digit, PrintRate(r)) == |LeadDigits(r)| > 0 && PrintRate(r)[..|LeadDigits(r)|] == LeadDigits(r)
  {
    hide RateBack, Itoa;
    RateFace(r);
    ItoaNumeral(match r case Positional(whole, _) => whole case Scientific(lead, _, _) => lead);
    assert forall x | x in LeadDigits(r) :: Has(Digit, x);
    RunAppend(Digit, LeadDigits(r), RateBack(r));
  }

  lemma LabelColon(tag: string, body: string)
    requires Tag(tag, body)
    ensures ':' !in body
  {
  }

  lemma SectionColoned(c: RateSection)
    requires RateForm(c.rate)
    ensures Coloned(SectionFields(c))
  {
    hide PrintRate, DurationText, Signed, RateForm, Tag;
    RateTag();
    DurationTag();
    MaxTag();
    PerHostTag();
    IdleTag();
    TimeoutTag();
    LabelColon("RequestsPerSecond:", "RequestsPerSecond");
    LabelColon("Duration:", "Duration");
    LabelColon("MaxIdleConns:", "MaxIdleConns");
    LabelColon("MaxIdleConnsPerHost:", "MaxIdleConnsPerHost");
    LabelColon("IdleConnTimeout:", "IdleConnTimeout");
    LabelColon("Timeout:", "Timeout");
    RateFace(c.rate);
    DurationFace(c.duration);
    SignedFace(c.maxIdleConns);
    SignedFace(c.maxIdleConnsPerHost);
    DurationFace(c.idleConnTimeout);
    DurationFace(c.timeout);
  }

  // Which names end in which labels.

  lemma OtherEnding(name: string, body: string)
    requires name != "" && body != "" && name[|name| - 1] != body[|body| - 1]
    ensures !HasSuffix(name, body)
  {
    if HasSuffix(name, body) {
      SuffixByLast(name, body);
    }
  }

  lemma ShorterName(name: string, body: string)
    requires |name| < |body|
    ensures !HasSuffix(name, body)
  {
  }

  lemma TimeoutNames()
    ensures !HasSuffix("MaxIdleConnsPerHost", "IdleConnTimeout") && !HasSuffix("MaxIdleConnsPerHost", "Timeout")
    ensures HasSuffix("IdleConnTimeout", "Timeout")
  {
    assert "MaxIdleConnsPerHost"[4..][0] == 'd' && "MaxIdleConnsPerHost"[12..][0] == 'P';
    assert "IdleConnTimeout"[8..] == "Timeout";
  }

  /** Except for the timeouts each label is the end of its own name only. */
  lemma OwnName(c: RateSection, body: string, k: nat)
    requires k < 6 && body == SectionFields(c)[k].name
    ensures forall j | 0 <= j < 6 :: HasSuffix(SectionFields(c)[j].name, body) <==> j == k || (k == 5 && j == 4)
  {
    hide HasSuffix, PrintRate, DurationText, Signed;
    SuffixWhole(body);
    TimeoutNames();
    forall j | 0 <= j < 6
      ensures HasSuffix(SectionFields(c)[j].name, body) <==> j == k || (k == 5 && j == 4)
    {
      var name := SectionFields(c)[j].name;
      if name[|name| - 1] != body[|body| - 1] {
        OtherEnding(name, body);
      } else if |name| < |body| {
        ShorterName(name, body);
      }
    }
  }

  /** A field with a label of its own. */
  lemma FindOwn(tag: string, cls: Class, c: RateSection, k: nat, tail: string)
    requires RateForm(c.rate) && k < 5 && ValueClass(cls) && Tag(tag, SectionFields(c)[k].name)
    ensures FindAfter(tag, cls, PrintSection(c) + tail)
         == var value := SectionFields(c)[k].value;
            if Run(cls, value) > 0 then Some(value[..Run(cls, value)]) else FindAfter(tag, cls, tail)
  {
    hide FindAfter, PrintFields, HasSuffix, Run, Tag, ValueClass, RateForm;
    var fields := SectionFields(c);
    SectionColoned(c);
    OwnName(c, fields[k].name, k);
    hide SectionFields, Coloned;
    FindInFields(tag, fields[k].name, cls, fields, tail);
    if Run(cls, fields[k].value) > 0 {
      HitAt(fields[k].name, cls, fields, k);
    } else {
      NoHit(fields[k].name, cls, fields);
    }
  }

  lemma FindTimeout(c: RateSection, tail: string)
    requires RateForm(c.rate)
    ensures FindAfter("Timeout:", Word, PrintSection(c) + tail)
         == if c.idleConnTimeout >= 0 then Some(WordPrefix(c.idleConnTimeout))
            else if c.timeout >= 0 then Some(WordPrefix(c.timeout))
            else FindAfter("Timeout:", Word, tail)
  {
    hide FindAfter, PrintFields, HasSuffix, Run, Tag, RateForm, DurationText, Signed, PrintRate;
    var fields := SectionFields(c);
    TimeoutTag();
    SectionColoned(c);
    OwnName(c, "Timeout", 5);
    DurationFace(c.idleConnTimeout);
    DurationFace(c.timeout);
    assert fields[4].value == DurationText(c.idleConnTimeout) && fields[5].value == DurationText(c.timeout);
    hide SectionFields, Coloned;
    FindInFields("Timeout:", "Timeout", Word, fields, tail);
    if c.idleConnTimeout >= 0 {
      HitAt("Timeout", Word, fields, 4);
    } else if c.timeout >= 0 {
      HitAt("Timeout", Word, fields, 5);
    } else {
      NoHit("Timeout", Word, fields);
    }
  }

  /** Both timeout patterns first match the idle timeout, since one label ends in the other; if it
      is negative the plain one passes over it and finds the timeout. */
  lemma FindTimeouts(c: RateSection, tail: string)
    requires RateForm(c.rate)
    ensures FindAfter("IdleConnTimeout:", Word, PrintSection(c) + tail)
         == if c.idleConnTimeout >= 0 then Some(WordPrefix(c.idleConnTimeout))
            else FindAfter("IdleConnTimeout:", Word, tail)
    ensures FindAfter("Timeout:", Word, PrintSection(c) + tail)
         == if c.idleConnTimeout >= 0 then Some(WordPrefix(c.idleConnTimeout))
            else if c.timeout >= 0 then Some(WordPrefix(c.timeout))
            else FindAfter("Timeout:", Word, tail)
  {
    hide FindAfter, PrintSection, Tag, Run, RateForm, DurationText, Signed, PrintRate;
    IdleTag();
    DurationFace(c.idleConnTimeout);
    FindOwn("IdleConnTimeout:", Word, c, 4, tail);
    FindTimeout(c, tail);
  }

  lemma HeadSkipped(head: string, y: string)
    requires ColonsHarmless(head) && HeadEnd(head, y)
    ensures MatchesOf(head + y) == MatchesOf(y)
  {
    hide Tag, FindAfter, ColonsHarmless;
    RateTag();
    DurationTag();
    MaxTag();
    PerHostTag();
    IdleTag();
    TimeoutTag();
    SkipHead("RequestsPerSecond:", "RequestsPerSecond", Digit, head, y);
    SkipHead("Duration:", "Duration", Word, head, y);
    SkipHead("MaxIdleConns:", "MaxIdleConns", Digit, head, y);
    SkipHead("MaxIdleConnsPerHost:", "MaxIdleConnsPerHost", Digit, head, y);
    SkipHead("IdleConnTimeout:", "IdleConnTimeout", Word, head, y);
    SkipHead("Timeout:", "Timeout", Word, head, y);
  }

  lemma FindNumbers(c: RateSection, tail: string)
    requires RateForm(c.rate)
    ensures FindAfter("RequestsPerSecond:", Digit, PrintSection(c) + tail) == Some(LeadDigits(c.rate))
    ensures FindAfter("Duration:", Word, PrintSection(c) + tail)
         == if c.duration >= 0 then Some(WordPrefix(c.duration)) else FindAfter("Duration:", Word, tail)
    ensures FindAfter("MaxIdleConns:", Digit, PrintSection(c) + tail)
         == if c.maxIdleConns >= 0 then Some(Signed(c.maxIdleConns)) else FindAfter("MaxIdleConns:", Digit, tail)
    ensures FindAfter("MaxIdleConnsPerHost:", Digit, PrintSection(c) + tail)
         == if c.maxIdleConnsPerHost >= 0 then Some(Signed(c.maxIdleConnsPerHost))
            else FindAfter("MaxIdleConnsPerHost:", Digit, tail)
  {
    hide FindAfter, PrintSection, Tag, Run, RateForm, DurationText, Signed, PrintRate, LeadDigits;
    RateTag();
    DurationTag();
    MaxTag();
    PerHostTag();
    RateRun(c.rate);
    DurationFace(c.duration);
    SignedFace(c.maxIdleConns);
    SignedFace(c.maxIdleConnsPerHost);
    FindOwn("RequestsPerSecond:", Digit, c, 0, tail);
    FindOwn("Duration:", Word, c, 1, tail);
    FindOwn("MaxIdleConns:", Digit, c, 2, tail);
    FindOwn("MaxIdleConnsPerHost:", Digit, c, 3, tail);
    assert Signed(c.maxIdleConns)[..|Signed(c.maxIdleConns)|] == Signed(c.maxIdleConns);
    assert Signed(c.maxIdleConnsPerHost)[..|Signed(c.maxIdleConnsPerHost)|] == Signed(c.maxIdleConnsPerHost);
  }

  /** For every configuration, whatever surrounds its rate section on the line. */
  lemma ConfigRecovered(head: string, c: RateSection, tail: string)
    requires RateForm(c.rate) && SectionHead(head)
    ensures ConfigOf(head + (PrintSection(c) + tail)) == Recovered(c, tail)
  {
    hide FindAfter, PrintSection, LeadDigits, WordPrefix, Signed, ColonsHarmless, RateForm, Collect;
    HeadSkipped(head, PrintSection(c) + tail);
    FindNumbers(c, tail);
    FindTimeouts(c, tail);
  }

  // ---------- when the recovered values are the configured ones ----------

  lemma {:induction false} NumeralBound(s: string)
    requires AllDigits(s)
    ensures Numeral(s) < Pow10(|s|)
  {
    if s != "" {
      assert s[|s| - 1] in s;
      NumeralBound(s[..|s| - 1]);
    }
  }

  lemma {:induction false} Pow10Grows(m: nat, n: nat)
    requires m <= n
    ensures 1 <= Pow10(m) <= Pow10(n)
  {
    if m < n {
      Pow10Grows(m, n - 1);
    }
  }

  /** Comparing a quotient is comparing with a multiple. */
  lemma Ratio(x: real, p: real, c: real)
    requires p > 0.0
    ensures x / p >= c <==> x >= c * p
  {
    var q := x / p;
    assert q * p == x;
    assert (q - c) * p == x - c * p;
    assert q >= c ==> (q - c) * p >= 0.0;
    assert q < c ==> (c - q) * p > 0.0;
  }

  /** A mantissa divided by its scale lies between its lead and the next number. */
  lemma MantissaValue(lead: nat, fraction: string)
    requires AllDigits(fraction)
    ensures lead as real <= Mantissa(lead, fraction) as real / Pow10(|fraction|) as real < (lead + 1) as real
  {
    NumeralBound(fraction);
    WholeAndPart(lead, Numeral(fraction), Pow10(|fraction|));
  }

  lemma WholeAndPart(n: nat, f: nat, p: nat)
    requires f < p
    ensures n as real <= (n * p + f) as real / p as real < (n + 1) as real
  {
    Multiple(n, p);
    var x := (n * p) as real;
    Ratio(x + f as real, p as real, n as real);
    Ratio(x + f as real, p as real, n as real + 1.0);
    OneMore(n as real, p as real);
    hide *;
  }

  lemma OneMore(n: real, p: real)
    ensures (n + 1.0) * p == n * p + p
  {
  }

  lemma Multiple(n: nat, p: nat)
    ensures (n * p) as real == n as real * p as real
  {
  }

  lemma PositionalValue(whole: nat, fraction: string)
    requires RateForm(Positional(whole, fraction))
    ensures var x := RateValue(Positional(whole, fraction));
            x.Floor == whole && (x == 0.0 || 0.0001 <= x < 1_000_000.0)
  {
    MantissaValue(whole, fraction);
    if whole == 0 && fraction != "" {
      Ratio(Numeral(fraction) as real, Pow10(|fraction|) as real, 0.0001);
    }
    hide Numeral;
  }

  lemma Product(x: real, y: real)
    requires x >= 1.0 && y >= 0.0
    ensures x * y >= y
  {
    assert (x - 1.0) * y >= 0.0;
  }

  lemma LargeValue(lead: nat, fraction: string, e: int)
    requires RateForm(Scientific(lead, fraction, e)) && e >= 6
    ensures RateValue(Scientific(lead, fraction, e)) >= 1_000_000.0
  {
    MantissaValue(lead, fraction);
    Pow10Grows(6, e);
    assert Pow10(6) == 1_000_000 by { Pow10Nine(6); }
    hide Pow10, Mantissa, Shortest;
    Product(Mantissa(lead, fraction) as real / Pow10(|fraction|) as real, Pow10(e) as real);
  }

  lemma SmallValue(lead: nat, fraction: string, e: int)
    requires RateForm(Scientific(lead, fraction, e)) && e < -4
    ensures 0.0 < RateValue(Scientific(lead, fraction, e)) < 0.0001
  {
    MantissaValue(lead, fraction);
    Pow10Grows(5, -e);
    assert Pow10(5) == 100_000 by { assert Pow10(3) == 1_000; }
    hide Pow10, Mantissa, Shortest;
    var m, p := Mantissa(lead, fraction) as real / Pow10(|fraction|) as real, Pow10(-e) as real;
    Ratio(m, p, 0.0001);
    assert 0.0001 * p >= 10.0;
    assert m / p > 0.0;
  }

  /** The integer part of a rate is stored exactly if the rate is zero or at least 0.0001 and below
      a million. Any other is printed with an exponent, and its first digit is stored. */
  lemma RateExact(c: RateSection, tail: string)
    requires RateForm(c.rate)
    ensures var x := RateValue(c.rate);
            && "requests_per_second" in Recovered(c, tail)
            && (Recovered(c, tail)["requests_per_second"] == Whole(x.Floor) <==> x == 0.0 || 0.0001 <= x < 1_000_000.0)
  {
    RateStored(c, tail);
    hide RateValue, RateForm, Collect, MatchesOf, Itoa, WordPrefix, Signed;
    match c.rate {
      case Positional(whole, fraction) => PositionalValue(whole, fraction);
      case Scientific(lead, fraction, e) =>
        Leads(lead, fraction, e);
        if e >= 6 {
          LargeValue(lead, fraction, e);
        } else {
          SmallValue(lead, fraction, e);
        }
    }
  }

  /** A key holds what was found, or is not there. */
  predicate Holds(config: Config, key: string, found: Option<string>) {
    if found.Some? then key in config && config[key] == Words(found.value) else key !in config
  }

  predicate HoldsRate(config: Config, found: Option<string>) {
    if found.Some? && Atoi(found.value).Some?
    then "requests_per_second" in config && config["requests_per_second"] == Whole(Atoi(found.value).value)
    else "requests_per_second" !in config
  }

  /** Each of the six keys from its own pattern, and no other key. */
  lemma Collected(m: Matches)
    ensures HoldsRate(Collect(m), m.rate)
    ensures Holds(Collect(m), "duration", m.duration)
    ensures Holds(Collect(m), "max_idle_conns", m.maxIdleConns)
    ensures Holds(Collect(m), "max_idle_conns_per_host", m.maxIdleConnsPerHost)
    ensures Holds(Collect(m), "idle_conn_timeout", m.idleConnTimeout)
    ensures Holds(Collect(m), "timeout", m.timeout)
    ensures forall key | key in Collect(m) ::
              key in {"requests_per_second", "duration", "max_idle_conns", "max_idle_conns_per_host", "idle_conn_timeout", "timeout"}
  {
    hide Atoi;
  }

  lemma RateStored(c: RateSection, tail: string)
    requires RateForm(c.rate)
    ensures var config := Recovered(c, tail);
            var n := match c.rate case Positional(whole, _) => whole case Scientific(lead, _, _) => lead;
            "requests_per_second" in config && config["requests_per_second"] == Whole(n)
  {
    hide Collect, MatchesOf, Itoa, WordPrefix, Signed, Atoi;
    Collected(FirstMatches(c, MatchesOf(tail)));
    var n := match c.rate case Positional(whole, _) => whole case Scientific(lead, _, _) => lead;
    assert Atoi(Itoa(n)) == Some(n) by {
      AtoiSigned(n);
      SignedNat(n);
    }
    assert Recovered(c, tail) == Collect(FirstMatches(c, MatchesOf(tail)));
  }

  lemma SignedNat(n: nat)
    ensures Signed(n) == Itoa(n)
  {
  }

  lemma Leads(lead: nat, fraction: string, e: int)
    requires RateForm(Scientific(lead, fraction, e))
    ensures 1 <= lead < 10 && (e >= 6 || e < -4)
  {
  }

  /** Durations whose text has neither a point nor a micro sign. */
  predicate WordDuration(d: nat) {
    || d < MICRO
    || (MILLI <= d < SECOND && Mod(d, MILLI) == 0)
    || (SECOND <= d && Mod(d, SECOND) == 0)
  }

  lemma WordAppend(x: string, y: string)
    ensures AllWord(x + y) <==> AllWord(x) && AllWord(y)
  {
    assert forall c :: c in x + y <==> c in x || c in y;
  }

  lemma DigitsAreWord(n: nat)
    ensures AllWord(Itoa(n))
  {
    ItoaNumeral(n);
  }

  lemma DecimalWord(v: nat, prec: nat)
    ensures AllWord(Decimal(v, prec)) <==> Mod(v, Pow10(prec)) == 0
  {
    hide Pow10, FractionDigits, Itoa, AllWord;
    var f := Mod(v, Pow10(prec));
    var digits := FractionDigits(f, prec, false);
    FractionExact(f, prec);
    FractionZero(prec);
    DigitsAreWord(Div(v, Pow10(prec)));
    WordAppend(Itoa(Div(v, Pow10(prec))), if digits == "" then "" else "." + digits);
    WordAppend(".", digits);
    assert !AllWord(".") by { PointIsNoWord(); }
    NothingIsWord();
  }

  lemma PointIsNoWord()
    ensures !AllWord(".")
  {
    assert '.' in ".";
  }

  lemma NothingIsWord()
    ensures AllWord("") && AllWord("s") && AllWord("m") && AllWord("h") && AllWord("ns") && AllWord("ms")
  {
  }

  lemma SecondsWord(u: nat)
    ensures AllWord(Decimal(u, 9) + "s") <==> Mod(u, SECOND) == 0
  {
    hide AllWord, Decimal, Pow10;
    Pow10Nine(9);
    DecimalWord(u, 9);
    WordAppend(Decimal(u, 9), "s");
    NothingIsWord();
  }

  lemma MinutesWord(u: nat)
    ensures AllWord(MinutesText(u)) <==> Mod(u, SECOND) == 0
  {
    hide AllWord, Decimal, Itoa;
    var seconds := Decimal(Mod(u, MINUTE), 9) + "s";
    SecondsWord(Mod(u, MINUTE));
    DigitsAreWord(Div(u, MINUTE));
    WordAppend("m", seconds);
    WordAppend(Itoa(Div(u, MINUTE)), "m" + seconds);
    NothingIsWord();
    SecondsWithin(u);
  }

  lemma ModUnique(u: nat, x: nat, m: nat, r: nat)
    requires m > 0 && u == x * m + r && r < m
    ensures Mod(u, m) == r
  {
    var y := u / m;
    assert u == y * m + u % m;
    assert (y + 1) * m == y * m + m && (x + 1) * m == x * m + m;
    Factors(y, x + 1, m);
    Factors(x, y + 1, m);
  }

  lemma ModWithin(u: nat, k: nat, m: nat)
    requires m > 0 && k > 0 && k * m > 0
    ensures Mod(Mod(u, k * m), m) == Mod(u, m)
  {
    var n := k * m;
    var q, r := Div(u, n), Mod(u, n);
    var x, s := Div(r, m), Mod(r, m);
    assert u == q * n + r && r == x * m + s;
    hide Div, Mod;
    assert q * n == (q * k) * m;
    assert (q * k + x) * m == (q * k) * m + x * m;
    ModUnique(u, q * k + x, m, s);
  }

  lemma SecondsWithin(u: nat)
    ensures Mod(Mod(u, MINUTE), SECOND) == Mod(u, SECOND)
    ensures Mod(Mod(u, HOUR), SECOND) == Mod(u, SECOND)
  {
    ModWithin(u, 60, SECOND);
    ModWithin(u, 3600, SECOND);
  }

  lemma MagnitudeWord(u: nat)
    ensures AllWord(MagnitudeText(u)) <==> WordDuration(u)
  {
    hide AllWord, Decimal, Itoa, MinutesText, Pow10;
    Pow10Nine(9);
    NothingIsWord();
    if u < MICRO {
      DigitsAreWord(u);
      WordAppend(Itoa(u), "ns");
      assert AllWord("0s") by { ZeroIsWord(); }
    } else if u < MILLI {
      WordAppend(Decimal(u, 3), "\U{B5}s");
      assert !AllWord("\U{B5}s") by { MicroIsNoWord(); }
    } else if u < SECOND {
      DecimalWord(u, 6);
      WordAppend(Decimal(u, 6), "ms");
    } else if u < MINUTE {
      SecondsWord(u);
    } else if u < HOUR {
      MinutesWord(u);
    } else {
      DigitsAreWord(Div(u, HOUR));
      MinutesWord(Mod(u, HOUR));
      WordAppend("h", MinutesText(Mod(u, HOUR)));
      WordAppend(Itoa(Div(u, HOUR)), "h" + MinutesText(Mod(u, HOUR)));
      SecondsWithin(u);
    }
  }

  lemma ZeroIsWord()
    ensures AllWord("0s")
  {
  }

  lemma MicroIsNoWord()
    ensures !AllWord("\U{B5}s")
  {
    assert '\U{B5}' in "\U{B5}s";
  }

  /** The cut takes nothing from a text exactly when it is whole seconds, milliseconds or nanoseconds
      in the unit it is printed in. */
  lemma WholePrefix(d: int)
    ensures WordPrefix(d) == DurationText(d) <==> d >= 0 && WordDuration(d)
  {
    hide MagnitudeText;
    DurationFace(d);
    if d >= 0 {
      MagnitudeWord(d);
    }
    var text := DurationText(d);
    var n := Run(Word, text);
    if n < |text| {
      assert text[n] in text;
    } else {
      assert text[..n] == text;
    }
  }

  lemma {:induction false} FoundIsWord(tag: string, s: string)
    ensures FindAfter(tag, Word, s).Some? ==> AllWord(FindAfter(tag, Word, s).value)
  {
    if !(tag <= s && Run(Word, s[|tag|..]) > 0) && s != "" {
      FoundIsWord(tag, s[1..]);
    }
  }

  /** A negative duration is no word. */
  lemma NegativeNoWord(d: int)
    requires d < 0
    ensures !AllWord(DurationText(d))
  {
    assert DurationText(d)[0] == '-' && DurationText(d)[0] in DurationText(d);
  }

  /** The duration stored is the configured one exactly if that is not negative and its text is a
      single word. */
  lemma DurationExact(c: RateSection, tail: string)
    ensures var config := Recovered(c, tail);
            ("duration" in config && config["duration"] == Words(DurationText(c.duration)))
            <==> c.duration >= 0 && WordDuration(c.duration)
  {
    hide Collect, MatchesOf, DurationText, WordPrefix, Signed, WordDuration;
    Collected(FirstMatches(c, MatchesOf(tail)));
    WholePrefix(c.duration);
    FoundIsWord("Duration:", tail);
    assert MatchesOf(tail).duration == FindAfter("Duration:", Word, tail) by { MatchParts(tail); }
    if c.duration < 0 {
      NegativeNoWord(c.duration);
    }
  }

  lemma MatchParts(s: string)
    ensures MatchesOf(s).duration == FindAfter("Duration:", Word, s)
    ensures MatchesOf(s).idleConnTimeout == FindAfter("IdleConnTimeout:", Word, s)
    ensures MatchesOf(s).timeout == FindAfter("Timeout:", Word, s)
  {
  }

  /** And so is the idle timeout. */
  lemma IdleTimeoutExact(c: RateSection, tail: string)
    ensures var config := Recovered(c, tail);
            ("idle_conn_timeout" in config && config["idle_conn_timeout"] == Words(DurationText(c.idleConnTimeout)))
            <==> c.idleConnTimeout >= 0 && WordDuration(c.idleConnTimeout)
  {
    hide Collect, MatchesOf, DurationText, WordPrefix, Signed, WordDuration;
    Collected(FirstMatches(c, MatchesOf(tail)));
    WholePrefix(c.idleConnTimeout);
    FoundIsWord("IdleConnTimeout:", tail);
    assert MatchesOf(tail).idleConnTimeout == FindAfter("IdleConnTimeout:", Word, tail) by { MatchParts(tail); }
    if c.idleConnTimeout < 0 {
      NegativeNoWord(c.idleConnTimeout);
    }
  }

  /** Each limit of a printed line is stored as it is, under its own key; a negative one is passed over,
      and the key holds what the pattern finds after the section, if anything. */
  lemma LimitsExact(head: string, c: RateSection, tail: string)
    requires RateForm(c.rate) && SectionHead(head)
    ensures var config := ConfigOf(head + (PrintSection(c) + tail));
            && (c.maxIdleConns >= 0 ==>
                  "max_idle_conns" in config && config["max_idle_conns"] == Words(Itoa(c.maxIdleConns)))
            && (c.maxIdleConnsPerHost >= 0 ==>
                  "max_idle_conns_per_host" in config && config["max_idle_conns_per_host"] == Words(Itoa(c.maxIdleConnsPerHost)))
            && (c.maxIdleConns < 0 ==> Holds(config, "max_idle_conns", FindAfter("MaxIdleConns:", Digit, tail)))
            && (c.maxIdleConnsPerHost < 0 ==>
                  Holds(config, "max_idle_conns_per_host", FindAfter("MaxIdleConnsPerHost:", Digit, tail)))
  {
    hide Collect, DurationText, WordPrefix, FindAfter, PrintSection, ConfigOf, SectionHead, RateForm, LeadDigits;
    ConfigRecovered(head, c, tail);
    Collected(FirstMatches(c, MatchesOf(tail)));
  }

  /** Nothing outside words but what follows a digit. */
  predicate AfterDigits(t: string) {
    forall i | 0 < i < |t| && !IsWord(t[i]) :: IsDigit(t[i - 1])
  }

  lemma AfterDigitsAppend(x: string, y: string)
    requires AfterDigits(x) && AfterDigits(y) && x != "" && y != "" && (IsWord(y[0]) || IsDigit(x[|x| - 1]))
    ensures AfterDigits(x + y) && x + y != "" && (x + y)[|x + y| - 1] == y[|y| - 1] && (x + y)[0] == x[0]
  {
    forall i | 0 < i < |x + y| && !IsWord((x + y)[i]) ensures IsDigit((x + y)[i - 1]) {
      if i > |x| {
        assert (x + y)[i] == y[i - |x|] && (x + y)[i - 1] == y[i - |x| - 1];
      }
    }
  }

  predicate Number(t: string) { t != "" && AfterDigits(t) && IsDigit(t[0]) && IsDigit(t[|t| - 1]) }

  lemma DigitsAreNumber(t: string)
    requires AllDigits(t) && t != ""
    ensures Number(t)
  {
    assert t[0] in t && t[|t| - 1] in t && forall i | 0 <= i < |t| :: t[i] in t;
  }

  lemma ItoaIsNumber(n: nat)
    ensures Number(Itoa(n))
  {
    ItoaNumeral(n);
    DigitsAreNumber(Itoa(n));
  }

  lemma DecimalIsNumber(v: nat, prec: nat)
    ensures Number(Decimal(v, prec))
  {
    hide Pow10, FractionDigits, Itoa, AllDigits;
    var f := Mod(v, Pow10(prec));
    var digits := FractionDigits(f, prec, false);
    FractionExact(f, prec);
    ItoaIsNumber(Div(v, Pow10(prec)));
    if digits != "" {
      DigitsAreNumber(digits);
      PointThenDigits(digits);
      hide AfterDigits;
      AfterDigitsAppend(Itoa(Div(v, Pow10(prec))), "." + digits);
    }
  }

  lemma PointThenDigits(digits: string)
    requires Number(digits)
    ensures AfterDigits("." + digits)
  {
    var t := "." + digits;
    forall i | 0 < i < |t| && !IsWord(t[i]) ensures IsDigit(t[i - 1]) {
      assert t[i] == digits[i - 1];
      if i > 1 {
        assert t[i - 1] == digits[i - 2];
      }
    }
  }

  /** A number and its unit. */
  predicate Printed(t: string) { t != "" && AfterDigits(t) && IsDigit(t[0]) && t[|t| - 1] == 's' }

  lemma WithUnit(number: string, unit: string)
    requires Number(number) && AfterDigits(unit) && unit != "" && unit[|unit| - 1] == 's'
    ensures Printed(number + unit)
  {
    hide AfterDigits;
    AfterDigitsAppend(number, unit);
  }

  lemma WithMore(number: string, unit: char, rest: string)
    requires Number(number) && IsWord(unit) && Printed(rest)
    ensures Printed(number + ([unit] + rest))
  {
    AfterDigitsAppend([unit], rest);
    hide AfterDigits;
    AfterDigitsAppend(number, [unit] + rest);
  }

  lemma Units()
    ensures AfterDigits("s") && AfterDigits("ms") && AfterDigits("ns") && AfterDigits("\U{B5}s")
  {
    var t := "\U{B5}s";
    assert t[1] == 's' && |t| == 2;
  }

  lemma MinutesPrinted(u: nat)
    ensures Printed(MinutesText(u))
  {
    hide Decimal, Itoa, AfterDigits;
    Units();
    ItoaIsNumber(Div(u, MINUTE));
    DecimalIsNumber(Mod(u, MINUTE), 9);
    WithUnit(Decimal(Mod(u, MINUTE), 9), "s");
    WithMore(Itoa(Div(u, MINUTE)), 'm', Decimal(Mod(u, MINUTE), 9) + "s");
    assert ['m'] == "m";
  }

  lemma MagnitudePrinted(u: nat)
    ensures Printed(MagnitudeText(u))
  {
    hide Decimal, Itoa, MinutesText, AfterDigits, Number;
    Units();
    if u == 0 {
      assert Printed("0s") by { ZeroPrinted(); }
    } else if u < MICRO {
      ItoaIsNumber(u);
      WithUnit(Itoa(u), "ns");
    } else if u < MILLI {
      DecimalIsNumber(u, 3);
      WithUnit(Decimal(u, 3), "\U{B5}s");
    } else if u < SECOND {
      DecimalIsNumber(u, 6);
      WithUnit(Decimal(u, 6), "ms");
    } else if u < MINUTE {
      DecimalIsNumber(u, 9);
      WithUnit(Decimal(u, 9), "s");
    } else if u < HOUR {
      MinutesPrinted(u);
    } else {
      ItoaIsNumber(Div(u, HOUR));
      MinutesPrinted(Mod(u, HOUR));
      WithMore(Itoa(Div(u, HOUR)), 'h', MinutesText(Mod(u, HOUR)));
      assert ['h'] == "h";
    }
  }

  lemma ZeroPrinted()
    ensures Printed("0s")
  {
    assert "0s"[1] == 's' && "0s"[0] == '0';
  }

  /** What is cut off a duration text leaves a text that is none: durations end in `s`, the rest in
      a digit. */
  lemma CutIsNoDuration(d: nat, e: int)
    requires WordPrefix(d) == DurationText(e)
    ensures WordDuration(d)
  {
    hide MagnitudeText, AfterDigits;
    WholePrefix(d);
    DurationFace(d);
    MagnitudePrinted(d);
    MagnitudePrinted(if e < 0 then -e else e);
    var text := DurationText(d);
    var n := Run(Word, text);
    var last := DurationText(e)[|DurationText(e)| - 1];
    assert last == 's' && text[n - 1] == last;
    if n < |text| {
      BeforeCut(text, n);
    } else {
      assert text[..n] == text;
    }
  }

  lemma BeforeCut(t: string, n: nat)
    requires AfterDigits(t) && 0 < n < |t| && !IsWord(t[n])
    ensures IsDigit(t[n - 1])
  {
  }

  /** The stored timeout is the configured one exactly if the two timeouts are the same, or the idle
      one is negative and the other is not, and its text is a single word. */
  lemma TimeoutExact(c: RateSection, tail: string)
    requires InRange(c.idleConnTimeout) && InRange(c.timeout)
    ensures var config := Recovered(c, tail);
            ("timeout" in config && config["timeout"] == Words(DurationText(c.timeout)))
            <==> c.timeout >= 0 && WordDuration(c.timeout) && (c.timeout == c.idleConnTimeout || c.idleConnTimeout < 0)
  {
    hide Collect, MatchesOf, DurationText, WordPrefix, Signed, WordDuration, ParseGoDuration;
    Collected(FirstMatches(c, MatchesOf(tail)));
    WholePrefix(c.timeout);
    FoundIsWord("Timeout:", tail);
    assert MatchesOf(tail).timeout == FindAfter("Timeout:", Word, tail) by { MatchParts(tail); }
    if c.timeout < 0 {
      NegativeNoWord(c.timeout);
    }
    if c.idleConnTimeout >= 0 {
      SameTimeout(c.idleConnTimeout, c.timeout);
    }
  }

  lemma SameTimeout(d: nat, e: int)
    requires InRange(d) && InRange(e)
    ensures WordPrefix(d) == DurationText(e) <==> d == e && WordDuration(d)
  {
    hide DurationText, ParseGoDuration, WordPrefix;
    WholePrefix(d);
    DurationRoundTrip(d);
    DurationRoundTrip(e);
    if WordPrefix(d) == DurationText(e) {
      CutIsNoDuration(d, e);
    }
  }

  // ---------- the second line is not always the configuration ----------

  /** A line whose colons are harmless configures nothing. */
  lemma NothingFound(line: string)
    requires ColonsHarmless(line)
    ensures ConfigOf(line) == map[]
  {
    hide ColonsHarmless;
    assert line + "" == line;
    HeadSkipped(line, "");
  }

  /** A record time: plain text whose colons follow digits. */
  predicate StampText(t: string) {
    !NeedsQuoting(t) && forall k | 0 <= k < |t| && t[k] == ':' :: k > 0 && IsDigit(t[k - 1])
  }

  /** The time of a record is such a text. */
  lemma InstantStamp(t: int, offset: int)
    requires Instants.Zoned(t, offset)
    ensures StampText(Instants.InstantText(t, offset))
  {
    hide Instants.InstantText, Instants.Zoned;
    Instants.InstantTimely(t, offset);
  }

  /** Every colon is followed by a character outside words. */
  predicate OpenColons(s: string) {
    forall k | 0 <= k < |s| && s[k] == ':' :: k + 1 < |s| && !IsWord(s[k + 1])
  }

  lemma OpenAppend(x: string, y: string)
    requires OpenColons(x) && OpenColons(y)
    ensures OpenColons(x + y)
  {
    var s := x + y;
    forall k | 0 <= k < |s| && s[k] == ':' ensures k + 1 < |s| && !IsWord(s[k + 1]) {
      if k < |x| {
        assert s[k] == x[k] && s[k + 1] == x[k + 1];
      } else {
        assert s[k] == y[k - |x|] && s[k + 1] == y[k - |x| + 1];
      }
    }
  }

  lemma NoColons(s: string)
    requires ':' !in s
    ensures OpenColons(s)
  {
    forall k | 0 <= k < |s| ensures s[k] != ':' {
      assert s[k] in s;
    }
  }

  lemma HarmlessAround(a: string, t: string, b: string)
    requires ':' !in a && StampText(t) && OpenColons(b)
    ensures ColonsHarmless(a + t + b)
  {
    var s := a + t + b;
    var n, m := |a|, |a| + |t|;
    assert forall i | 0 <= i < n :: s[i] == a[i] && a[i] in a;
    forall k | 0 <= k < |s| && s[k] == ':'
      ensures k == 0 || IsDigit(s[k - 1]) || k + 1 == |s| || !IsWord(s[k + 1])
    {
      assert n <= k < m ==> s[k] == t[k - n] && k > n && s[k - 1] == t[k - n - 1];
      assert m <= k ==> s[k] == b[k - m] && s[k + 1] == b[k - m + 1];
    }
  }

  function Header(t: string, message: string): Record {
    [Attr("time", Str(t)), Attr("level", Str("INFO")), Attr("msg", Str(message))]
  }

  /** The line written when the rate is overridden. */
  function OverrideRecord(t: string, rate: RateText): Record {
    Header(t, "Overriding RPS") + [Attr("rps", Str(PrintRate(rate)))]
  }

  /** The line written with the configuration: the addresses of the targets, the section, and the rest. */
  function ConfigRecord(t: string, targets: string, c: RateSection, rest: string): Record {
    Header(t, "Loaded configuration")
    + [Attr("config", Str(Opening(targets) + (PrintSection(c) + rest)))]
  }

  lemma {:induction false} RenderKeepsOut(r: Record)
    requires forall a | a in r :: ':' !in a.key && ':' !in ValueText(a.value)
    ensures ':' !in Render(r)
  {
    hide ValueText;
    if r != [] {
      assert r[0] in r && forall a | a in r[1..] :: a in r;
      RenderKeepsOut(r[1..]);
    }
  }

  lemma EscapedNoColon(c: char)
    requires c != ':'
    ensures ':' !in EscapeChar(c)
  {
  }

  lemma {:induction false} EscapeKeepsOut(s: string)
    requires ':' !in s
    ensures ':' !in Escape(s)
  {
    hide EscapeChar;
    if s != "" {
      EscapedNoColon(s[0]);
      assert s[0] in s;
      EscapeKeepsOut(s[1..]);
    }
  }

  lemma TimeFirst(t: string, rest: Record)
    requires !NeedsQuoting(t)
    ensures Render([Attr("time", Str(t))] + rest)
         == "time=" + t + if rest == [] then "" else " " + Render(rest)
  {
    hide NeedsQuoting;
    var r := [Attr("time", Str(t))] + rest;
    assert r[1..] == rest;
    assert "time" + ("=" + t) == "time=" + t;
  }

  /** A record whose only colons are in its time configures nothing. */
  lemma StampOnly(t: string, rest: Record)
    requires StampText(t) && forall a | a in rest :: ':' !in a.key && ':' !in ValueText(a.value)
    ensures ConfigOf(Render([Attr("time", Str(t))] + rest)) == map[]
  {
    hide ConfigOf, Render, ColonsHarmless, ValueText;
    TimeFirst(t, rest);
    RenderKeepsOut(rest);
    NoColons(if rest == [] then "" else " " + Render(rest));
    HarmlessAround("time=", t, if rest == [] then "" else " " + Render(rest));
    NothingFound(Render([Attr("time", Str(t))] + rest));
  }

  lemma StrFace(s: string)
    requires ':' !in s
    ensures ':' !in ValueText(Str(s))
  {
    hide NeedsQuoting, Escape;
    EscapeKeepsOut(s);
  }

  function OverrideTail(shown: string): Record {
    [Attr("level", Str("INFO")), Attr("msg", Str("Overriding RPS")), Attr("rps", Str(shown))]
  }

  lemma OverrideFaces(shown: string)
    requires ':' !in shown
    ensures forall a | a in OverrideTail(shown) :: ':' !in a.key && ':' !in ValueText(a.value)
  {
    hide ValueText;
    StrFace(shown);
    StrFace("Overriding RPS");
    StrFace("INFO");
  }

  /** With an override the parser reads its line in place of the configuration and stores none. */
  lemma OverrideHidesConfig(t: int, offset: int, rate: RateText)
    requires Instants.Zoned(t, offset) && RateForm(rate)
    ensures ConfigOf(Render(OverrideRecord(Instants.InstantText(t, offset), rate))) == map[]
  {
    InstantStamp(t, offset);
    OverrideLine(Instants.InstantText(t, offset), rate);
  }

  lemma OverrideLine(t: string, rate: RateText)
    requires StampText(t) && RateForm(rate)
    ensures ConfigOf(Render(OverrideRecord(t, rate))) == map[]
  {
    RateFace(rate);
    hide ConfigOf, PrintRate, RateForm, Render, StampText, ValueText;
    OverrideFaces(PrintRate(rate));
    assert OverrideRecord(t, rate) == [Attr("time", Str(t))] + OverrideTail(PrintRate(rate));
    hide OverrideRecord, OverrideTail;
    StampOnly(t, OverrideTail(PrintRate(rate)));
  }

  // Printed as part of a quoted text, the section is not changed by quoting.

  lemma PlainAppend(x: string, y: string)
    requires PlainText(x) && PlainText(y)
    ensures PlainText(x + y)
  {
  }

  lemma PlainField(name: string, value: string, end: char)
    requires PlainText(name) && PlainText(value) && Closing(end)
    ensures PlainText(Field(name, value, end))
  {
  }

  lemma DurationPlain(d: int)
    ensures PlainText(DurationText(d))
  {
    DurationChars(d);
  }

  lemma NumberPlain(n: nat)
    ensures PlainText(Itoa(n))
  {
    ItoaNumeral(n);
  }

  lemma SignedPlain(n: int)
    ensures PlainText(Signed(n))
  {
    hide Itoa;
    NumberPlain(if n < 0 then -n else n);
  }

  lemma ExponentPlain(e: int)
    ensures PlainText(ExponentText(e))
  {
    hide Itoa;
    NumberPlain(if e < 0 then -e else e);
  }

  lemma RatePlain(r: RateText)
    requires RateForm(r)
    ensures PlainText(PrintRate(r))
  {
    hide Itoa, ExponentText;
    NumberPlain(match r case Positional(whole, _) => whole case Scientific(lead, _, _) => lead);
    assert PlainText(Fraction(r.fraction));
    if r.Scientific? {
      ExponentPlain(r.exponent);
      hide Fraction, PlainText;
      PlainAppend(Fraction(r.fraction), ExponentText(r.exponent));
    }
    hide PlainText, Fraction;
    PlainAppend(LeadDigits(r), RateBack(r));
  }

  lemma NamesPlain()
    ensures PlainText("RequestsPerSecond") && PlainText("Duration") && PlainText("MaxIdleConns")
  {
  }

  lemma MoreNamesPlain()
    ensures PlainText("MaxIdleConnsPerHost") && PlainText("IdleConnTimeout") && PlainText("Timeout")
  {
  }

  lemma {:induction false} FieldsPlain(fields: seq<Shown>)
    requires forall f | f in fields :: PlainText(f.name) && PlainText(f.value)
    ensures PlainText(PrintFields(fields))
  {
    hide PlainText, Field;
    if fields == [] {
      assert PlainText("") by { NothingPlain(); }
    } else {
      var f, end := fields[0], if |fields| == 1 then '}' else ' ';
      assert f in fields && forall x | x in fields[1..] :: x in fields;
      PlainField(f.name, f.value, end);
      FieldsPlain(fields[1..]);
      PlainAppend(Field(f.name, f.value, end), PrintFields(fields[1..]));
    }
  }

  lemma NothingPlain()
    ensures PlainText("")
  {
  }

  lemma SectionPlain(c: RateSection)
    requires RateForm(c.rate)
    ensures PlainText(PrintSection(c))
  {
    hide PlainText, DurationText, PrintRate, Signed, PrintFields;
    NamesPlain();
    MoreNamesPlain();
    RatePlain(c.rate);
    DurationPlain(c.duration);
    SignedPlain(c.maxIdleConns);
    SignedPlain(c.maxIdleConnsPerHost);
    DurationPlain(c.idleConnTimeout);
    DurationPlain(c.timeout);
    FieldsPlain(SectionFields(c));
  }

  /** What precedes the section inside the quotes. */
  function Opening(targets: string): string { "&{Targets:[" + targets + "] Rate:{" }

  predicate Addresses(targets: string) { forall x | x in targets :: IsWord(x) || x == ' ' }

  lemma OpeningPlain(targets: string)
    requires Addresses(targets)
    ensures PlainText(Opening(targets))
  {
  }

  lemma OpeningFace(targets: string)
    requires Addresses(targets)
    ensures OpenColons(Opening(targets)) && ' ' in Opening(targets)
    ensures Opening(targets)[|Opening(targets)| - 1] == '{'
  {
    assert OpenColons("&{Targets:[");
    NoColons(targets);
    assert OpenColons("] Rate:{");
    OpenAppend("&{Targets:[", targets);
    OpenAppend("&{Targets:[" + targets, "] Rate:{");
    assert Opening(targets) == "&{Targets:[" + targets + "] Rate:{";
    assert Opening(targets)[|Opening(targets)| - 7] == ' ';
  }

  lemma {:induction false} RenderLast(r: Record, a: Attr)
    requires r != []
    ensures Render(r + [a]) == Render(r) + (" " + AttrText(a))
  {
    hide AttrText;
    if |r| == 1 {
      assert (r + [a])[1..] == [a];
    } else {
      RenderLast(r[1..], a);
      assert (r + [a])[1..] == r[1..] + [a];
      assert (AttrText(r[0]) + ([' '] + Render(r[1..]))) + (" " + AttrText(a))
          == AttrText(r[0]) + ([' '] + (Render(r[1..]) + (" " + AttrText(a))));
    }
  }

  lemma QuotedAttr(key: string, s: string)
    requires ' ' in s
    ensures AttrText(Attr(key, Str(s))) == key + ("=" + ("\"" + Escape(s) + "\""))
  {
    assert ForcesQuotes(' ');
  }

  /** Inside a quoted text, after an opening that quoting leaves alone. */
  lemma ConfigInRecord(t: string, middle: Record, key: string, open: string, c: RateSection, rest: string)
    requires StampText(t) && RateForm(c.rate) && ':' !in key
    requires middle != [] && forall a | a in middle :: ':' !in a.key && ':' !in ValueText(a.value)
    requires PlainText(open) && OpenColons(open) && ' ' in open && open[|open| - 1] == '{'
    ensures ConfigOf(Render([Attr("time", Str(t))] + (middle + [Attr(key, Str(open + (PrintSection(c) + rest)))])))
         == Recovered(c, Escape(rest) + "\"")
  {
    hide ConfigOf, PrintSection, Render, Recovered, NeedsQuoting, Escape, ColonsHarmless, OpenColons, PlainText, ValueText;
    var text := open + (PrintSection(c) + rest);
    var last := Attr(key, Str(text));
    var before := " " + Render(middle) + " " + key + "=\"";
    var tail := Escape(rest) + "\"";
    TimeFirst(t, middle + [last]);
    RenderLast(middle, last);
    QuotedAttr(key, text);
    EscapeAppend(open, PrintSection(c) + rest);
    EscapeAppend(PrintSection(c), rest);
    PlainEscape(open);
    SectionPlain(c);
    PlainEscape(PrintSection(c));
    hide AttrText;
    var head := "time=" + t + (before + open);
    assert " " + (Render(middle) + (" " + (key + ("=" + ("\"" + (open + (PrintSection(c) + Escape(rest))) + "\"")))))
        == before + (open + (PrintSection(c) + tail));
    assert Render([Attr("time", Str(t))] + (middle + [last])) == head + (PrintSection(c) + tail);
    RenderKeepsOut(middle);
    NoColons(before);
    OpenAppend(before, open);
    HarmlessAround("time=", t, before + open);
    assert head[|head| - 1] == '{';
    ConfigRecovered(head, c, tail);
  }

  function Loaded(): Record { [Attr("level", Str("INFO")), Attr("msg", Str("Loaded configuration"))] }

  lemma TwoFaces(x: Attr, y: Attr)
    requires ':' !in x.key && ':' !in ValueText(x.value) && ':' !in y.key && ':' !in ValueText(y.value)
    ensures forall a | a in [x, y] :: ':' !in a.key && ':' !in ValueText(a.value)
  {
    hide ValueText;
  }

  lemma LoadedFace()
    ensures forall a | a in Loaded() :: ':' !in a.key && ':' !in ValueText(a.value)
  {
    hide ValueText;
    StrFace("INFO");
    StrFace("Loaded configuration");
    TwoFaces(Attr("level", Str("INFO")), Attr("msg", Str("Loaded configuration")));
  }

  /** Without one, it recovers the configuration from the record the logger writes at any instant. */
  lemma LoadedConfig(t: int, offset: int, targets: string, c: RateSection, rest: string)
    requires Instants.Zoned(t, offset) && RateForm(c.rate) && Addresses(targets)
    ensures ConfigOf(Render(ConfigRecord(Instants.InstantText(t, offset), targets, c, rest)))
         == Recovered(c, Escape(rest) + "\"")
  {
    InstantStamp(t, offset);
    hide *;
    LoadedLine(Instants.InstantText(t, offset), targets, c, rest);
  }

  lemma LoadedLine(t: string, targets: string, c: RateSection, rest: string)
    requires StampText(t) && RateForm(c.rate) && Addresses(targets)
    ensures ConfigOf(Render(ConfigRecord(t, targets, c, rest))) == Recovered(c, Escape(rest) + "\"")
  {
    hide ConfigOf, PrintSection, Render, Recovered, Opening, OpenColons, PlainText, StampText, ValueText, Addresses, Escape, RateForm;
    var open := Opening(targets);
    var last := Attr("config", Str(open + (PrintSection(c) + rest)));
    assert ConfigRecord(t, targets, c, rest) == [Attr("time", Str(t))] + (Loaded() + [last]);
    LoadedFace();
    OpeningPlain(targets);
    OpeningFace(targets);
    ConfigInRecord(t, Loaded(), "config", open, c, rest);
  }
}
