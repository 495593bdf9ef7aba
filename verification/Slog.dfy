/** The text handler of log/slog: how the generators' records become lines, and exactly which
    values the parser's tokeniser gives back whole. */
module Slog {
  import opened Options
  import opened Text
  import opened Regex
  import opened Tokens
  import opened Durations

  datatype Value =
    | Str(s: string)
    | Dur(ns: int)
    | Num(n: int)

  datatype Attr = Attr(key: string, value: Value)

  /** Time, level and message come first, as attributes like the others. */
  type Record = seq<Attr>

  // ---------- rendering ----------

  predicate Control(c: char) { c as int < 32 }

  /** The characters beyond ASCII that unicode.IsPrint accepts, besides the micro sign of duration
      texts. Which they are is left open: everything below holds for any such set. */
  const PRINTABLE: set<char>

  predicate Hidden(c: char) { c as int >= 128 && c as int != 0xB5 && c !in PRINTABLE }

  /** Beyond ASCII the replacement character is quoted although it is printable. */
  predicate ForcesQuotes(c: char) {
    c == ' ' || c == '=' || c == QUOTE || Control(c) || Hidden(c) || c as int == 0xFFFD
  }

  predicate NeedsQuoting(s: string) { s == "" || exists c | c in s :: ForcesQuotes(c) }

  function Hex(d: nat): (c: char)
    requires d < 16
    ensures '0' <= c <= '9' || 'a' <= c <= 'f'
  {
    if d < 10 then DigitChar(d) else ('a' as int + d - 10) as char
  }

  /** The last `digits` hexadecimal digits of a number. */
  function HexText(n: nat, digits: nat): (t: string)
    ensures forall c | c in t :: '0' <= c <= '9' || 'a' <= c <= 'f'
    ensures |t| == digits
  {
    if digits == 0 then "" else HexText(n / 16, digits - 1) + [Hex(n % 16)]
  }

  /** strconv.Quote on one character. */
  function EscapeChar(c: char): (e: string)
    ensures e != ""
  {
    if c == QUOTE || c == SLASH then [SLASH, c]
    else if Control(c) || c as int == 127 then
      match c as int
      case 7 => "\\a"
      case 8 => "\\b"
      case 9 => "\\t"
      case 10 => "\\n"
      case 11 => "\\v"
      case 12 => "\\f"
      case 13 => "\\r"
      case n => "\\x" + HexText(n, 2)
    else if Hidden(c) then
      if c as int < 0x10000 then "\\u" + HexText(c as int, 4) else "\\U" + HexText(c as int, 8)
    else [c]
  }

  /** Quoting leaves it as it is. */
  predicate PlainChar(c: char) {
    c != QUOTE && c != SLASH && !Control(c) && c as int != 127 && !Hidden(c)
  }

  function Escape(s: string): string {
    if s == "" then "" else EscapeChar(s[0]) + Escape(s[1..])
  }

  function GoQuote(s: string): string { "\"" + Escape(s) + "\"" }

  function StrText(s: string): string {
    if NeedsQuoting(s) then GoQuote(s) else s
  }

  function ValueText(v: Value): string {
    match v
    case Str(s) => StrText(s)
    case Dur(ns) => DurationText(ns)
    case Num(n) => Signed(n)
  }

  // ---------- quoting can be undone ----------

  function HexDigit(c: char): Option<nat> {
    if IsDigit(c) then Some(DigitOf(c)) else if 'a' <= c <= 'f' then Some(c as int - 'a' as int + 10) else None
  }

  function HexValue(t: string): Option<nat> {
    if t == "" then Some(0)
    else
      match HexValue(t[..|t| - 1])
      case None => None
      case Some(n) =>
        match HexDigit(t[|t| - 1])
        case None => None
        case Some(d) => Some(16 * n + d)
  }

  /** The character of a hexadecimal escape, if it is one. */
  function CharOf(t: string): Option<char> {
    match HexValue(t)
    case None => None
    case Some(n) => if n < 0xD800 || 0xE000 <= n < 0x11_0000 then Some(n as char) else None
  }

  /** The character at the front of a quoted text, and what it leaves. */
  function Unescaped(s: string): Option<(char, string)>
    requires s != ""
  {
    if s[0] != SLASH then Some((s[0], s[1..]))
    else if |s| < 2 then None
    else
      match s[1]
      case 'a' => Some((7 as char, s[2..]))
      case 'b' => Some((8 as char, s[2..]))
      case 't' => Some((9 as char, s[2..]))
      case 'n' => Some((10 as char, s[2..]))
      case 'v' => Some((11 as char, s[2..]))
      case 'f' => Some((12 as char, s[2..]))
      case 'r' => Some((13 as char, s[2..]))
      case 'x' => HexEscape(s, 2)
      case 'u' => HexEscape(s, 4)
      case 'U' => HexEscape(s, 8)
      case c => if c == QUOTE || c == SLASH then Some((c, s[2..])) else None
  }

  function HexEscape(s: string, digits: nat): (r: Option<(char, string)>)
    requires |s| >= 2
    ensures r.Some? ==> |r.value.1| < |s|
  {
    if |s| < 2 + digits then None
    else
      match CharOf(s[2..2 + digits])
      case None => None
      case Some(c) => Some((c, s[2 + digits..]))
  }

  /** strconv.Unquote between the quotes. */
  function Unescape(s: string): Option<string>
    decreases |s|
  {
    if s == "" then Some("")
    else
      match Unescaped(s)
      case None => None
      case Some((c, rest)) =>
        if |rest| >= |s| then None
        else
          match Unescape(rest)
          case None => None
          case Some(t) => Some([c] + t)
  }

  function Pow16(k: nat): nat { if k == 0 then 1 else 16 * Pow16(k - 1) }

  lemma {:induction false} HexBack(n: nat, k: nat)
    requires n < Pow16(k)
    ensures HexValue(HexText(n, k)) == Some(n)
  {
    if k > 0 {
      HexBack(n / 16, k - 1);
      var t := HexText(n, k);
      assert t[..|t| - 1] == HexText(n / 16, k - 1) && t[|t| - 1] == Hex(n % 16);
      HexDigitBack(n % 16);
    }
  }

  lemma HexDigitBack(d: nat)
    requires d < 16
    ensures HexDigit(Hex(d)) == Some(d)
  {
  }

  lemma HexEscapeBack(head: string, c: char, digits: nat, rest: string)
    requires |head| == 2 && c as nat < Pow16(digits)
    ensures HexEscape(head + HexText(c as nat, digits) + rest, digits) == Some((c, rest))
  {
    HexBack(c as nat, digits);
    hide HexText, HexValue, Pow16;
    var s := head + HexText(c as nat, digits) + rest;
    assert s[2..2 + digits] == HexText(c as nat, digits) && s[2 + digits..] == rest;
  }

  lemma Powers()
    ensures Pow16(2) == 256 && Pow16(4) == 0x1_0000 && Pow16(8) == 0x1_0000_0000
  {
    assert Pow16(4) == 256 * Pow16(2) && Pow16(8) == 0x1_0000 * Pow16(4);
  }

  /** A hexadecimal escape. */
  lemma UnescapedHex(kind: char, c: char, digits: nat, rest: string)
    requires (kind == 'x' && digits == 2) || (kind == 'u' && digits == 4) || (kind == 'U' && digits == 8)
    requires c as nat < Pow16(digits)
    ensures Unescaped([SLASH, kind] + HexText(c as nat, digits) + rest) == Some((c, rest))
  {
    HexEscapeBack([SLASH, kind], c, digits, rest);
    hide HexText, HexEscape, Pow16;
  }

  lemma UnescapedChar(c: char, rest: string)
    ensures EscapeChar(c) + rest != "" && Unescaped(EscapeChar(c) + rest) == Some((c, rest))
  {
    Powers();
    hide Pow16, HexText, HexEscape;
    var s := EscapeChar(c) + rest;
    if c != QUOTE && c != SLASH && (Control(c) || c as int == 127) && !(7 <= c as int <= 13) {
      UnescapedHex('x', c, 2, rest);
      assert s == [SLASH, 'x'] + HexText(c as nat, 2) + rest;
    } else if c != QUOTE && c != SLASH && !Control(c) && c as int != 127 && Hidden(c) {
      if c as int < 0x10000 {
        UnescapedHex('u', c, 4, rest);
        assert s == [SLASH, 'u'] + HexText(c as nat, 4) + rest;
      } else {
        UnescapedHex('U', c, 8, rest);
        assert s == [SLASH, 'U'] + HexText(c as nat, 8) + rest;
      }
    } else if |EscapeChar(c)| == 2 {
      assert s[2..] == rest;
    } else {
      assert s[1..] == rest;
    }
  }

  /** What quoting wrote, unquoting reads back. */
  lemma {:induction false} QuoteRoundTrip(s: string)
    ensures Unescape(Escape(s)) == Some(s)
  {
    hide EscapeChar, Unescaped;
    if s != "" {
      UnescapedChar(s[0], Escape(s[1..]));
      QuoteRoundTrip(s[1..]);
      assert [s[0]] + s[1..] == s;
    }
  }

  function AttrText(a: Attr): string { a.key + ("=" + ValueText(a.value)) }

  /** The attributes of a record, one space between two. */
  function Render(r: Record): string {
    if r == [] then ""
    else if |r| == 1 then AttrText(r[0])
    else AttrText(r[0]) + ([' '] + Render(r[1..]))
  }

  predicate WordKeys(r: Record) {
    forall a | a in r :: a.key != "" && AllWord(a.key)
  }

  // ---------- which values come back whole ----------

  predicate QuoteFree(s: string) { QUOTE !in s }

  /** Slashes, a quote, text without quotes, and a closing quote: a JSON string among others. */
  predicate JsonShape(s: string) {
    var k := Run(Slash, s);
    && k + 2 <= |s| && s[k] == QUOTE && s[|s| - 1] == QUOTE
    && QuoteFree(s[k + 1..|s| - 1])
  }

  predicate Recoverable(v: Value) {
    v.Str? ==> QuoteFree(v.s) || JsonShape(v.s)
  }

  predicate EndOfValue(rest: string) { rest == "" || rest[0] == ' ' }

  predicate BareText(t: string) { t != "" && forall c | c in t :: Has(NotQuoteNotBlank, c) }

  lemma BareLength(t: string, rest: string)
    requires BareText(t) && EndOfValue(rest)
    ensures ValueLength(t + rest) == |t|
  {
    assert t[0] in t;
    RunAppend(NotQuoteNotBlank, t, rest);
  }

  lemma PlainIsBare(s: string)
    requires !NeedsQuoting(s)
    ensures BareText(s) && QuoteFree(s)
  {
  }

  lemma BareDigits(digits: string)
    requires AllDigits(digits) && digits != ""
    ensures BareText(digits) && BareText("-" + digits)
  {
    assert forall c | IsDigit(c) || c == '-' :: Has(NotQuoteNotBlank, c);
    assert forall c | c in "-" + digits :: c == '-' || c in digits;
  }

  lemma SignedIsBare(n: int)
    ensures BareText(Signed(n))
  {
    var m: nat := if n < 0 then -n else n;
    hide Itoa, BareText, AllDigits;
    ItoaNumeral(m);
    BareDigits(Itoa(m));
  }

  lemma DurationIsBare(d: int)
    ensures BareText(DurationText(d))
  {
    hide MagnitudeText;
    MagnitudeStart(if d < 0 then -d else d);
    DurationChars(d);
  }

  // ---------- quoted text ----------

  /** Text that quoting does not change. */
  predicate PlainText(w: string) {
    forall c | c in w :: PlainChar(c)
  }

  lemma PlainTail(w: string)
    requires PlainText(w) && w != ""
    ensures PlainText(w[1..]) && w[0] != SLASH && w[0] != QUOTE && EscapeChar(w[0]) == [w[0]] && w == [w[0]] + w[1..]
  {
    assert w[0] in w && forall c | c in w[1..] :: c in w;
  }

  lemma {:induction false} PlainEscape(w: string)
    requires PlainText(w)
    ensures Escape(w) == w
  {
    hide PlainText, EscapeChar;
    if w != "" {
      PlainTail(w);
      PlainEscape(w[1..]);
    }
  }

  lemma {:induction false} EscapeAppend(a: string, b: string)
    ensures Escape(a + b) == Escape(a) + Escape(b)
  {
    hide EscapeChar;
    if a == "" {
      assert a + b == b;
    } else {
      EscapeAppend(a[1..], b);
      assert (a + b)[1..] == a[1..] + b && (a + b)[0] == a[0];
      var x, y, z := EscapeChar(a[0]), Escape(a[1..]), Escape(b);
      assert x + (y + z) == (x + y) + z;
    }
  }

  lemma {:induction false} EscapeQuoteFree(s: string)
    requires QuoteFree(s)
    ensures QuoteFree(Escape(s))
  {
    if s != "" {
      assert s[0] in s;
      EscapeQuoteFree(s[1..]);
    }
  }

  predicate AllSlashes(s: string) { forall c | c in s :: c == SLASH }

  lemma SlashesAppend(x: string, y: string)
    ensures AllSlashes(x + y) <==> AllSlashes(x) && AllSlashes(y)
  {
    assert forall c :: c in x + y <==> c in x || c in y;
  }

  lemma EscapedSlashes(c: char)
    requires c != QUOTE
    ensures AllSlashes(EscapeChar(c)) <==> c == SLASH
  {
    var e := EscapeChar(c);
    assert e[|e| - 1] in e;
  }

  lemma {:induction false} EscapeSlashes(s: string)
    requires QuoteFree(s)
    ensures AllSlashes(Escape(s)) <==> AllSlashes(s)
    ensures s != "" ==> Escape(s) != ""
  {
    hide EscapeChar, AllSlashes;
    if s == "" {
      assert Escape(s) == s;
    } else {
      assert s[0] in s && s == [s[0]] + s[1..];
      EscapedSlashes(s[0]);
      EscapeSlashes(s[1..]);
      SlashesAppend(EscapeChar(s[0]), Escape(s[1..]));
      SlashesAppend([s[0]], s[1..]);
      assert AllSlashes([s[0]]) <==> s[0] == SLASH by { OneSlash(s[0]); }
    }
  }

  lemma OneSlash(c: char)
    ensures AllSlashes([c]) <==> c == SLASH
  {
    assert c in [c];
  }

  /** The first quote of a string. */
  function FirstQuote(s: string): (i: nat)
    ensures i <= |s| && QuoteFree(s[..i]) && (i < |s| ==> s[i] == QUOTE)
    ensures i == |s| <==> QuoteFree(s)
  {
    if s == "" || s[0] == QUOTE then 0
    else
      var i := 1 + FirstQuote(s[1..]);
      assert s[..i] == [s[0]] + s[1..][..i - 1] && s == [s[0]] + s[1..];
      i
  }

  /** The escaped text of a string up to its first quote, that quote, and the rest. */
  lemma EscapeAtQuote(s: string)
    requires !QuoteFree(s)
    ensures var i := FirstQuote(s);
            Escape(s) == Escape(s[..i]) + ([SLASH, QUOTE] + Escape(s[i + 1..]))
  {
    hide EscapeChar, FirstQuote;
    var i := FirstQuote(s);
    var tail := [QUOTE] + s[i + 1..];
    assert s == s[..i] + tail;
    EscapeAppend(s[..i], tail);
    assert tail[1..] == s[i + 1..] && EscapeChar(QUOTE) == [SLASH, QUOTE] by { EscapedQuote(); }
  }

  lemma EscapedQuote()
    ensures EscapeChar(QUOTE) == [SLASH, QUOTE]
  {
  }

  lemma RunNotQuote(x: string, y: string)
    requires QuoteFree(x) && y != "" && y[0] == QUOTE
    ensures Run(NotQuote, x + y) == |x|
  {
    RunAppend(NotQuote, x, y);
  }

  /** Slashes cannot reach a quote across another character. */
  lemma {:induction false} SlashRunStops(x: string, y: string)
    requires QuoteFree(x) && !AllSlashes(x)
    ensures Run(Slash, x + y) < |x| && (x + y)[Run(Slash, x + y)] != QUOTE
  {
    assert x[0] in x;
    assert x == [x[0]] + x[1..];
    if x[0] == SLASH {
      SlashRunStops(x[1..], y);
      assert (x + y)[1..] == x[1..] + y;
    }
  }

  lemma NotAllSlashes(s: string)
    requires NeedsQuoting(s) && QuoteFree(s)
    ensures s != "" ==> !AllSlashes(s)
  {
  }

  lemma SlashRun(x: string, y: string)
    requires AllSlashes(x) && y != "" && y[0] != SLASH
    ensures Run(Slash, x + y) == |x|
  {
    RunAppend(Slash, x, y);
  }

  lemma NoSlashes()
    ensures AllSlashes("")
  {
  }

  /** Text without quotes between two quotes is one plain quoted value. */
  lemma QuoteFreeLength(s: string, rest: string)
    requires NeedsQuoting(s) && QuoteFree(s) && EndOfValue(rest)
    ensures ValueLength(GoQuote(s) + rest) == |GoQuote(s)|
  {
    hide EscapeChar, NeedsQuoting, AllSlashes, Run;
    var e := Escape(s);
    var close := "\"" + rest;
    var text := GoQuote(s) + rest;
    assert text[1..] == e + close && text[0] == QUOTE;
    EscapeQuoteFree(s);
    RunNotQuote(e, close);
    NotAllSlashes(s);
    EscapeSlashes(s);
    if e == "" {
      assert e + close == close;
      NoSlashes();
      SlashRun(e, close);
    } else {
      SlashRunStops(e, close);
    }
    assert text[1 + Run(Slash, text[1..])..] == text[1..][Run(Slash, text[1..])..];
  }

  /** `b` ends in its only quote. */
  predicate ClosesAtOnce(b: string) { b != "" && FirstQuote(b) == |b| - 1 }

  lemma ClosesMeans(b: string)
    ensures ClosesAtOnce(b) <==> b != "" && b[|b| - 1] == QUOTE && QuoteFree(b[..|b| - 1])
  {
    if b != "" && b[|b| - 1] == QUOTE && QuoteFree(b[..|b| - 1]) {
      var init := b[..|b| - 1];
      assert b[|b| - 1] in b;
      forall i | 0 <= i < |b| - 1 ensures b[i] != QUOTE {
        assert b[i] == init[i] && init[i] in init;
      }
    }
  }

  lemma SlashesOrStop(s: string, x: string, y: string)
    requires s == x + y && QuoteFree(x) && y != "" && y[0] == QUOTE
    ensures var n := Run(Slash, s);
            && (AllSlashes(x) <==> n < |s| && s[n] == QUOTE)
            && (AllSlashes(x) ==> n == |x|)
  {
    assert QUOTE != SLASH;
    hide Run, AllSlashes, QuoteFree;
    if AllSlashes(x) {
      SlashRun(x, y);
    } else {
      SlashRunStops(x, y);
    }
  }

  lemma AtFirstQuote(s: string)
    requires !QuoteFree(s)
    ensures var i := FirstQuote(s); i < |s| && s == s[..i] + s[i..] && s[i..] != "" && s[i..][0] == QUOTE
  {
    hide FirstQuote, QuoteFree;
  }

  lemma SlashesBeforeQuote(s: string)
    requires !QuoteFree(s)
    ensures AllSlashes(s[..FirstQuote(s)]) <==> Run(Slash, s) < |s| && s[Run(Slash, s)] == QUOTE
    ensures AllSlashes(s[..FirstQuote(s)]) ==> Run(Slash, s) == FirstQuote(s)
  {
    hide *;
    AtFirstQuote(s);
    var i := FirstQuote(s);
    var x, y := s[..i], s[i..];
    SlashesOrStop(s, x, y);
  }

  lemma JsonShapeAtQuote(s: string)
    requires !QuoteFree(s)
    ensures JsonShape(s) <==> AllSlashes(s[..FirstQuote(s)]) && ClosesAtOnce(s[FirstQuote(s) + 1..])
  {
    hide FirstQuote, Run, AllSlashes, ClosesAtOnce, QuoteFree;
    var i := FirstQuote(s);
    var b := s[i + 1..];
    SlashesBeforeQuote(s);
    ClosesMeans(b);
    if b != "" {
      assert b[..|b| - 1] == s[i + 1..|s| - 1];
      assert b[|b| - 1] == s[|s| - 1];
    }
  }

  /** After an escaped quote: does the text end at the next quote, at once followed by another? */
  lemma NextQuote(b: string, rest: string)
    requires EndOfValue(rest)
    ensures var t := Escape(b) + ("\"" + rest);
            var q := Run(NotQuote, t);
            && (q > 0 && t[q - 1] == SLASH && "\"\"" <= t[q..] <==> ClosesAtOnce(b))
            && (ClosesAtOnce(b) ==> q + 1 == |Escape(b)|)
  {
    hide EscapeChar, Escape, Run;
    if QuoteFree(b) {
      var close := "\"" + rest;
      EscapeQuoteFree(b);
      RunNotQuote(Escape(b), close);
      assert (Escape(b) + close)[|Escape(b)|..] == close;
      assert rest != "" ==> close[1] == ' ';
    } else {
      NextInnerQuote(b, rest);
    }
  }

  lemma NextInnerQuote(b: string, rest: string)
    requires !QuoteFree(b)
    ensures var t := Escape(b) + ("\"" + rest);
            var q := Run(NotQuote, t);
            && q > 0 && t[q - 1] == SLASH && ("\"\"" <= t[q..] <==> ClosesAtOnce(b))
            && (ClosesAtOnce(b) ==> q + 1 == |Escape(b)|)
  {
    hide EscapeChar, Escape, Run, FirstQuote;
    var j := FirstQuote(b);
    var b1, b2 := b[..j], b[j + 1..];
    var close := "\"" + rest;
    var t := Escape(b) + close;
    EscapeAtQuote(b);
    EscapeQuoteFree(b1);
    var x := Escape(b1) + [SLASH];
    var y := "\"" + (Escape(b2) + close);
    assert t == x + y;
    RunNotQuote(x, y);
    assert t[|x|..] == y;
    EscapeStart(b2);
    assert y[1] == (Escape(b2) + close)[0];
    assert b2 == "" <==> j == |b| - 1;
    EscapeEmpty();
  }

  lemma EscapeEmpty()
    ensures Escape("") == ""
  {
  }

  lemma EscapeStart(s: string)
    ensures s != "" ==> Escape(s) != "" && Escape(s)[0] != QUOTE
  {
  }

  /** The escaped text around the first quote, as the scanner meets it. */
  lemma QuotedWithQuote(s: string, rest: string)
    requires !QuoteFree(s)
    ensures var i := FirstQuote(s);
            var text := GoQuote(s) + rest;
            var ea, after := Escape(s[..i]), Escape(s[i + 1..]) + ("\"" + rest);
            && QuoteFree(ea)
            && text[0] == QUOTE && text[1..] == (ea + [SLASH]) + ("\"" + after)
            && QuotedLength(text) == Some(|ea| + 3)
            && |GoQuote(s)| == |ea| + |Escape(s[i + 1..])| + 4
  {
    hide EscapeChar, Escape, FirstQuote, Run;
    var i := FirstQuote(s);
    var text := GoQuote(s) + rest;
    var ea, after := Escape(s[..i]), Escape(s[i + 1..]) + ("\"" + rest);
    EscapeAtQuote(s);
    EscapeQuoteFree(s[..i]);
    assert text[1..] == (ea + [SLASH]) + ("\"" + after);
    RunNotQuote(ea + [SLASH], "\"" + after);
  }

  /** Nothing but slashes before the first quote: the escaped opening is found. */
  lemma SlashesThenQuote(a: string, text: string, after: string)
    requires AllSlashes(Escape(a)) && text != "" && text[1..] == (Escape(a) + [SLASH]) + ("\"" + after)
    ensures var n := Run(Slash, text[1..]);
            n == |Escape(a)| + 1 && text[1 + n..] == "\"" + after && text[1 + n..][1..] == after
  {
    hide Escape, Run, AllSlashes;
    SlashesAppend(Escape(a), [SLASH]);
    OneSlash(SLASH);
    SlashRun(Escape(a) + [SLASH], "\"" + after);
    assert text[1 + |Escape(a)| + 1..] == text[1..][|Escape(a)| + 1..];
  }

  /** Something else before the first quote: it is not. */
  lemma OtherThenSlash(a: string, text: string, after: string)
    requires QuoteFree(Escape(a)) && !AllSlashes(Escape(a)) && text != "" && text[1..] == (Escape(a) + [SLASH]) + ("\"" + after)
    ensures var n := Run(Slash, text[1..]); n < |text| - 1 && text[1 + n] != QUOTE
  {
    hide Escape, Run, AllSlashes, QuoteFree;
    SlashRunStops(Escape(a), [SLASH] + ("\"" + after));
    assert text[1..] == Escape(a) + ([SLASH] + ("\"" + after));
    var n := Run(Slash, text[1..]);
    assert text[1 + n..] == text[1..][n..];
  }

  /** The escaped opening is found: what follows decides. */
  lemma EscapedOpening(a: string, b: string, rest: string, text: string)
    requires AllSlashes(Escape(a)) && EndOfValue(rest) && text != "" && text[0] == QUOTE
    requires text[1..] == (Escape(a) + [SLASH]) + ("\"" + (Escape(b) + ("\"" + rest)))
    ensures EscapedLength(text) == if ClosesAtOnce(b) then Some(|Escape(a)| + |Escape(b)| + 4) else None
  {
    hide EscapeChar, Escape, FirstQuote, ClosesAtOnce, Run, AllSlashes, QuoteFree;
    SlashesThenQuote(a, text, Escape(b) + ("\"" + rest));
    NextQuote(b, rest);
  }

  /** The scanner's first alternative on quoted text with quotes inside. */
  lemma EscapedWithQuote(s: string, rest: string)
    requires !QuoteFree(s) && EndOfValue(rest)
    ensures EscapedLength(GoQuote(s) + rest) == if JsonShape(s) then Some(|GoQuote(s)|) else None
  {
    hide EscapeChar, Escape, FirstQuote, JsonShape, ClosesAtOnce, GoQuote, Run, AllSlashes, QuoteFree;
    var i := FirstQuote(s);
    var a, b := s[..i], s[i + 1..];
    var text := GoQuote(s) + rest;
    QuotedWithQuote(s, rest);
    JsonShapeAtQuote(s);
    EscapeSlashes(a);
    if AllSlashes(a) {
      hide EscapedLength;
      EscapedOpening(a, b, rest, text);
    } else {
      OtherThenSlash(a, text, Escape(b) + ("\"" + rest));
      assert text[1..][Run(Slash, text[1..])..] == text[1 + Run(Slash, text[1..])..];
    }
  }

  /** Text with quotes comes back whole exactly when it has the JSON shape. */
  lemma InnerQuoteLength(s: string, rest: string)
    requires !QuoteFree(s) && EndOfValue(rest)
    ensures ValueLength(GoQuote(s) + rest) == |GoQuote(s)| <==> JsonShape(s)
    ensures ValueLength(GoQuote(s) + rest) > 0
  {
    hide JsonShape, Escape, GoQuote, EscapedLength, QuotedLength;
    QuotedWithQuote(s, rest);
    EscapedWithQuote(s, rest);
  }

  /** The tokeniser returns the whole text of a value exactly when it is recoverable. */
  lemma WholeValue(v: Value, rest: string)
    requires EndOfValue(rest)
    ensures ValueLength(ValueText(v) + rest) == |ValueText(v)| <==> Recoverable(v)
    ensures ValueText(v) != "" && ValueLength(ValueText(v) + rest) > 0
  {
    hide JsonShape, ValueLength, EscapeChar;
    match v {
      case Str(s) =>
        if !NeedsQuoting(s) {
          PlainIsBare(s);
          BareLength(s, rest);
        } else if QuoteFree(s) {
          QuoteFreeLength(s, rest);
        } else {
          InnerQuoteLength(s, rest);
        }
      case Dur(ns) =>
        DurationIsBare(ns);
        BareLength(DurationText(ns), rest);
      case Num(n) =>
        SignedIsBare(n);
        BareLength(Signed(n), rest);
    }
  }

  // ---------- whole records ----------

  function Texts(r: Record): seq<Pair> {
    if r == [] then [] else [(r[0].key, ValueText(r[0].value))] + Texts(r[1..])
  }

  predicate AllRecoverable(r: Record) { forall a | a in r :: Recoverable(a.value) }

  /** The first token of a rendered attribute. */
  lemma FirstToken(a: Attr, rest: string)
    requires a.key != "" && AllWord(a.key) && EndOfValue(rest)
    ensures var t := ScanToken(AttrText(a) + rest);
            if Recoverable(a.value)
            then t == Some(Token(a.key, ValueText(a.value), rest))
            else t.Some? && t.value.value != ValueText(a.value)
  {
    hide ValueLength, ValueText, Recoverable;
    var text := ValueText(a.value);
    var s := AttrText(a) + rest;
    WholeValue(a.value, rest);
    assert s == a.key + ("=" + (text + rest));
    RunAppend(Word, a.key, "=" + (text + rest));
    assert s[|a.key|..] == "=" + (text + rest) && s[..|a.key|] == a.key;
    assert s[|a.key| + 1..] == text + rest;
    var n := ValueLength(text + rest);
    assert n == |text| ==> (text + rest)[..n] == text && (text + rest)[n..] == rest;
    assert n != |text| ==> |(text + rest)[..n]| != |text|;
  }

  lemma SpaceSkipped(s: string)
    ensures FindAll([' '] + s) == FindAll(s)
  {
    assert ([' '] + s)[1..] == s;
    assert Run(Word, [' '] + s) == 0;
  }

  /** For every record: the tokeniser's matches are the record's keys and texts, in order,
      exactly when every value is recoverable. */
  lemma {:induction false} RecordTokens(r: Record)
    requires WordKeys(r)
    ensures FindAll(Render(r)) == Texts(r) <==> AllRecoverable(r)
  {
    hide ScanToken, AttrText, Recoverable, ValueText;
    if r != [] {
      var a, more := r[0], r[1..];
      assert a in r && (forall b | b in more :: b in r) && r == [a] + more;
      var rest := if more == [] then "" else [' '] + Render(more);
      assert Render(r) == AttrText(a) + rest;
      FirstToken(a, rest);
      if Recoverable(a.value) {
        RecordTokens(more);
        if more != [] {
          SpaceSkipped(Render(more));
        }
        assert FindAll(Render(r)) == [(a.key, ValueText(a.value))] + FindAll(rest);
        assert FindAll(rest) == FindAll(Render(more));
        assert FindAll(Render(r))[1..] == FindAll(rest) && Texts(r)[1..] == Texts(more);
      } else {
        assert Texts(r)[0].1 == ValueText(a.value);
      }
    }
  }
}
