/** The tokeniser of cmd/logparser/main.go: the pattern of parseKeyValuePairs, a one-pass scanner
    that finds the same matches, and the map the method fills from them. */
module Tokens {
  import opened Options
  import opened Text
  import opened Regex

  /** `"\\+"[^"]*\\+""|"[^"]*"|[^"\s]+` */
  const ESCAPED: Re := Cat(Lit("\""), Cat(Many(Slash, 1), FROM_QUOTE))
  const FROM_QUOTE: Re := Cat(Lit("\""), TEXT_TO_END)
  const TEXT_TO_END: Re := Cat(Many(NotQuote, 0), SLASHES_THEN_TWO_QUOTES)
  const SLASHES_THEN_TWO_QUOTES: Re := Cat(Many(Slash, 1), Lit("\"\""))
  const QUOTED: Re := Cat(Lit("\""), Cat(Many(NotQuote, 0), Lit("\"")))
  const VALUE: Re := Alt(ESCAPED, Alt(QUOTED, Many(NotQuoteNotBlank, 1)))
  const KEY: Re := Many(Word, 1)
  const ASSIGNED: Re := Cat(Lit("="), VALUE)

  /** One match: the two submatches and what is left of the line. */
  datatype Token = Token(key: string, value: string, rest: string)

  /** What the regular expression matches at the front of `s`. */
  function RegexToken(s: string): Option<Token> {
    match Through(Rests(KEY, s), ASSIGNED)
    case None => None
    case Some((afterKey, rest)) =>
      match Through(Rests(Lit("="), afterKey), VALUE)
      case None => None
      case Some((value, _)) => Some(Token(Between(s, afterKey), Between(value, rest), rest))
  }

  // ---------- the scanner ----------

  /** The length of a value of the form quote, slashes, quote, text, slash, two quotes. */
  function EscapedLength(s: string): Option<nat> {
    if !("\"" <= s) then None
    else
      var slashes := Run(Slash, s[1..]);
      var inner := s[1 + slashes..];
      if slashes == 0 || !("\"" <= inner) then None
      else
        var text := inner[1..];
        var q := Run(NotQuote, text);
        if q > 0 && text[q - 1] == SLASH && "\"\"" <= text[q..] then Some(slashes + q + 4) else None
  }

  function QuotedLength(s: string): Option<nat> {
    if !("\"" <= s) then None
    else
      var q := Run(NotQuote, s[1..]);
      if 1 + q < |s| then Some(q + 2) else None
  }

  /** The length of the value at the front of `s`; 0 when there is none. */
  function ValueLength(s: string): (n: nat)
    ensures n <= |s|
  {
    match EscapedLength(s)
    case Some(n) => n
    case None =>
      match QuotedLength(s)
      case Some(n) => n
      case None => Run(NotQuoteNotBlank, s)
  }

  function ScanToken(s: string): (t: Option<Token>)
    ensures t.Some? ==> |t.value.rest| < |s|
  {
    var k := Run(Word, s);
    if k == 0 || !("=" <= s[k..]) then None
    else
      var n := ValueLength(s[k + 1..]);
      if n == 0 then None else Some(Token(s[..k], s[k + 1..][..n], s[k + 1..][n..]))
  }

  // ---------- the scanner is the regular expression ----------

  lemma LitStart(text: string, t: string)
    requires text != "" && t != "" && text[0] != t[0]
    ensures Rests(Lit(text), t) == []
  {
    if text <= t {
      assert false;
    }
  }

  /** Slashes, then the two quotes: at most one way to match. */
  function TailRests(t: string): seq<string> {
    var n := Run(Slash, t);
    if n > 0 && "\"\"" <= t[n..] then [t[n + 2..]] else []
  }

  lemma TailIsRegex(t: string)
    ensures Rests(SLASHES_THEN_TWO_QUOTES, t) == TailRests(t)
  {
    forall u: string | u != "" && Has(Slash, u[0]) ensures Rests(Lit("\"\""), u) == [] {
      LitStart("\"\"", u);
    }
    ManyThen(Slash, 1, Lit("\"\""), t);
    var n := Run(Slash, t);
    if n > 0 && "\"\"" <= t[n..] {
      assert t[n..][2..] == t[n + 2..];
    }
  }

  lemma QuoteAt(s: string, k: nat)
    requires k <= |s| && "\"\"" <= s[k..]
    ensures k + 2 <= |s| && s[k] == QUOTE && !Has(NotQuote, s[k]) && !Has(Slash, s[k])
  {
    assert s[k] == s[k..][0];
  }

  /** Where the tail matches from the front of `s`, `s` is slashes up to its first quote. */
  lemma TailAtFront(s: string)
    requires s != "" && Has(NotQuote, s[0])
    ensures var q := Run(NotQuote, s);
            TailRests(s) != [] ==> s[q - 1] == SLASH && "\"\"" <= s[q..] && TailRests(s) == [s[q + 2..]]
    ensures Run(NotQuote, s) == 1 && s[0] == SLASH && "\"\"" <= s[1..] ==> TailRests(s) != []
  {
    hide Run;
    var b := Run(Slash, s);
    if b > 0 && "\"\"" <= s[b..] {
      QuoteAt(s, b);
      assert forall i | 0 <= i < b :: Has(Slash, s[i]) && Has(NotQuote, s[i]);
      RunUnique(NotQuote, s, b);
    }
    if s[0] == SLASH && "\"\"" <= s[1..] {
      QuoteAt(s, 1);
      RunUnique(Slash, s, 1);
    }
  }

  /** What text-to-the-end leaves over in every way it matches. */
  function TextRest(t: string): Option<string> {
    var q := Run(NotQuote, t);
    if q > 0 && t[q - 1] == SLASH && "\"\"" <= t[q..] then Some(t[q + 2..]) else None
  }

  predicate FirstRest(rests: seq<string>, first: Option<string>) {
    match first
    case Some(t) => rests != [] && rests[0] == t
    case None => rests == []
  }

  lemma TextStep(more: seq<string>, s: string)
    requires s != "" && Has(NotQuote, s[0])
    requires FirstRest(more, TextRest(s[1..]))
    ensures FirstRest(more + TailRests(s), TextRest(s))
  {
    TailAtFront(s);
    hide TailRests;
    var q := Run(NotQuote, s);
    assert s[1..][q - 1..] == s[q..];
    if q + 2 <= |s| {
      assert s[1..][q + 1..] == s[q + 2..];
    }
  }

  lemma TextStop(s: string)
    requires s == "" || !Has(NotQuote, s[0])
    ensures FirstRest(TailRests(s), TextRest(s))
  {
  }

  /** `[^"]*` and then the tail: every way of matching ends after the first quote, so all agree. */
  lemma {:induction false} TextToEnd(tail: Re, s: string)
    requires forall t :: Rests(tail, t) == TailRests(t)
    ensures FirstRest(RestsOfAll(tail, ManyRests(NotQuote, 0, s)), TextRest(s))
  {
    hide TextRest, TailRests, Run, FirstRest;
    assert RestsOfAll(tail, [s]) == TailRests(s) by {
      assert RestsOfAll(tail, [s]) == Rests(tail, s) + RestsOfAll(tail, []);
    }
    if s == "" || !Has(NotQuote, s[0]) {
      assert ManyRests(NotQuote, 0, s) == [s];
      TextStop(s);
    } else {
      TextToEnd(tail, s[1..]);
      RestsOfAllAppend(tail, ManyRests(NotQuote, 0, s[1..]), [s]);
      TextStep(RestsOfAll(tail, ManyRests(NotQuote, 0, s[1..])), s);
    }
  }

  /** A quote, slashes and a quote before anything. */
  lemma SlashesBetweenQuotes(b: Re, s: string)
    ensures Rests(Cat(Lit("\""), Cat(Many(Slash, 1), Cat(Lit("\""), b))), s)
         == if "\"" <= s && Run(Slash, s[1..]) > 0 && "\"" <= s[1 + Run(Slash, s[1..])..]
            then Rests(b, s[1 + Run(Slash, s[1..])..][1..]) else []
  {
    var fromQuote := Cat(Lit("\""), b);
    LitThen("\"", Cat(Many(Slash, 1), fromQuote), s);
    if "\"" <= s {
      forall u: string | u != "" && Has(Slash, u[0]) ensures Rests(fromQuote, u) == [] {
        LitThen("\"", b, u);
      }
      var body := s[1..];
      ManyThen(Slash, 1, fromQuote, body);
      var inner := body[Run(Slash, body)..];
      assert inner == s[1 + Run(Slash, body)..];
      LitThen("\"", b, inner);
    }
  }

  lemma TextIsRegex(t: string)
    ensures FirstRest(Rests(TEXT_TO_END, t), TextRest(t))
  {
    forall u ensures Rests(SLASHES_THEN_TWO_QUOTES, u) == TailRests(u) {
      TailIsRegex(u);
    }
    TextToEnd(SLASHES_THEN_TWO_QUOTES, t);
  }

  predicate Opened(s: string) {
    "\"" <= s && Run(Slash, s[1..]) > 0 && "\"" <= s[1 + Run(Slash, s[1..])..]
  }

  lemma EscapedByParts(s: string)
    ensures EscapedLength(s).Some? ==> EscapedLength(s).value <= |s|
    ensures Opened(s) ==>
      TextRest(s[1 + Run(Slash, s[1..])..][1..])
      == if EscapedLength(s).None? then None else Some(s[EscapedLength(s).value..])
    ensures !Opened(s) ==> EscapedLength(s) == None
  {
    if Opened(s) {
      var slashes := Run(Slash, s[1..]);
      var text := s[1 + slashes..][1..];
      var q := Run(NotQuote, text);
      if q + 2 <= |text| {
        assert text[q + 2..] == s[slashes + q + 4..];
      }
    }
  }

  lemma EscapedAround(text: Re, s: string)
    requires forall t :: FirstRest(Rests(text, t), TextRest(t))
    ensures var rests := Rests(Cat(Lit("\""), Cat(Many(Slash, 1), Cat(Lit("\""), text))), s);
            match EscapedLength(s)
            case Some(n) => n <= |s| && FirstRest(rests, Some(s[n..]))
            case None => rests == []
  {
    hide Rests, Run, TextRest, EscapedLength;
    SlashesBetweenQuotes(text, s);
    EscapedByParts(s);
    if Opened(s) {
      assert FirstRest(Rests(text, s[1 + Run(Slash, s[1..])..][1..]), TextRest(s[1 + Run(Slash, s[1..])..][1..]));
    }
  }

  lemma EscapedIsRegex(s: string)
    ensures match EscapedLength(s)
            case Some(n) => n <= |s| && FirstRest(Rests(ESCAPED, s), Some(s[n..]))
            case None => Rests(ESCAPED, s) == []
  {
    forall t ensures FirstRest(Rests(TEXT_TO_END, t), TextRest(t)) {
      TextIsRegex(t);
    }
    EscapedAround(TEXT_TO_END, s);
  }

  lemma QuotedIsRegex(s: string)
    ensures match QuotedLength(s)
            case Some(n) => n <= |s| && Rests(QUOTED, s) == [s[n..]]
            case None => Rests(QUOTED, s) == []
  {
    hide Rests, Run;
    LitThen("\"", Cat(Many(NotQuote, 0), Lit("\"")), s);
    if "\"" <= s {
      var body := s[1..];
      forall u: string | u != "" && Has(NotQuote, u[0]) ensures Rests(Lit("\""), u) == [] {
        LitStart("\"", u);
      }
      ManyCat(NotQuote, 0, Lit("\""), body);
      var q := Run(NotQuote, body);
      LitRests("\"", body[q..]);
      if 1 + q < |s| {
        assert body[q] == QUOTE;
        assert body[q..][1..] == s[q + 2..];
      }
    }
  }

  lemma ValueIsRegex(s: string)
    ensures Rests(VALUE, s) != [] <==> ValueLength(s) > 0
    ensures ValueLength(s) > 0 ==> Rests(VALUE, s)[0] == s[ValueLength(s)..]
  {
    EscapedIsRegex(s);
    QuotedIsRegex(s);
    ManyFirst(NotQuoteNotBlank, 1, s);
  }

  lemma AssignedRests(t: string)
    ensures Rests(ASSIGNED, t) == if "=" <= t then Rests(VALUE, t[1..]) else []
  {
    LitThen("=", VALUE, t);
  }

  lemma KeyRests(s: string)
    ensures Rests(KEY, s) == ManyRests(Word, 1, s)
  {
  }

  /** A key and a value pattern: the key is the whole run of word characters. */
  lemma KeyThen(binding: Re, value: Re, s: string)
    requires forall t :: Rests(binding, t) == if "=" <= t then Rests(value, t[1..]) else []
    ensures Through(Rests(KEY, s), binding)
         == var k := Run(Word, s);
            if k > 0 && "=" <= s[k..] && Rests(value, s[k + 1..]) != []
            then Some((s[k..], Rests(value, s[k + 1..])[0])) else None
  {
    hide Rests, Run, Through, ManyRests;
    KeyRests(s);
    forall u: string | u != "" && Has(Word, u[0]) ensures Rests(binding, u) == [] {
      assert u[0] != '=';
    }
    ThroughMany(Word, binding, s);
    var k := Run(Word, s);
    if k < |s| {
      assert s[k..][1..] == s[k + 1..];
    }
  }

  /** Scanning and leftmost-first matching find the same token at every place of every line. */
  lemma ScanIsRegex(s: string)
    ensures ScanToken(s) == RegexToken(s)
  {
    hide Run, ValueLength, Rests;
    forall t ensures Rests(ASSIGNED, t) == if "=" <= t then Rests(VALUE, t[1..]) else [] {
      AssignedRests(t);
    }
    KeyThen(ASSIGNED, VALUE, s);
    var k := Run(Word, s);
    if k > 0 && "=" <= s[k..] {
      var after := s[k + 1..];
      ValueIsRegex(after);
      LitRests("=", s[k..]);
      ThroughOne(after, VALUE);
      assert s[k..][1..] == after && Between(s, s[k..]) == s[..k];
    }
  }

  /** A repetition followed by a capture that cannot begin inside the class. */
  lemma {:induction false} ThroughMany(cls: Class, b: Re, s: string)
    requires forall t: string | t != "" && Has(cls, t[0]) :: Rests(b, t) == []
    ensures Through(ManyRests(cls, 1, s), b)
         == var rest := s[Run(cls, s)..];
            if 1 <= Run(cls, s) && Rests(b, rest) != [] then Some((rest, Rests(b, rest)[0])) else None
  {
    if s != "" && Has(cls, s[0]) {
      ThroughAny(cls, b, s[1..]);
      assert s[1..][Run(cls, s[1..])..] == s[Run(cls, s)..];
      assert ManyRests(cls, 1, s) == ManyRests(cls, 0, s[1..]);
    }
  }

  lemma {:induction false} ThroughAny(cls: Class, b: Re, s: string)
    requires forall t: string | t != "" && Has(cls, t[0]) :: Rests(b, t) == []
    ensures Through(ManyRests(cls, 0, s), b)
         == var rest := s[Run(cls, s)..];
            if Rests(b, rest) != [] then Some((rest, Rests(b, rest)[0])) else None
  {
    if s != "" && Has(cls, s[0]) {
      ThroughAny(cls, b, s[1..]);
      assert s[1..][Run(cls, s[1..])..] == s[Run(cls, s)..];
      ThroughAppend(ManyRests(cls, 0, s[1..]), [s], b);
    }
  }

  lemma {:induction false} ThroughAppend(xs: seq<string>, ys: seq<string>, b: Re)
    ensures Through(xs + ys, b) == if Through(xs, b).Some? then Through(xs, b) else Through(ys, b)
  {
    if xs == [] {
      assert xs + ys == ys;
    } else {
      ThroughAppend(xs[1..], ys, b);
      assert (xs + ys)[1..] == xs[1..] + ys;
    }
  }

  // ---------- all tokens of a line, and the map built from them ----------

  type Pair = (string, string)

  /** FindAllStringSubmatch: successive leftmost matches, none overlapping. */
  function FindAll(s: string): seq<Pair>
    decreases |s|
  {
    match ScanToken(s)
    case Some(t) => [(t.key, t.value)] + FindAll(t.rest)
    case None => if s == "" then [] else FindAll(s[1..])
  }

  /** A later pair overwrites an earlier one with the same key. */
  function Fill(m: map<string, string>, pairs: seq<Pair>): map<string, string>
    decreases |pairs|
  {
    if pairs == [] then m else Fill(m[pairs[0].0 := pairs[0].1], pairs[1..])
  }

  predicate LastPair(pairs: seq<Pair>, key: string, k: int) {
    0 <= k < |pairs| && pairs[k].0 == key && forall j | k < j < |pairs| :: pairs[j].0 != key
  }

  /** The value of the last pair with the key, or what was there before if no pair has it. */
  predicate Kept(m: map<string, string>, pairs: seq<Pair>, key: string, r: map<string, string>) {
    || (exists k :: 0 <= k < |pairs| && LastPair(pairs, key, k) && key in r && r[key] == pairs[k].1)
    || ((forall p | p in pairs :: p.0 != key) && (key in r <==> key in m) && (key in r ==> r[key] == m[key]))
  }

  lemma {:induction false} FillKeeps(m: map<string, string>, pairs: seq<Pair>, key: string)
    ensures Kept(m, pairs, key, Fill(m, pairs))
    decreases |pairs|
  {
    if pairs != [] {
      var rest, next := pairs[1..], m[pairs[0].0 := pairs[0].1];
      var r := Fill(next, rest);
      assert Fill(m, pairs) == r;
      FillKeeps(next, rest, key);
      hide Fill;
      if k :| 0 <= k < |rest| && LastPair(rest, key, k) && key in r && r[key] == rest[k].1 {
        assert forall j | k + 1 < j < |pairs| :: pairs[j] == rest[j - 1];
        assert LastPair(pairs, key, k + 1);
      } else {
        assert forall j | 0 < j < |pairs| :: pairs[j] == rest[j - 1] && pairs[j] in rest;
        if pairs[0].0 == key {
          assert LastPair(pairs, key, 0);
        }
      }
    }
  }

  /** Each key has the value of its last pair. */
  predicate LastValues(pairs: seq<Pair>, r: map<string, string>) {
    && (forall key | key in r :: exists k | 0 <= k < |pairs| :: LastPair(pairs, key, k) && r[key] == pairs[k].1)
    && forall p | p in pairs :: p.0 in r
  }

  lemma FillIsLast(pairs: seq<Pair>)
    ensures LastValues(pairs, Fill(map[], pairs))
  {
    var r := Fill(map[], pairs);
    forall key | key in r
      ensures exists k | 0 <= k < |pairs| :: LastPair(pairs, key, k) && r[key] == pairs[k].1
    {
      FillKeeps(map[], pairs, key);
    }
    forall p | p in pairs
      ensures p.0 in r
    {
      FillKeeps(map[], pairs, p.0);
    }
  }

  method ParseKeyValuePairs(line: string) returns (result: map<string, string>)
    ensures result == Fill(map[], FindAll(line))
    ensures LastValues(FindAll(line), result)
  {
    result := FillPairs(line);
    FillIsLast(FindAll(line));
  }

  method FillPairs(line: string) returns (result: map<string, string>)
    ensures result == Fill(map[], FindAll(line))
  {
    result := map[];
    var rest := line;
    var found := false;
    while rest != ""
      invariant Fill(result, FindAll(rest)) == Fill(map[], FindAll(line))
      decreases |rest|
    {
      var token := ScanToken(rest);
      match token {
        case Some(t) =>
          ghost var pairs := FindAll(rest);
          assert pairs[1..] == FindAll(t.rest);
          result := result[t.key := t.value];
          rest := t.rest;
        case None =>
          rest := rest[1..];
      }
    }
  }
}
