/** Strings: character classes, decimal numerals, substring search and splitting,
    as Go's strconv and strings packages define them on the texts this system handles. */
module Text {
  import opened Options

  const QUOTE: char := '\"'
  const SLASH: char := '\\'

  predicate IsDigit(c: char) { '0' <= c <= '9' }

  /** The class `\w`: ASCII letters, digits and the underscore. */
  predicate IsWord(c: char) { IsDigit(c) || 'a' <= c <= 'z' || 'A' <= c <= 'Z' || c == '_' }

  /** The class `\s`. */
  predicate IsBlank(c: char) { c == ' ' || c == '\t' || c == '\n' || c == '\r' || c as int == 12 }

  predicate AllDigits(s: string) { forall c | c in s :: IsDigit(c) }

  predicate AllWord(s: string) { forall c | c in s :: IsWord(c) }

  // ---------- decimal numerals ----------

  function DigitChar(d: nat): char
    requires d < 10
  {
    ('0' as int + d) as char
  }

  function DigitOf(c: char): nat
    requires IsDigit(c)
  {
    c as int - '0' as int
  }

  function Itoa(n: nat): string {
    if n < 10 then [DigitChar(n)] else Itoa(n / 10) + [DigitChar(n % 10)]
  }

  /** The number a digit string denotes; the empty string denotes 0. */
  function Numeral(s: string): nat
    requires AllDigits(s)
  {
    if s == "" then 0 else 10 * Numeral(s[..|s| - 1]) + DigitOf(s[|s| - 1])
  }

  lemma {:induction false} ItoaNumeral(n: nat)
    ensures Itoa(n) != "" && AllDigits(Itoa(n)) && Numeral(Itoa(n)) == n
  {
    if n >= 10 {
      ItoaNumeral(n / 10);
      assert Itoa(n)[..|Itoa(n)| - 1] == Itoa(n / 10);
    }
  }

  const INT64_LIMIT: int := 0x8000_0000_0000_0000

  function Signed(n: int): string {
    if n < 0 then "-" + Itoa(-n) else Itoa(n)
  }

  /** strconv.Atoi: an optional sign and at least one digit, within the int64 range. */
  function Atoi(s: string): Option<int> {
    var negative := s != "" && s[0] == '-';
    var digits := if s != "" && (s[0] == '-' || s[0] == '+') then s[1..] else s;
    if digits == "" || !AllDigits(digits) then None
    else
      var n: int := Numeral(digits) * if negative then -1 else 1;
      if -INT64_LIMIT <= n < INT64_LIMIT then Some(n) else None
  }

  lemma AtoiDigits(digits: string)
    requires AllDigits(digits) && digits != ""
    ensures Atoi(digits) == if Numeral(digits) < INT64_LIMIT then Some(Numeral(digits)) else None
  {
    assert digits[0] in digits;
    hide Numeral;
  }

  lemma AtoiMinus(digits: string)
    requires AllDigits(digits) && digits != ""
    ensures Atoi("-" + digits) == if Numeral(digits) <= INT64_LIMIT then Some(-(Numeral(digits) as int)) else None
  {
    assert ("-" + digits)[1..] == digits;
    hide Numeral, AllDigits;
  }

  lemma AtoiSigned(n: int)
    requires -INT64_LIMIT <= n < INT64_LIMIT
    ensures Atoi(Signed(n)) == Some(n)
  {
    hide Atoi, Itoa, AllDigits, Numeral;
    ItoaNumeral(if n < 0 then -n else n);
    if n < 0 {
      AtoiMinus(Itoa(-n));
    } else {
      AtoiDigits(Itoa(n));
    }
  }

  // ---------- prefixes, suffixes, substrings ----------

  predicate HasSuffix(s: string, suffix: string) {
    |suffix| <= |s| && s[|s| - |suffix|..] == suffix
  }

  function TrimSuffix(s: string, suffix: string): string {
    if HasSuffix(s, suffix) then s[..|s| - |suffix|] else s
  }

  lemma TrimAppended(s: string, suffix: string)
    ensures HasSuffix(s + suffix, suffix) && TrimSuffix(s + suffix, suffix) == s
  {
    assert (s + suffix)[|s|..] == suffix && (s + suffix)[..|s|] == s;
  }

  /** Two different last characters cannot end the same string. */
  lemma SuffixByLast(s: string, suffix: string)
    requires s != "" && suffix != "" && HasSuffix(s, suffix)
    ensures s[|s| - 1] == suffix[|suffix| - 1]
  {
    assert s[|s| - |suffix|..][|suffix| - 1] == suffix[|suffix| - 1];
  }

  predicate Contains(s: string, pat: string) {
    pat <= s || (s != "" && Contains(s[1..], pat))
  }

  /** A pattern without `sep` cannot straddle it. */
  lemma {:induction false} ContainsAround(a: string, sep: char, b: string, pat: string)
    requires pat != "" && sep !in pat
    ensures Contains(a + [sep] + b, pat) <==> Contains(a, pat) || Contains(b, pat)
  {
    var whole := a + [sep] + b;
    assert pat <= whole <==> pat <= a by {
      if |pat| > |a| {
        assert whole[|a|] == sep && pat[|a|] in pat;
      }
      if pat <= a {
        assert whole[..|pat|] == a[..|pat|];
      }
    }
    if a == "" {
      assert whole[1..] == b;
    } else {
      ContainsAround(a[1..], sep, b, pat);
      assert whole[1..] == a[1..] + [sep] + b;
    }
  }

  /** strings.Split on one character: never empty. */
  function Split(s: string, sep: char): (parts: seq<string>)
    ensures parts != []
  {
    if s == "" then [""]
    else if s[0] == sep then [""] + Split(s[1..], sep)
    else
      var rest := Split(s[1..], sep);
      [[s[0]] + rest[0]] + rest[1..]
  }

  function Join(parts: seq<string>, sep: char): string
    requires parts != []
  {
    if |parts| == 1 then parts[0] else parts[0] + [sep] + Join(parts[1..], sep)
  }

  lemma {:induction false} SplitFirst(head: string, sep: char, rest: string)
    requires sep !in head
    ensures Split(head + [sep] + rest, sep) == [head] + Split(rest, sep)
  {
    if head == "" {
      assert head + [sep] + rest == [sep] + rest;
    } else {
      assert head[0] in head && head == [head[0]] + head[1..];
      SplitFirst(head[1..], sep, rest);
      assert (head + [sep] + rest)[1..] == head[1..] + [sep] + rest;
    }
  }

  lemma {:induction false} SplitNone(s: string, sep: char)
    requires sep !in s
    ensures Split(s, sep) == [s]
  {
    if s != "" {
      assert s[0] in s && s == [s[0]] + s[1..];
      SplitNone(s[1..], sep);
    }
  }

  /** Splitting undoes joining, for parts that do not hold the separator. */
  lemma {:induction false} SplitJoin(parts: seq<string>, sep: char)
    requires parts != [] && forall p | p in parts :: sep !in p
    ensures Split(Join(parts, sep), sep) == parts
  {
    if |parts| == 1 {
      SplitNone(parts[0], sep);
    } else {
      SplitFirst(parts[0], sep, Join(parts[1..], sep));
      SplitJoin(parts[1..], sep);
    }
  }
}
