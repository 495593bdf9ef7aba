/** Log files as text: records as lines, and the line filter of processFile. */
module Lines {
  import opened Text
  import opened Durations
  import opened Slog

  // ---------- bufio.ScanLines ----------

  const NEWLINE: char := '\n'

  function DropReturn(line: string): string {
    if line != "" && line[|line| - 1] == '\r' then line[..|line| - 1] else line
  }

  function LineLength(s: string): (n: nat)
    ensures n <= |s| && NEWLINE !in s[..n] && (n < |s| ==> s[n] == NEWLINE)
  {
    if s == "" || s[0] == NEWLINE then 0
    else
      var n := 1 + LineLength(s[1..]);
      assert s[..n] == [s[0]] + s[1..][..n - 1];
      n
  }

  /** The lines of a file; a last line need not be terminated. */
  function ScanLines(s: string): seq<string>
    decreases |s|
  {
    if s == "" then []
    else
      var n := LineLength(s);
      [DropReturn(s[..n])] + if n == |s| then [] else ScanLines(s[n + 1..])
  }

  function FileText(lines: seq<string>): string {
    if lines == [] then "" else lines[0] + ([NEWLINE] + FileText(lines[1..]))
  }

  predicate ControlFree(s: string) { forall c | c in s :: !Control(c) }

  lemma {:induction false} LineLengthIs(line: string, rest: string)
    requires NEWLINE !in line
    ensures LineLength(line + ([NEWLINE] + rest)) == |line|
  {
    if line != "" {
      assert line[0] in line;
      LineLengthIs(line[1..], rest);
      assert (line + ([NEWLINE] + rest))[1..] == line[1..] + ([NEWLINE] + rest);
    } else {
      assert line + ([NEWLINE] + rest) == [NEWLINE] + rest;
    }
  }

  /** Lines without control characters are read back as they were written. */
  lemma {:induction false} LinesRoundTrip(lines: seq<string>)
    requires forall l | l in lines :: ControlFree(l)
    ensures ScanLines(FileText(lines)) == lines
  {
    hide LineLength;
    if lines != [] {
      var line, rest := lines[0], FileText(lines[1..]);
      assert line in lines && Control(NEWLINE) && Control('\r');
      LineLengthIs(line, rest);
      LinesRoundTrip(lines[1..]);
      var s := line + ([NEWLINE] + rest);
      assert s[..|line|] == line && s[|line| + 1..] == rest;
      if line != "" {
        assert line[|line| - 1] in line;
      }
    }
  }

  /** Whatever a line holds: it ends at the first newline, and one carriage return before that does
      not belong to it; the rest of a file without a newline is its last line. */
  lemma LineRead(line: string, rest: string)
    requires NEWLINE !in line
    ensures ScanLines(line + "\r\n" + rest) == [line] + ScanLines(rest)
    ensures (line == "" || line[|line| - 1] != '\r') ==> ScanLines(line + "\n" + rest) == [line] + ScanLines(rest)
    ensures line != "" && line[|line| - 1] != '\r' ==> ScanLines(line) == [line]
  {
    hide ScanLines;
    var returned := line + "\r";
    assert returned + ([NEWLINE] + rest) == line + "\r\n" + rest && returned[..|returned| - 1] == line;
    CutLine(returned, rest);
    assert line + ([NEWLINE] + rest) == line + "\n" + rest;
    CutLine(line, rest);
    LastLine(line);
  }

  lemma LastLine(line: string)
    requires NEWLINE !in line
    ensures line != "" ==> ScanLines(line) == [DropReturn(line)]
  {
    assert LineLength(line) == |line|;
    hide LineLength;
    assert line[..|line|] == line;
  }

  lemma CutLine(line: string, rest: string)
    requires NEWLINE !in line
    ensures ScanLines(line + ([NEWLINE] + rest)) == [DropReturn(line)] + ScanLines(rest)
  {
    LineLengthIs(line, rest);
    hide LineLength;
    var s := line + ([NEWLINE] + rest);
    assert s[..|line|] == line && s[|line| + 1..] == rest;
    if rest == "" {
      assert |line| + 1 == |s|;
    }
  }

  // ---------- rendered records are lines ----------

  lemma {:induction false} EscapeControlFree(s: string)
    ensures ControlFree(Escape(s))
  {
    if s != "" {
      EscapeControlFree(s[1..]);
      EscapedControlFree(s[0]);
    }
  }

  lemma EscapedControlFree(c: char)
    ensures ControlFree(EscapeChar(c))
  {
  }

  lemma ValueControlFree(v: Value)
    ensures ControlFree(ValueText(v))
  {
    hide Escape, MagnitudeText, Itoa;
    match v {
      case Str(s) => EscapeControlFree(s);
      case Dur(ns) => DurationChars(ns);
      case Num(n) => ItoaNumeral(if n < 0 then -n else n);
    }
  }

  /** However hostile its texts, a record is one line. */
  lemma {:induction false} RecordIsLine(r: Record)
    requires WordKeys(r)
    ensures ControlFree(Render(r))
  {
    hide ValueText;
    if r != [] {
      assert r[0] in r && forall b | b in r[1..] :: b in r;
      ValueControlFree(r[0].value);
      RecordIsLine(r[1..]);
    }
  }

  // ---------- the filter ----------

  /** strings.Contains(line, "msg=" + word) on one attribute. */
  predicate Mentions(a: Attr, word: string) {
    || (HasSuffix(a.key, "msg") && word <= ValueText(a.value))
    || Contains(ValueText(a.value), "msg=" + word)
  }

  /** Word characters, then `=` and a text: the pattern starts in the word only as its suffix. */
  lemma {:induction false} ContainsAfterKey(key: string, text: string, word: string)
    requires AllWord(key)
    ensures Contains(key + ("=" + text), "msg=" + word)
      <==> (HasSuffix(key, "msg") && word <= text) || Contains(text, "msg=" + word)
  {
    hide Contains;
    var pat := "msg=" + word;
    var s := key + ("=" + text);
    ContainsUnfold(s, pat);
    ContainsUnfold("=" + text, pat);
    PrefixAtKey(key, text, word);
    if key == "" {
      assert s == "=" + text && s[1..] == text;
    } else {
      assert key[0] in key && s[1..] == key[1..] + ("=" + text);
      ContainsAfterKey(key[1..], text, word);
      SuffixOfTail(key, "msg");
    }
  }

  lemma ContainsUnfold(s: string, pat: string)
    ensures Contains(s, pat) <==> pat <= s || (s != "" && Contains(s[1..], pat))
  {
  }

  lemma SuffixOfTail(key: string, suffix: string)
    requires key != ""
    ensures HasSuffix(key, suffix) <==> key == suffix || HasSuffix(key[1..], suffix)
  {
    if |suffix| < |key| {
      assert key[|key| - |suffix|..] == key[1..][|key[1..]| - |suffix|..];
    }
  }

  lemma PrefixAtKey(key: string, text: string, word: string)
    requires AllWord(key)
    ensures "msg=" + word <= key + ("=" + text) <==> key == "msg" && word <= text
  {
    var s := key + ("=" + text);
    var pat := "msg=" + word;
    assert pat[3] == '=' && s[|key|] == '=';
    assert forall i | 0 <= i < |key| :: s[i] == key[i] && key[i] in key;
    if pat <= s {
      assert forall i | 0 <= i < |pat| :: pat[i] == s[i];
      assert |key| <= 3;
      assert forall i | 0 <= i < 3 :: pat[i] != '=';
      assert |key| == 3;
      assert key == "msg";
      assert s[4..] == text && pat[4..] == word && pat[4..] <= s[4..];
    }
    if key == "msg" && word <= text {
      assert s == "msg=" + text;
    }
  }

  /** A line is selected for a word exactly when one of its attributes mentions it. */
  lemma {:induction false} FilterExact(r: Record, word: string)
    requires WordKeys(r) && AllWord(word)
    ensures Contains(Render(r), "msg=" + word) <==> exists a :: a in r && Mentions(a, word)
  {
    hide ValueText, Contains, HasSuffix;
    var pat := "msg=" + word;
    if r == [] {
      ContainsUnfold("", pat);
    } else {
      var a, more := r[0], r[1..];
      assert r == [a] + more && a in r && forall b | b in more :: b in r;
      ContainsAfterKey(a.key, ValueText(a.value), word);
      assert Contains(AttrText(a), pat) <==> Mentions(a, word);
      if more != [] {
        FilterExact(more, word);
        assert ' ' !in pat;
        ContainsAround(AttrText(a), ' ', Render(more), pat);
        assert Render(r) == AttrText(a) + [' '] + Render(more);
      }
    }
  }
}
