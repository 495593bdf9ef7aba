/** The regular expressions of the log parser, as data, with the leftmost-first meaning of Go's
    regexp package: `Rests` lists, in order of preference, what each way of matching at the
    front of a text leaves over. */
module Regex {
  import opened Options
  import opened Text

  datatype Class = Word | Digit | Slash | NotQuote | NotQuoteNotBlank

  predicate Has(cls: Class, c: char) {
    match cls
    case Word => IsWord(c)
    case Digit => IsDigit(c)
    case Slash => c == SLASH
    case NotQuote => c != QUOTE
    case NotQuoteNotBlank => c != QUOTE && !IsBlank(c)
  }

  datatype Re =
    | Lit(text: string)
    | Many(cls: Class, min: nat)      // greedy repetition
    | Cat(first: Re, second: Re)
    | Alt(first: Re, second: Re)      // the first alternative is preferred

  function Rests(re: Re, s: string): seq<string>
    decreases re, 0
  {
    match re
    case Lit(text) => if text <= s then [s[|text|..]] else []
    case Many(cls, min) => ManyRests(cls, min, s)
    case Cat(a, b) => RestsOfAll(b, Rests(a, s))
    case Alt(a, b) => Rests(a, s) + Rests(b, s)
  }

  function ManyRests(cls: Class, min: nat, s: string): seq<string> {
    var stop := if min == 0 then [s] else [];
    if s != "" && Has(cls, s[0]) then
      ManyRests(cls, if min == 0 then 0 else min - 1, s[1..]) + stop
    else
      stop
  }

  function RestsOfAll(re: Re, starts: seq<string>): seq<string>
    decreases re, 1, |starts|
  {
    if starts == [] then [] else Rests(re, starts[0]) + RestsOfAll(re, starts[1..])
  }

  /** A match of `before` followed by a match of `captured`: the two rests, by preference. */
  function Through(starts: seq<string>, captured: Re): Option<(string, string)> {
    if starts == [] then None
    else if Rests(captured, starts[0]) != [] then Some((starts[0], Rests(captured, starts[0])[0]))
    else Through(starts[1..], captured)
  }

  /** The text between two positions, the second inside the first. */
  function Between(from: string, to: string): string {
    if |to| <= |from| then from[..|from| - |to|] else ""
  }

  /** The first submatch of `before(captured)` at the leftmost place it matches. */
  function FindSubmatch(before: Re, captured: Re, s: string): Option<string>
    decreases |s|
  {
    match Through(Rests(before, s), captured)
    case Some((from, to)) => Some(Between(from, to))
    case None => if s == "" then None else FindSubmatch(before, captured, s[1..])
  }

  // ---------- maximal runs ----------

  /** The length of the longest prefix made of characters of the class. */
  function Run(cls: Class, s: string): (n: nat)
    ensures n <= |s|
    ensures forall i | 0 <= i < n :: Has(cls, s[i])
    ensures n < |s| ==> !Has(cls, s[n])
  {
    if s != "" && Has(cls, s[0]) then 1 + Run(cls, s[1..]) else 0
  }

  lemma {:induction false} RunUnique(cls: Class, s: string, n: nat)
    requires n <= |s| && (forall i | 0 <= i < n :: Has(cls, s[i])) && (n < |s| ==> !Has(cls, s[n]))
    ensures Run(cls, s) == n
  {
    if n > 0 {
      assert forall i | 0 <= i < n - 1 :: s[1..][i] == s[i + 1];
      RunUnique(cls, s[1..], n - 1);
    }
  }

  /** A text of the class, then anything that does not continue it. */
  lemma RunAppend(cls: Class, x: string, y: string)
    requires (forall c | c in x :: Has(cls, c)) && (y == "" || !Has(cls, y[0]))
    ensures Run(cls, x + y) == |x|
  {
    forall i | 0 <= i < |x| ensures Has(cls, (x + y)[i]) {
      assert x[i] in x;
    }
    RunUnique(cls, x + y, |x|);
  }

  /** Greedy repetition prefers the maximal run. */
  lemma {:induction false} ManyFirst(cls: Class, min: nat, s: string)
    ensures ManyRests(cls, min, s) != [] <==> min <= Run(cls, s)
    ensures min <= Run(cls, s) ==> ManyRests(cls, min, s)[0] == s[Run(cls, s)..]
  {
    if s != "" && Has(cls, s[0]) {
      ManyFirst(cls, if min == 0 then 0 else min - 1, s[1..]);
      assert s[1..][Run(cls, s[1..])..] == s[Run(cls, s)..];
    }
  }

  lemma {:induction false} RestsOfAllAppend(re: Re, xs: seq<string>, ys: seq<string>)
    ensures RestsOfAll(re, xs + ys) == RestsOfAll(re, xs) + RestsOfAll(re, ys)
  {
    if xs == [] {
      assert xs + ys == ys;
    } else {
      RestsOfAllAppend(re, xs[1..], ys);
      assert (xs + ys)[1..] == xs[1..] + ys && (xs + ys)[0] == xs[0];
      var a, b, c := Rests(re, xs[0]), RestsOfAll(re, xs[1..]), RestsOfAll(re, ys);
      assert a + (b + c) == (a + b) + c;
    }
  }

  lemma LitRests(text: string, s: string)
    ensures Rests(Lit(text), s) == if text <= s then [s[|text|..]] else []
  {
  }

  lemma ManyCat(cls: Class, min: nat, b: Re, s: string)
    requires forall t: string | t != "" && Has(cls, t[0]) :: Rests(b, t) == []
    ensures Rests(Cat(Many(cls, min), b), s) == if min <= Run(cls, s) then Rests(b, s[Run(cls, s)..]) else []
  {
    ManyThen(cls, min, b, s);
  }

  lemma ThroughOne(t: string, re: Re)
    ensures Through([t], re) == if Rests(re, t) != [] then Some((t, Rests(re, t)[0])) else None
  {
  }

  lemma LitThen(text: string, b: Re, s: string)
    ensures Rests(Cat(Lit(text), b), s) == if text <= s then Rests(b, s[|text|..]) else []
  {
    if text <= s {
      var after := s[|text|..];
      assert Rests(Lit(text), s) == [after];
      assert RestsOfAll(b, [after]) == Rests(b, after) + RestsOfAll(b, []);
    }
  }

  lemma ManyStep(cls: Class, min: nat, s: string)
    requires s != "" && Has(cls, s[0])
    ensures ManyRests(cls, min, s) == ManyRests(cls, if min == 0 then 0 else min - 1, s[1..]) + if min == 0 then [s] else []
    ensures Run(cls, s) == 1 + Run(cls, s[1..]) && s[Run(cls, s)..] == s[1..][Run(cls, s[1..])..]
  {
  }

  lemma StopRests(b: Re, min: nat, s: string)
    ensures RestsOfAll(b, if min == 0 then [s] else []) == if min == 0 then Rests(b, s) else []
  {
    if min == 0 {
      assert [s][1..] == [];
    }
  }

  /** When what follows cannot begin inside the class, only the maximal run survives. */
  lemma {:induction false} ManyThen(cls: Class, min: nat, b: Re, s: string)
    requires forall t: string | t != "" && Has(cls, t[0]) :: Rests(b, t) == []
    ensures RestsOfAll(b, ManyRests(cls, min, s))
         == if min <= Run(cls, s) then Rests(b, s[Run(cls, s)..]) else []
  {
    hide Rests, Has;
    StopRests(b, min, s);
    if s != "" && Has(cls, s[0]) {
      var before := if min == 0 then 0 else min - 1;
      ManyStep(cls, min, s);
      ManyThen(cls, before, b, s[1..]);
      RestsOfAllAppend(b, ManyRests(cls, before, s[1..]), if min == 0 then [s] else []);
      hide RestsOfAll, ManyRests, Run;
      assert Rests(b, s) == [];
    }
  }

  /** The captured run of `tag(class+)` is the maximal run of the class after the tag. */
  lemma {:induction false} LabelSubmatch(tag: string, cls: Class, s: string)
    ensures FindSubmatch(Lit(tag), Many(cls, 1), s) == FindAfter(tag, cls, s)
  {
    hide Run, Rests;
    LitRests(tag, s);
    if tag <= s {
      var after := s[|tag|..];
      ManyFirst(cls, 1, after);
      RepeatRests(cls, 1, after);
      ThroughOne(after, Many(cls, 1));
    }
    if s != "" {
      LabelSubmatch(tag, cls, s[1..]);
    }
  }

  lemma RepeatRests(cls: Class, min: nat, s: string)
    ensures Rests(Many(cls, min), s) == ManyRests(cls, min, s)
  {
  }

  /** The scanner for `tag(class+)`. */
  function FindAfter(tag: string, cls: Class, s: string): Option<string> {
    if tag <= s && Run(cls, s[|tag|..]) > 0 then Some(s[|tag|..][..Run(cls, s[|tag|..])])
    else if s == "" then None
    else FindAfter(tag, cls, s[1..])
  }
}
