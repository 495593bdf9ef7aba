/** Go duration texts: how the logger prints a time.Duration and how cmd/logparser/main.go
    reads it back as milliseconds. */
module Durations {
  import opened Options
  import opened Text

  const MICRO: int := 1_000
  const MILLI: int := 1_000_000
  const SECOND: int := 1_000_000_000
  const MINUTE: int := 60 * SECOND
  const HOUR: int := 3600 * SECOND

  predicate InRange(d: int) { -INT64_LIMIT <= d < INT64_LIMIT }

  // ---------- printing: time.Duration.String ----------

  function Pow10(n: nat): (p: nat)
    ensures p > 0
  {
    if n == 0 then 1 else 10 * Pow10(n - 1)
  }

  function Div(a: nat, b: nat): (q: nat)
    requires b > 0
  {
    a / b
  }

  function Mod(a: nat, b: nat): (r: nat)
    requires b > 0
    ensures r < b
  {
    a % b
  }

  /** The low `prec` decimal digits of `v`, trailing zeros dropped. */
  function FractionDigits(v: nat, prec: nat, started: bool): string
    decreases prec
  {
    if prec == 0 then ""
    else
      var show := started || v % 10 != 0;
      FractionDigits(v / 10, prec - 1, show) + if show then [DigitChar(v % 10)] else ""
  }

  /** `v` counted in units of 10^prec, with its fraction. */
  function Decimal(v: nat, prec: nat): string {
    var digits := FractionDigits(Mod(v, Pow10(prec)), prec, false);
    Itoa(Div(v, Pow10(prec))) + if digits == "" then "" else "." + digits
  }

  function MinutesText(u: nat): string {
    Itoa(Div(u, MINUTE)) + ("m" + (Decimal(Mod(u, MINUTE), 9) + "s"))
  }

  function MagnitudeText(u: nat): string {
    if u == 0 then "0s"
    else if u < MICRO then Itoa(u) + "ns"
    else if u < MILLI then Decimal(u, 3) + "\U{B5}s"
    else if u < SECOND then Decimal(u, 6) + "ms"
    else if u < MINUTE then Decimal(u, 9) + "s"
    else if u < HOUR then MinutesText(u)
    else Itoa(Div(u, HOUR)) + ("h" + MinutesText(Mod(u, HOUR)))
  }

  function DurationText(d: int): string {
    if d < 0 then "-" + MagnitudeText(-d) else MagnitudeText(d)
  }

  // ---------- parsing: time.ParseDuration ----------

  const UNITS: map<string, int> :=
    map["ns" := 1, "us" := MICRO, "\U{B5}s" := MICRO, "\U{3BC}s" := MICRO,
        "ms" := MILLI, "s" := SECOND, "m" := MINUTE, "h" := HOUR]

  function DigitRun(s: string): (n: nat)
    ensures n <= |s| && AllDigits(s[..n])
    ensures n < |s| ==> !IsDigit(s[n])
  {
    if s != "" && IsDigit(s[0]) then
      var n := 1 + DigitRun(s[1..]);
      assert s[..n] == [s[0]] + s[1..][..n - 1];
      n
    else 0
  }

  predicate NumberChar(c: char) { c == '.' || IsDigit(c) }

  function UnitRun(s: string): (n: nat)
    ensures n <= |s|
  {
    if s != "" && !NumberChar(s[0]) then 1 + UnitRun(s[1..]) else 0
  }

  /** The digits after a point: value and scale, further digits being ignored on overflow. */
  function LeadingFraction(digits: string): (r: (nat, nat))
    requires AllDigits(digits)
    ensures r.1 > 0
  {
    if digits == "" then (0, 1)
    else
      var (x, scale) := LeadingFraction(digits[..|digits| - 1]);
      if x > (INT64_LIMIT - 1) / 10 || scale < Pow10(|digits| - 1) then (x, scale)
      else
        var y := 10 * x + DigitOf(digits[|digits| - 1]);
        if y > INT64_LIMIT then (x, scale) else (y, 10 * scale)
  }

  datatype Number = Number(whole: string, fraction: string, rest: string)

  /** The digits before and after the point at the front of `s`. */
  function SplitNumber(s: string): (n: Number)
    ensures AllDigits(n.whole) && AllDigits(n.fraction)
    ensures |n.whole| + |n.fraction| + |n.rest| <= |s|
  {
    var n := DigitRun(s);
    var after := s[n..];
    if "." <= after then
      var m := DigitRun(after[1..]);
      Number(s[..n], after[1..][..m], after[1..][m..])
    else
      Number(s[..n], "", after)
  }

  /** The nanoseconds of one number, the fraction taken exactly; where Go computes it in floating
      point the two agree for printed texts. */
  function Amount(whole: string, fraction: string, unit: int): Option<nat>
    requires AllDigits(whole) && AllDigits(fraction) && unit > 0
  {
    var w := Numeral(whole);
    var (f, scale) := LeadingFraction(fraction);
    if w > Div(INT64_LIMIT, unit) then None
    else
      var v: nat := w * unit + Div(f * unit, scale);
      if v > INT64_LIMIT then None else Some(v)
  }

  /** One number with its unit at the front of `s`: nanoseconds and what follows. */
  function Segment(s: string, units: map<string, int>): (r: Option<(nat, string)>)
    requires forall u | u in units :: units[u] > 0
    ensures r.Some? ==> |r.value.1| < |s|
  {
    var n := SplitNumber(s);
    var u := UnitRun(n.rest);
    if (n.whole == "" && n.fraction == "") || u == 0 || n.rest[..u] !in units then None
    else
      match Amount(n.whole, n.fraction, units[n.rest[..u]])
      case None => None
      case Some(v) => Some((v, n.rest[u..]))
  }

  function Segments(s: string, total: nat, units: map<string, int>): Option<nat>
    requires forall u | u in units :: units[u] > 0
    decreases |s|
  {
    if s == "" then Some(total)
    else
      match Segment(s, units)
      case None => None
      case Some((v, rest)) =>
        if total + v > INT64_LIMIT then None else Segments(rest, total + v, units)
  }

  function ParseGoDuration(s: string): Option<int> {
    var negative := s != "" && s[0] == '-';
    var body := if s != "" && (s[0] == '-' || s[0] == '+') then s[1..] else s;
    if body == "0" then Some(0)
    else if body == "" then None
    else
      match Segments(body, 0, UNITS)
      case None => None
      case Some(d) =>
        var n: int := d;
        if negative then Some(-n) else if n >= INT64_LIMIT then None else Some(n)
  }

  /** Duration.Milliseconds: Go's integer division truncates toward zero. */
  function Milliseconds(d: int): int {
    if d < 0 then -(-d / MILLI) else d / MILLI
  }

  /** parseDuration of the log parser: a text that is not a duration counts as 0. */
  function ParseDuration(s: string): int {
    match ParseGoDuration(s)
    case None => 0
    case Some(d) => Milliseconds(d)
  }

  // ---------- the digits after the point ----------

  lemma {:induction false} FractionZero(prec: nat)
    ensures FractionDigits(0, prec, false) == ""
  {
    if prec > 0 { FractionZero(prec - 1); }
  }

  lemma MinutesShown(u: nat, m: nat, s: nat)
    requires u == m * MINUTE + s * SECOND && s < 60
    ensures MinutesText(u) == Itoa(m) + ("m" + (Itoa(s) + "s"))
  {
    ThousandPowers();
    WholeDecimal(s, 9, SECOND);
    Parts(m, s * SECOND, MINUTE);
    hide Itoa, Decimal, Div, Mod;
  }

  lemma ShownBySize(u: nat)
    ensures u >= HOUR ==> DurationText(u) == Itoa(Div(u, HOUR)) + ("h" + MinutesText(Mod(u, HOUR)))
    ensures MINUTE <= u < HOUR ==> DurationText(u) == MinutesText(u)
    ensures SECOND <= u < MINUTE ==> DurationText(u) == Decimal(u, 9) + "s"
  {
    hide Itoa, Decimal, Div, Mod, MinutesText;
  }

  /** Whole seconds are shown with their hours and minutes. */
  lemma WholeShown(u: nat, h: nat, m: nat, s: nat)
    requires u == (3600 * h + 60 * m + s) * 1_000_000_000 && m < 60 && s < 60
    ensures h > 0 ==> DurationText(u) == Itoa(h) + ("h" + (Itoa(m) + ("m" + (Itoa(s) + "s"))))
    ensures h == 0 && m > 0 ==> DurationText(u) == Itoa(m) + ("m" + (Itoa(s) + "s"))
    ensures h == 0 && m == 0 && s > 0 ==> DurationText(u) == Itoa(s) + "s"
  {
    hide DurationText, Itoa, Decimal, Div, Mod, MinutesText, Pow10;
    var rest := m * MINUTE + s * SECOND;
    assert u == h * HOUR + rest && rest < HOUR;
    ShownBySize(u);
    MinutesShown(rest, m, s);
    ThousandPowers();
    WholeDecimal(s, 9, SECOND);
    Parts(h, rest, HOUR);
  }

  /** Below a second whole milli-, micro- and nanoseconds are. */
  lemma ThousandsShown(n: nat)
    requires 0 < n < 1000
    ensures DurationText(n * 1_000_000) == Itoa(n) + "ms"
    ensures DurationText(n * 1_000) == Itoa(n) + "\U{B5}s" && DurationText(n) == Itoa(n) + "ns"
  {
    ThousandPowers();
    WholeDecimal(n, 6, MILLI);
    WholeDecimal(n, 3, MICRO);
    hide Itoa, Decimal, Div, Mod, MinutesText;
  }

  lemma WholeDecimal(n: nat, prec: nat, unit: nat)
    requires unit == Pow10(prec)
    ensures Decimal(n * unit, prec) == Itoa(n)
  {
    Parts(n, 0, unit);
    FractionZero(prec);
    hide Pow10, Itoa, FractionDigits, Div, Mod;
  }

  lemma ThousandPowers()
    ensures Pow10(3) == 1_000 && Pow10(6) == 1_000_000 && Pow10(9) == 1_000_000_000
  {
    assert Pow10(6) == 1_000 * Pow10(3);
    assert Pow10(9) == 1_000 * Pow10(6);
  }

  lemma Parts(q: nat, r: nat, unit: nat)
    requires unit > 0 && r < unit
    ensures Div(q * unit + r, unit) == q && Mod(q * unit + r, unit) == r
  {
    var x := q * unit + r;
    assert x == (x / unit) * unit + x % unit;
    assert (x / unit - q) * unit == r - x % unit;
    Vanishes(x / unit - q, unit);
  }

  lemma Vanishes(d: int, unit: int)
    requires -unit < d * unit < unit
    ensures d == 0
  {
    assert d >= 1 ==> (d - 1) * unit >= 0;
    assert d <= -1 ==> (-d - 1) * unit >= 0;
  }

  lemma {:induction false} FractionStarted(v: nat, prec: nat)
    requires v < Pow10(prec)
    ensures var t := FractionDigits(v, prec, true);
            |t| == prec && AllDigits(t) && Numeral(t) == v
  {
    if prec > 0 {
      FractionStarted(v / 10, prec - 1);
      var t := FractionDigits(v, prec, true);
      assert t[..|t| - 1] == FractionDigits(v / 10, prec - 1, true);
    }
  }

  /** The digits printed, read as a fraction, are exactly `v` over 10^prec. */
  lemma {:induction false} FractionExact(v: nat, prec: nat)
    requires v < Pow10(prec)
    ensures var t := FractionDigits(v, prec, false);
            |t| <= prec && AllDigits(t) && Numeral(t) * Pow10(prec - |t|) == v && Numeral(t) <= v
    ensures v > 0 ==> FractionDigits(v, prec, false) != ""
  {
    if prec > 0 {
      var t := FractionDigits(v, prec, false);
      if v % 10 != 0 {
        FractionStarted(v / 10, prec - 1);
        assert t[..|t| - 1] == FractionDigits(v / 10, prec - 1, true);
      } else {
        FractionExact(v / 10, prec - 1);
        assert t == FractionDigits(v / 10, prec - 1, false);
        Scale10(Numeral(t), prec - 1 - |t|);
      }
    }
  }

  lemma Scale10(n: nat, k: nat)
    ensures n * Pow10(k + 1) == 10 * (n * Pow10(k))
  {
  }

  lemma {:induction false} Pow10Split(a: nat, b: nat)
    ensures Pow10(a + b) == Pow10(a) * Pow10(b)
  {
    if a > 0 {
      Pow10Split(a - 1, b);
    }
  }

  /** Up to nine digits never overflow the fraction reader. */
  lemma {:induction false} LeadingFractionSmall(digits: string)
    requires AllDigits(digits) && |digits| <= 9
    ensures LeadingFraction(digits) == (Numeral(digits), Pow10(|digits|))
    ensures Numeral(digits) < Pow10(|digits|) <= SECOND
  {
    if digits != "" {
      LeadingFractionSmall(digits[..|digits| - 1]);
      Pow10Nine(|digits|);
      assert digits[|digits| - 1] in digits;
    }
  }

  lemma Pow10Nine(n: nat)
    requires n <= 9
    ensures Pow10(n) <= SECOND
    ensures Pow10(3) == MICRO && Pow10(6) == MILLI && Pow10(9) == SECOND
  {
    assert Pow10(3) == 1000;
    assert Pow10(6) == 1000 * Pow10(3) by { Pow10Split(3, 3); }
    assert Pow10(9) == 1000 * Pow10(6) by { Pow10Split(3, 6); }
    Pow10Split(n, 9 - n);
    assert Pow10(n) <= Pow10(n) * Pow10(9 - n);
  }

  // ---------- one printed segment ----------

  lemma {:induction false} DigitRunIs(digits: string, rest: string)
    requires AllDigits(digits) && (rest == "" || !IsDigit(rest[0]))
    ensures DigitRun(digits + rest) == |digits|
  {
    if digits == "" {
      assert digits + rest == rest;
    } else {
      assert digits[0] in digits;
      DigitRunIs(digits[1..], rest);
      assert (digits + rest)[1..] == digits[1..] + rest;
    }
  }

  lemma {:induction false} UnitRunIs(unit: string, rest: string)
    requires (forall c | c in unit :: !NumberChar(c)) && (rest == "" || NumberChar(rest[0]))
    ensures UnitRun(unit + rest) == |unit|
  {
    if unit == "" {
      assert unit + rest == rest;
    } else {
      assert unit[0] in unit;
      UnitRunIs(unit[1..], rest);
      assert (unit + rest)[1..] == unit[1..] + rest;
    }
  }

  lemma SplitWhole(digits: string, rest: string)
    requires AllDigits(digits) && (rest == "" || !NumberChar(rest[0]))
    ensures SplitNumber(digits + rest) == Number(digits, "", rest)
  {
    DigitRunIs(digits, rest);
    assert (digits + rest)[|digits|..] == rest && (digits + rest)[..|digits|] == digits;
  }

  /** With the digits in front of a point known, and those behind it. */
  lemma SplitAt(s: string, n: nat, m: nat)
    requires DigitRun(s) == n && "." <= s[n..] && DigitRun(s[n..][1..]) == m
    ensures SplitNumber(s) == Number(s[..n], s[n..][1..][..m], s[n..][1..][m..])
  {
  }

  lemma SplitDecimal(digits: string, fraction: string, rest: string)
    requires AllDigits(digits) && AllDigits(fraction) && (rest == "" || !NumberChar(rest[0]))
    ensures SplitNumber(digits + "." + fraction + rest) == Number(digits, fraction, rest)
  {
    hide SplitNumber, DigitRun, AllDigits;
    var tail := fraction + rest;
    var after := "." + tail;
    var s := digits + after;
    assert s == digits + "." + fraction + rest;
    DigitRunIs(digits, after);
    DigitRunIs(fraction, rest);
    assert s[|digits|..] == after && s[..|digits|] == digits && after[1..] == tail;
    assert tail[|fraction|..] == rest && tail[..|fraction|] == fraction;
    SplitAt(s, |digits|, |fraction|);
  }

  predicate UnitText(unit: string) { unit != "" && forall c | c in unit :: !NumberChar(c) }

  /** A segment from its parts. */
  lemma SegmentIs(s: string, n: Number, unit: string, rest: string, v: nat, units: map<string, int>)
    requires forall u | u in units :: units[u] > 0
    requires SplitNumber(s) == n && n.whole != "" && n.rest == unit + rest
    requires UnitText(unit) && unit in units && (rest == "" || NumberChar(rest[0]))
    requires Amount(n.whole, n.fraction, units[unit]) == Some(v)
    ensures Segment(s, units) == Some((v, rest))
  {
    UnitRunIs(unit, rest);
    assert (unit + rest)[..|unit|] == unit && (unit + rest)[|unit|..] == rest;
  }

  /** Of two multiples the smaller has the smaller factor. */
  lemma Factors(a: int, b: int, x: int)
    requires x > 0 && a * x < b * x
    ensures a < b
  {
    assert b <= a ==> (a - b) * x >= 0;
  }

  lemma Quotient(v: nat, unit: nat, limit: nat)
    requires unit > 0 && v * unit <= limit
    ensures v <= Div(limit, unit)
  {
    var q := limit / unit;
    assert (q + 1) * unit == q * unit + unit;
    Factors(v, q + 1, unit);
  }

  lemma ExactDivision(n: nat, b: nat)
    requires b > 0
    ensures Div(n * b, b) == n
  {
    var q, r := n * b / b, n * b % b;
    assert n * b == q * b + r;
    assert (q + 1) * b == q * b + b && (n + 1) * b == n * b + b;
    Factors(n, q + 1, b);
    Factors(q, n + 1, b);
  }

  lemma WholeAmount(v: nat, unit: nat)
    requires unit > 0 && v * unit <= INT64_LIMIT
    ensures AllDigits(Itoa(v)) && Amount(Itoa(v), "", unit) == Some(v * unit)
  {
    ItoaNumeral(v);
    assert LeadingFraction("") == (0, 1);
    assert Div(0 * unit, 1) == 0;
    hide Itoa, Numeral, LeadingFraction, Div;
    Quotient(v, unit, INT64_LIMIT);
  }

  /** A number of whole units. */
  lemma WholeSegment(v: nat, unit: string, rest: string, units: map<string, int>)
    requires forall u | u in units :: units[u] > 0
    requires unit in units && UnitText(unit) && v * units[unit] <= INT64_LIMIT
    requires rest == "" || IsDigit(rest[0])
    ensures Segment(Itoa(v) + (unit + rest), units) == Some((v * units[unit], rest))
  {
    ItoaNumeral(v);
    assert unit[0] in unit && (unit + rest)[0] == unit[0];
    WholeAmount(v, units[unit]);
    hide Itoa, Numeral, Amount, Segment, SplitNumber;
    SplitWhole(Itoa(v), unit + rest);
    SegmentIs(Itoa(v) + (unit + rest), Number(Itoa(v), "", unit + rest), unit, rest, v * units[unit], units);
  }

  /** A quotient and a remainder given as a fraction make up the number again. */
  lemma DecimalValue(v: nat, p: nat, n: nat, a: nat, k: nat)
    requires k > 0 && p > 0 && p == k * a && n * a == Mod(v, p)
    ensures Div(v, p) * p + Div(n * p, k) == v
  {
    assert n * p == (n * a) * k;
    ExactDivision(n * a, k);
  }

  /** The value of a printed decimal. */
  lemma DecimalAmount(v: nat, prec: nat, p: nat, digits: string)
    requires prec <= 9 && v <= INT64_LIMIT && p == Pow10(prec)
    requires digits == FractionDigits(Mod(v, p), prec, false) && AllDigits(digits)
    ensures AllDigits(Itoa(Div(v, p))) && Amount(Itoa(Div(v, p)), digits, p) == Some(v)
  {
    hide Pow10, Itoa, FractionDigits, LeadingFraction, Numeral, Div;
    FractionExact(Mod(v, p), prec);
    ItoaNumeral(Div(v, p));
    LeadingFractionSmall(digits);
    var n, a, k := Numeral(digits), Pow10(prec - |digits|), Pow10(|digits|);
    Pow10Split(|digits|, prec - |digits|);
    DecimalValue(v, p, n, a, k);
    Quotient(Div(v, p), p, INT64_LIMIT);
  }

  /** A number with a fraction of a unit of 10^prec nanoseconds. */
  lemma DecimalSegment(v: nat, prec: nat, unit: string, units: map<string, int>)
    requires forall u | u in units :: units[u] > 0
    requires prec <= 9 && UnitText(unit) && unit in units && units[unit] == Pow10(prec)
    requires v <= INT64_LIMIT
    ensures Segment(Decimal(v, prec) + unit, units) == Some((v, ""))
  {
    hide Pow10, Itoa, FractionDigits, Amount, SplitNumber, Segment;
    var p := Pow10(prec);
    var digits := FractionDigits(Mod(v, p), prec, false);
    FractionExact(Mod(v, p), prec);
    DecimalAmount(v, prec, p, digits);
    ItoaNumeral(Div(v, p));
    assert unit[0] in unit && unit == unit + "";
    if digits == "" {
      assert Decimal(v, prec) == Itoa(Div(v, p));
      SplitWhole(Itoa(Div(v, p)), unit);
    } else {
      assert Decimal(v, prec) + unit == Itoa(Div(v, p)) + "." + digits + unit;
      SplitDecimal(Itoa(Div(v, p)), digits, unit);
    }
    SegmentIs(Decimal(v, prec) + unit, Number(Itoa(Div(v, p)), digits, unit), unit, "", v, units);
  }

  // ---------- the round trip ----------

  /** The units a duration text is printed with. */
  predicate PrintUnits(units: map<string, int>) {
    && (forall u | u in units :: units[u] > 0)
    && "ns" in units && "\U{B5}s" in units && "ms" in units && "s" in units && "m" in units && "h" in units
    && units["ns"] == 1 && units["\U{B5}s"] == MICRO && units["ms"] == MILLI
    && units["s"] == SECOND && units["m"] == MINUTE && units["h"] == HOUR
  }

  lemma {:induction false} SegmentsOne(s: string, v: nat, rest: string, total: nat, units: map<string, int>)
    requires forall u | u in units :: units[u] > 0
    requires s != "" && Segment(s, units) == Some((v, rest)) && total + v <= INT64_LIMIT
    ensures Segments(s, total, units) == Segments(rest, total + v, units)
    ensures rest == "" ==> Segments(s, total, units) == Some(total + v)
  {
    hide Segment;
  }

  lemma SecondsParse(u: nat, total: nat, units: map<string, int>)
    requires PrintUnits(units) && u < MINUTE && total + u <= INT64_LIMIT
    ensures Segments(Decimal(u, 9) + "s", total, units) == Some(total + u)
  {
    hide Segment, Segments, Decimal, Pow10;
    Pow10Nine(9);
    DecimalSegment(u, 9, "s", units);
    SegmentsOne(Decimal(u, 9) + "s", u, "", total, units);
  }

  lemma MinutesParse(u: nat, total: nat, units: map<string, int>)
    requires PrintUnits(units) && u < HOUR && total + u <= INT64_LIMIT
    ensures Segments(MinutesText(u), total, units) == Some(total + u)
  {
    hide Segment, Segments, Pow10, Itoa, FractionDigits;
    var tail := Decimal(Mod(u, MINUTE), 9) + "s";
    var whole := Div(u, MINUTE) * MINUTE;
    assert whole + Mod(u, MINUTE) == u;
    ItoaNumeral(Div(Mod(u, MINUTE), Pow10(9)));
    assert IsDigit(tail[0]);
    WholeSegment(Div(u, MINUTE), "m", tail, units);
    SegmentsOne(MinutesText(u), whole, tail, total, units);
    SecondsParse(Mod(u, MINUTE), total + whole, units);
  }

  lemma HoursParse(u: nat, units: map<string, int>)
    requires PrintUnits(units) && HOUR <= u <= INT64_LIMIT
    ensures Segments(Itoa(Div(u, HOUR)) + ("h" + MinutesText(Mod(u, HOUR))), 0, units) == Some(u)
  {
    hide Segment, Segments, Pow10, Itoa, Decimal;
    var tail := MinutesText(Mod(u, HOUR));
    var whole := Div(u, HOUR) * HOUR;
    assert whole + Mod(u, HOUR) == u;
    ItoaNumeral(Div(Mod(u, HOUR), MINUTE));
    WholeSegment(Div(u, HOUR), "h", tail, units);
    SegmentsOne(Itoa(Div(u, HOUR)) + ("h" + tail), whole, tail, 0, units);
    MinutesParse(Mod(u, HOUR), whole, units);
  }

  lemma SubsecondParses(u: nat, units: map<string, int>)
    requires PrintUnits(units) && 0 < u < SECOND
    ensures Segments(MagnitudeText(u), 0, units) == Some(u)
  {
    hide Segment, Segments, Pow10, Itoa, Decimal;
    Pow10Nine(9);
    if u < MICRO {
      WholeSegment(u, "ns", "", units);
      assert "ns" + "" == "ns";
    } else if u < MILLI {
      DecimalSegment(u, 3, "\U{B5}s", units);
    } else {
      DecimalSegment(u, 6, "ms", units);
    }
    MagnitudeStart(u);
    SegmentsOne(MagnitudeText(u), u, "", 0, units);
  }

  lemma ZeroParses(units: map<string, int>)
    requires PrintUnits(units)
    ensures Segments(MagnitudeText(0), 0, units) == Some(0)
  {
    hide Segment, Segments;
    WholeSegment(0, "s", "", units);
    assert Itoa(0) + ("s" + "") == "0s";
    SegmentsOne("0s", 0, "", 0, units);
  }

  lemma MagnitudeParses(u: nat, units: map<string, int>)
    requires PrintUnits(units) && 0 < u <= INT64_LIMIT
    ensures Segments(MagnitudeText(u), 0, units) == Some(u)
  {
    hide Segment, Segments, Pow10, Itoa, Decimal;
    if u < SECOND {
      SubsecondParses(u, units);
    } else if u < MINUTE {
      SecondsParse(u, 0, units);
    } else if u < HOUR {
      MinutesParse(u, 0, units);
    } else {
      HoursParse(u, units);
    }
  }

  lemma MagnitudeStart(u: nat)
    ensures MagnitudeText(u) != "" && IsDigit(MagnitudeText(u)[0]) && |MagnitudeText(u)| > 1
  {
    hide Pow10, Itoa, FractionDigits;
    ItoaNumeral(u);
    ItoaNumeral(Div(u, Pow10(3)));
    ItoaNumeral(Div(u, Pow10(6)));
    ItoaNumeral(Div(u, Pow10(9)));
    ItoaNumeral(Div(u, MINUTE));
    ItoaNumeral(Div(u, HOUR));
  }

  // ---------- the characters of a duration text ----------

  predicate DurationChar(c: char) {
    IsDigit(c) || c == '.' || c == '-' || c == 'h' || c == 'm' || c == 's' || c == 'n' || c == '\U{B5}'
  }

  lemma DecimalChars(v: nat, prec: nat)
    ensures forall c | c in Decimal(v, prec) :: DurationChar(c)
  {
    hide Pow10, FractionDigits, Itoa;
    ItoaNumeral(Div(v, Pow10(prec)));
    FractionExact(Mod(v, Pow10(prec)), prec);
  }

  lemma MinutesChars(u: nat)
    ensures forall c | c in MinutesText(u) :: DurationChar(c)
  {
    hide Itoa, Decimal;
    ItoaNumeral(Div(u, MINUTE));
    DecimalChars(Mod(u, MINUTE), 9);
  }

  lemma DurationChars(d: int)
    ensures forall c | c in DurationText(d) :: DurationChar(c)
  {
    hide Itoa, Decimal, MinutesText;
    var u := if d < 0 then -d else d;
    ItoaNumeral(u);
    ItoaNumeral(Div(u, HOUR));
    DecimalChars(u, 3);
    DecimalChars(u, 6);
    DecimalChars(u, 9);
    MinutesChars(u);
    MinutesChars(Mod(u, HOUR));
  }

  /** Printing and parsing undo each other on every int64 duration. */
  lemma DurationRoundTrip(d: int)
    requires InRange(d)
    ensures ParseGoDuration(DurationText(d)) == Some(d)
  {
    hide Segment, Segments, MagnitudeText;
    var u := if d < 0 then -d else d;
    MagnitudeStart(u);
    if d < 0 {
      assert DurationText(d)[1..] == MagnitudeText(u);
    }
    if u > 0 {
      MagnitudeParses(u, UNITS);
    } else {
      ZeroParses(UNITS);
    }
  }

  /** What the parser stores for a printed duration: its milliseconds, rounded down. */
  lemma PrintedMilliseconds(d: int)
    requires 0 <= d < INT64_LIMIT
    ensures ParseDuration(DurationText(d)) == d / MILLI
  {
    DurationRoundTrip(d);
  }

  /** A negative one is cut towards zero, and a text that is no duration is stored as zero. */
  lemma OtherMilliseconds(d: int, s: string)
    requires -INT64_LIMIT <= d < 0
    ensures ParseDuration(DurationText(d)) == -((-d) / 1_000_000)
    ensures ParseGoDuration(s).None? ==> ParseDuration(s) == 0
    ensures ParseDuration("") == 0
  {
    DurationRoundTrip(d);
    assert ParseGoDuration("") == None;
    hide ParseGoDuration;
  }

  /** Order survives printing, parsing and truncation, over the whole int64 range. */
  lemma PrintedOrder(a: int, b: int)
    requires InRange(a) && InRange(b) && a <= b
    ensures ParseDuration(DurationText(a)) <= ParseDuration(DurationText(b))
    ensures 0 <= a ==> 0 <= ParseDuration(DurationText(a))
  {
    hide ParseGoDuration, DurationText;
    DurationRoundTrip(a);
    DurationRoundTrip(b);
  }
}
