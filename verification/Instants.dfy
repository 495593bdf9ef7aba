/** The times of records: printed by log/slog in the zone of the writer, parsed by parseRequest in
    cmd/logparser/main.go and stored in UTC. An instant is a number of nanoseconds from the start
    of the year 1, which is Go's zero time. */
module Instants {
  import opened Options
  import opened Text
  import opened Durations
  import opened Filenames

  const DAY: int := 24 * HOUR

  // ---------- the calendar ----------

  /** The days before a year. */
  function YearStart(y: int): int { 365 * (y - 1) + (y - 1) / 4 - (y - 1) / 100 + (y - 1) / 400 }

  /** The days of a year before a month. */
  function MonthStart(y: nat, m: nat): nat
    requires 1 <= m <= 13
  {
    if m == 1 then 0 else MonthStart(y, m - 1) + DaysIn(m - 1, y)
  }

  lemma MonthsOf(y: nat)
    ensures MonthStart(y, 13) == 337 + DaysIn(2, y)
  {
    assert MonthStart(y, 2) == 31;
    assert MonthStart(y, 3) == 31 + DaysIn(2, y);
    assert MonthStart(y, 4) == MonthStart(y, 3) + 31;
    assert MonthStart(y, 5) == MonthStart(y, 4) + 30;
    assert MonthStart(y, 6) == MonthStart(y, 5) + 31;
    assert MonthStart(y, 7) == MonthStart(y, 6) + 30;
    assert MonthStart(y, 8) == MonthStart(y, 7) + 31;
    assert MonthStart(y, 9) == MonthStart(y, 8) + 31;
    assert MonthStart(y, 10) == MonthStart(y, 9) + 30;
    assert MonthStart(y, 11) == MonthStart(y, 10) + 31;
    assert MonthStart(y, 12) == MonthStart(y, 11) + 30;
    assert MonthStart(y, 13) == MonthStart(y, 12) + 31;
  }

  lemma FourthYear(y: int)
    ensures y / 4 == (y - 1) / 4 + if y % 4 == 0 then 1 else 0
  {
  }

  lemma HundredthYear(y: int)
    ensures y / 100 == (y - 1) / 100 + if y % 100 == 0 then 1 else 0
  {
  }

  lemma FourHundredthYear(y: int)
    ensures y / 400 == (y - 1) / 400 + if y % 400 == 0 then 1 else 0
  {
  }

  lemma Fours(q: int)
    ensures (4 * q) % 4 == 0
  {
  }

  lemma Hundreds(q: int)
    ensures (100 * q) % 100 == 0
  {
  }

  lemma LeapYears(y: int)
    ensures (y % 400 == 0 ==> y % 100 == 0) && (y % 100 == 0 ==> y % 4 == 0)
  {
    Hundreds(4 * (y / 400));
    Fours(25 * (y / 100));
  }

  /** A year is as long as its months, and has the days of the Gregorian calendar. */
  lemma YearLength(y: nat)
    ensures YearStart(y + 1) == YearStart(y) + MonthStart(y, 13)
    ensures MonthStart(y, 13) == if (y % 4 == 0 && y % 100 != 0) || y % 400 == 0 then 366 else 365
  {
    MonthsOf(y);
    hide MonthStart;
    FourthYear(y);
    HundredthYear(y);
    FourHundredthYear(y);
    LeapYears(y);
  }

  lemma {:induction false} YearsRise(y: nat, z: nat)
    requires y <= z
    ensures YearStart(y) <= YearStart(z)
    decreases z
  {
    hide YearStart;
    if y < z {
      YearsRise(y, z - 1);
      YearLength(z - 1);
    }
  }

  /** The year of a day, from a year on that is not after it. */
  function YearOf(day: int, y: nat): (r: nat)
    requires YearStart(y) <= day
    ensures y <= r && YearStart(r) <= day < YearStart(r + 1)
    decreases day - YearStart(y)
  {
    if day < YearStart(y + 1) then y else YearOf(day, y + 1)
  }

  /** The month of a day of the year, from the last month on that is not after it. */
  function MonthOf(y: nat, day: nat, m: nat): (r: nat)
    requires 1 <= m <= 12 && day < MonthStart(y, m + 1)
    ensures 1 <= r <= m && MonthStart(y, r) <= day < MonthStart(y, r + 1)
  {
    if MonthStart(y, m) <= day then m else MonthOf(y, day, m - 1)
  }

  function DayOf(s: Stamp): int
    requires ValidStamp(s)
  {
    YearStart(s.year) + MonthStart(s.year, s.month) + s.day - 1
  }

  function SecondOf(s: Stamp): nat { (s.hour * 60 + s.minute) * 60 + s.second }

  /** The instant at which a clock that is `offset` minutes ahead of UTC shows a time. */
  function InstantOf(s: Stamp, offset: int): int
    requires ValidStamp(s)
  {
    DayOf(s) * DAY + SecondOf(s) * SECOND + s.nanos - offset * MINUTE
  }

  /** Within the four digits of a year. */
  predicate Datable(local: int) { 0 <= local && local / DAY < YearStart(10000) }

  /** Midnight of a day. */
  function DateOf(day: int): (s: Stamp)
    requires 0 <= day < YearStart(10000)
    ensures ValidStamp(s) && SecondOf(s) == 0 && s.nanos == 0 && DayOf(s) == day
  {
    var year := YearOf(day, 1);
    YearLength(year);
    YearBefore(year, day);
    hide YearStart, MonthStart;
    var month := MonthOf(year, day - YearStart(year), 12);
    MonthLength(year, month);
    Stamp(year, month, day - YearStart(year) - MonthStart(year, month) + 1, 0, 0, 0, 0)
  }

  lemma MonthLength(y: nat, m: nat)
    requires 1 <= m <= 12
    ensures MonthStart(y, m + 1) == MonthStart(y, m) + DaysIn(m, y)
  {
  }

  lemma YearBefore(year: nat, day: int)
    requires YearStart(year) <= day < YearStart(10000)
    ensures year < 10000
  {
    hide YearStart;
    if year >= 10000 {
      YearsRise(10000, year);
    }
  }

  /** Hours, minutes and seconds. */
  function WithTime(date: Stamp, seconds: nat, nanos: nat): (s: Stamp)
    requires ValidStamp(date) && seconds < 86_400
    ensures ValidStamp(s) && s.nanos == nanos && SecondOf(s) == seconds && DayOf(s) == DayOf(date)
  {
    hide YearStart, MonthStart;
    date.(hour := seconds / 3600, minute := seconds / 60 % 60, second := seconds % 60, nanos := nanos)
  }

  lemma ClockSplit(local: nat)
    ensures local % DAY / SECOND < 86_400
    ensures local / DAY * DAY + local % DAY / SECOND * SECOND + local % DAY % SECOND == local
  {
    var rest := local % DAY;
    assert rest / SECOND * SECOND + rest % SECOND == rest;
  }

  /** What a clock shows. */
  function Clock(local: int): (s: Stamp)
    requires Datable(local)
    ensures ValidStamp(s) && s.nanos < SECOND && InstantOf(s, 0) == local
  {
    hide DayOf, SecondOf, ValidStamp, YearStart;
    ClockSplit(local);
    WithTime(DateOf(local / DAY), local % DAY / SECOND, local % DAY % SECOND)
  }

  // ---------- printing ----------

  function Pad3(n: nat): string
    requires n < 1000
  {
    [DigitChar(n / 100)] + Pad2(n % 100)
  }

  function Zone(offset: int): string
    requires -1440 < offset < 1440
  {
    if offset == 0 then "Z"
    else if offset < 0 then "-" + (Pad2(-offset / 60) + (":" + Pad2(-offset % 60)))
    else "+" + (Pad2(offset / 60) + (":" + Pad2(offset % 60)))
  }

  /** A time of the day and its zone. */
  function RestText(s: Stamp, zone: string): string
    requires ValidStamp(s) && s.nanos < SECOND
  {
    Pad2(s.hour) + (":" + (Pad2(s.minute) + (":" + (Pad2(s.second) + ("." + (Pad3(s.nanos / MILLI) + zone))))))
  }

  function ClockText(s: Stamp, zone: string): string
    requires ValidStamp(s) && s.nanos < SECOND
  {
    DateText(s) + ("T" + RestText(s, zone))
  }

  /** Some zone of whole minutes in which the date has a year of four digits. */
  predicate Zoned(t: int, offset: int) {
    0 <= t && -1440 < offset < 1440 && Datable(t + offset * MINUTE)
  }

  /** The time of a record: RFC 3339 (section 5.6) with milliseconds, in the zone of the writer. */
  function InstantText(t: int, offset: int): string
    requires Zoned(t, offset)
  {
    ClockText(Clock(t + offset * MINUTE), Zone(offset))
  }

  // ---------- parsing ----------

  /** Go accepts offsets of 24 hours and of 60 minutes. */
  function ParseZone(s: string): Option<int> {
    if s == "Z" then Some(0)
    else if |s| != 6 || s[3] != ':' || (s[0] != '+' && s[0] != '-') then None
    else
      match ReadTwo(s[1..3]) case None => None case Some((hours, _)) =>
      match ReadTwo(s[4..6]) case None => None case Some((minutes, _)) =>
      if hours > 24 || minutes > 60 then None
      else Some(if s[0] == '-' then -(hours * 60 + minutes) else hours * 60 + minutes)
  }

  /** The hour and what follows it. */
  function ParseRest(year: nat, month: nat, day: nat, s: string): Option<int> {
    match Parted(ReadHour(s), ':') case None => None case Some((hour, s1)) =>
    match Parted(ReadTwo(s1), ':') case None => None case Some((minute, s2)) =>
    match ReadTwo(s2) case None => None case Some((second, s3)) =>
    var (nanos, s4) := ReadFraction(s3);
    var stamp := Stamp(year, month, day, hour, minute, second, nanos);
    match ParseZone(s4) case None => None case Some(offset) =>
    if ValidStamp(stamp) then Some(InstantOf(stamp, offset)) else None
  }

  /** time.Parse with the layout RFC3339Nano. */
  function ParseInstant(s: string): Option<int> {
    match Dash(ReadYear(s)) case None => None case Some((year, s1)) =>
    match Dash(ReadTwo(s1)) case None => None case Some((month, s2)) =>
    match Parted(ReadTwo(s2), 'T') case None => None case Some((day, s3)) =>
    ParseRest(year, month, day, s3)
  }

  /** The stored time: the zero time for a text that is none. */
  function LooseInstant(s: string): int {
    match ParseInstant(s)
    case None => 0
    case Some(t) => t
  }

  // ---------- printed instants come back to the millisecond ----------

  lemma ReadParted(n: nat, c: char, rest: string)
    requires n < 100
    ensures Parted(ReadTwo(Pad2(n) + ([c] + rest)), c) == Some((n, rest))
    ensures Parted(ReadHour(Pad2(n) + ([c] + rest)), c) == Some((n, rest))
  {
    hide Pad2, ReadTwo;
    ReadPadded(n, [c] + rest);
    assert ([c] + rest)[1..] == rest;
  }

  lemma ZoneBack(offset: int)
    requires -1440 < offset < 1440
    ensures ParseZone(Zone(offset)) == Some(offset) && Zone(offset) != "" && !IsDigit(Zone(offset)[0])
  {
    if offset != 0 {
      var n := if offset < 0 then -offset else offset;
      var z := Zone(offset);
      assert z[1..3] == Pad2(n / 60) + "" && z[4..6] == Pad2(n % 60) + "";
      ReadPadded(n / 60, "");
      ReadPadded(n % 60, "");
    }
  }

  lemma Pad3Number(n: nat)
    requires n < 1000
    ensures |Pad3(n)| == 3 && AllDigits(Pad3(n)) && Numeral(Pad3(n)) == n
  {
    var s := Pad3(n);
    assert s[..2][..1] == [DigitChar(n / 100)] && s[..2][..1][..0] == "";
    assert Numeral(s[..2][..1]) == n / 100;
    assert Numeral(s[..2]) == n / 10;
  }

  lemma {:induction false} DigitsUpTo(a: string, b: string)
    requires AllDigits(a) && (b == "" || !IsDigit(b[0]))
    ensures DigitsFront(a + b) == |a|
  {
    if a == "" {
      assert a + b == b;
    } else {
      assert a[0] in a && (a + b)[1..] == a[1..] + b;
      DigitsUpTo(a[1..], b);
    }
  }

  lemma ReadMillis(n: nat, rest: string)
    requires n < 1000 && (rest == "" || !IsDigit(rest[0]))
    ensures ReadFraction("." + (Pad3(n) + rest)) == (n * MILLI, rest)
  {
    Pad3Number(n);
    hide Pad3, Numeral;
    var digits, s := Pad3(n), "." + (Pad3(n) + rest);
    DigitsUpTo(digits, rest);
    assert s[1..] == digits + rest && s[1] == digits[0] && digits[0] in digits;
    assert (digits + rest)[..3] == digits && (digits + rest)[3..] == rest;
    assert Scaled(n, 6) == n * MILLI;
  }

  lemma ClockTextIs(s: Stamp, zone: string)
    requires ValidStamp(s) && s.nanos < SECOND
    ensures ClockText(s, zone)
         == Pad2(s.year / 100) + (Pad2(s.year % 100) + ("-" + (Pad2(s.month) + ("-" + (Pad2(s.day) + ("T" + RestText(s, zone)))))))
    ensures ClockText(s, zone) != ""
  {
    assert Pad2(s.year / 100) != "";
    hide Pad2, Pad3, RestText;
  }

  lemma RestBack(s: Stamp, offset: int)
    requires ValidStamp(s) && s.nanos < SECOND && -1440 < offset < 1440
    ensures ParseRest(s.year, s.month, s.day, RestText(s, Zone(offset)))
         == Some(InstantOf(s.(nanos := s.nanos / MILLI * MILLI), offset))
  {
    ZoneBack(offset);
    var ms := s.nanos / MILLI;
    hide Pad2, Pad3, ReadTwo, ReadHour, Parted, ReadFraction, Zone, ParseZone, InstantOf, DaysIn;
    var t7 := "." + (Pad3(ms) + Zone(offset));
    var t6 := Pad2(s.second) + t7;
    var t5 := Pad2(s.minute) + (":" + t6);
    assert RestText(s, Zone(offset)) == Pad2(s.hour) + (":" + t5);
    hide RestText;
    ReadParted(s.hour, ':', t5);
    ReadParted(s.minute, ':', t6);
    ReadPadded(s.second, t7);
    ReadMillis(ms, Zone(offset));
    assert ValidStamp(s.(nanos := ms * MILLI));
  }

  lemma DateBack(year: nat, month: nat, day: nat, rest: string)
    requires year < 10000 && month < 100 && day < 100
    ensures ParseInstant(Pad2(year / 100) + (Pad2(year % 100) + ("-" + (Pad2(month) + ("-" + (Pad2(day) + ("T" + rest)))))))
         == ParseRest(year, month, day, rest)
  {
    hide Pad2, ReadTwo, ReadYear, Parted, Dash, ParseRest;
    var t3 := Pad2(day) + ("T" + rest);
    var t2 := Pad2(month) + ("-" + t3);
    ReadPaddedYear(year, t2);
    ReadDashed(month, t3);
    ReadParted(day, 'T', rest);
  }

  lemma ClockBack(s: Stamp, offset: int)
    requires ValidStamp(s) && s.nanos < SECOND && -1440 < offset < 1440
    ensures ParseInstant(ClockText(s, Zone(offset))) == Some(InstantOf(s.(nanos := s.nanos / MILLI * MILLI), offset))
  {
    hide Pad2, Zone, InstantOf, ClockText, RestText, ParseRest, ParseInstant;
    ClockTextIs(s, Zone(offset));
    RestBack(s, offset);
    DateBack(s.year, s.month, s.day, RestText(s, Zone(offset)));
  }

  lemma MilliPart(k: int, ns: nat)
    ensures (k * MILLI + ns) - (k * MILLI + ns) % MILLI == k * MILLI + ns / MILLI * MILLI
  {
  }

  lemma Scaling(day: int, second: int, nanos: int, offset: int)
    ensures day * DAY + second * SECOND + nanos - offset * MINUTE
         == (day * 86_400_000 + second * 1000 - offset * 60_000) * MILLI + nanos
  {
  }

  lemma SameSecond(s: Stamp, nanos: nat)
    requires ValidStamp(s)
    ensures DayOf(s.(nanos := nanos)) == DayOf(s) && SecondOf(s.(nanos := nanos)) == SecondOf(s)
  {
  }

  lemma WholeMillis(s: Stamp, offset: int)
    requires ValidStamp(s)
    ensures var t := InstantOf(s, offset);
            InstantOf(s.(nanos := s.nanos / MILLI * MILLI), offset) == t - t % MILLI
  {
    var ns := s.nanos / MILLI * MILLI;
    SameSecond(s, ns);
    Scaling(DayOf(s), SecondOf(s), s.nanos, offset);
    Scaling(DayOf(s), SecondOf(s), ns, offset);
    MilliPart(DayOf(s) * 86_400_000 + SecondOf(s) * 1000 - offset * 60_000, s.nanos);
    hide DayOf, SecondOf;
  }

  lemma Shifted(s: Stamp, t: int, offset: int)
    requires ValidStamp(s) && InstantOf(s, 0) == t + offset * MINUTE
    ensures InstantOf(s, offset) == t
  {
  }

  lemma ReadBack(s: Stamp, t: int, offset: int)
    requires ValidStamp(s) && s.nanos < SECOND && -1440 < offset < 1440 && InstantOf(s, 0) == t + offset * MINUTE
    ensures ParseInstant(ClockText(s, Zone(offset))) == Some(t - t % MILLI)
  {
    hide ValidStamp, ClockText, ParseInstant, Zone;
    Shifted(s, t, offset);
    hide InstantOf;
    ClockBack(s, offset);
    WholeMillis(s, offset);
  }

  /** Whatever the zone it is printed in, every instant is stored as its whole milliseconds. */
  lemma InstantRoundTrip(t: int, offset: int)
    requires Zoned(t, offset)
    ensures ParseInstant(InstantText(t, offset)) == Some(t - t % MILLI)
  {
    hide Clock, ClockText, ParseInstant, InstantOf, Zone, Datable, ValidStamp;
    ReadBack(Clock(t + offset * MINUTE), t, offset);
  }

  /** Stored times keep the order of the instants, also across a change of the zone. */
  lemma InstantOrder(t1: int, offset1: int, t2: int, offset2: int)
    requires Zoned(t1, offset1) && Zoned(t2, offset2) && t1 <= t2
    ensures LooseInstant(InstantText(t1, offset1)) <= LooseInstant(InstantText(t2, offset2))
  {
    hide InstantText, ParseInstant, Zoned;
    InstantRoundTrip(t1, offset1);
    InstantRoundTrip(t2, offset2);
  }

  // ---------- the order of stamps ----------

  lemma {:induction false} MonthsRise(y: nat, m: nat, n: nat)
    requires 1 <= m <= n <= 13
    ensures MonthStart(y, m) <= MonthStart(y, n)
    decreases n
  {
    if m < n {
      MonthsRise(y, m, n - 1);
    }
  }

  /** A valid date lies in its month and its year. */
  lemma DayWithin(s: Stamp)
    requires ValidStamp(s)
    ensures MonthStart(s.year, s.month) <= DayOf(s) - YearStart(s.year) < MonthStart(s.year, s.month + 1)
    ensures YearStart(s.year) <= DayOf(s) < YearStart(s.year + 1)
  {
    MonthLength(s.year, s.month);
    MonthsRise(s.year, s.month + 1, 13);
    YearLength(s.year);
    hide YearStart, MonthStart, DaysIn;
  }

  predicate EarlierDay(a: Stamp, b: Stamp) {
    a.year < b.year || (a.year == b.year && (a.month < b.month || (a.month == b.month && a.day < b.day)))
  }

  lemma EarlierDayFirst(a: Stamp, b: Stamp)
    requires ValidStamp(a) && ValidStamp(b) && EarlierDay(a, b)
    ensures DayOf(a) < DayOf(b)
  {
    DayWithin(a);
    DayWithin(b);
    if a.year < b.year {
      YearsRise(a.year + 1, b.year);
      hide YearStart, MonthStart, DayOf;
    } else if a.month < b.month {
      MonthsRise(a.year, a.month + 1, b.month);
      hide YearStart, MonthStart, DayOf;
    }
  }

  /** A time of the day is less than a day. */
  lemma DayTime(s: Stamp)
    requires ValidStamp(s) && s.nanos < SECOND
    ensures 0 <= SecondOf(s) * SECOND + s.nanos < DAY
  {
    hide DaysIn;
  }

  lemma DayBefore(x: int, y: int, a: int, b: int)
    requires x < y && 0 <= a < DAY && 0 <= b < DAY
    ensures x * DAY + a < y * DAY + b
  {
  }

  /** The instant of an earlier day is earlier. */
  lemma EarlierInstant(a: Stamp, b: Stamp)
    requires ValidStamp(a) && ValidStamp(b) && a.nanos < SECOND && b.nanos < SECOND && EarlierDay(a, b)
    ensures InstantOf(a, 0) < InstantOf(b, 0)
  {
    EarlierDayFirst(a, b);
    DayTime(a);
    DayTime(b);
    DayBefore(DayOf(a), DayOf(b), SecondOf(a) * SECOND + a.nanos, SecondOf(b) * SECOND + b.nanos);
    hide DayOf, SecondOf, ValidStamp;
  }

  /** Within a day the time decides. */
  lemma SameDayInstant(a: Stamp, b: Stamp)
    requires ValidStamp(a) && ValidStamp(b) && a.nanos < SECOND && b.nanos < SECOND
    requires a.year == b.year && a.month == b.month && a.day == b.day
    ensures InstantOf(a, 0) < InstantOf(b, 0) <==> SecondOf(a) < SecondOf(b) || (SecondOf(a) == SecondOf(b) && a.nanos < b.nanos)
  {
    assert DayOf(a) == DayOf(b);
    hide DayOf, SecondOf, ValidStamp;
  }

  // ---------- the look of a printed instant ----------

  predicate TimeChar(c: char) { IsDigit(c) || c in {'-', 'T', ':', '.', '+', 'Z'} }

  /** Every colon follows a digit. */
  predicate Timely(s: string) {
    && (forall c | c in s :: TimeChar(c))
    && (forall k | 0 <= k < |s| && s[k] == ':' :: k > 0 && IsDigit(s[k - 1]))
  }

  lemma TimelyAppend(a: string, b: string)
    requires Timely(a) && Timely(b)
    ensures Timely(a + b)
  {
    var s := a + b;
    forall k | 0 <= k < |s| && s[k] == ':' ensures k > 0 && IsDigit(s[k - 1]) {
      if k >= |a| {
        assert b[k - |a|] == ':' && s[k - 1] == b[k - |a| - 1];
      }
    }
  }

  lemma TimelyPart(n: nat, c: char, rest: string)
    requires n < 100 && TimeChar(c) && Timely(rest)
    ensures Timely(Pad2(n) + ([c] + rest))
  {
    var a := Pad2(n) + [c];
    assert a == [DigitChar(n / 10), DigitChar(n % 10), c];
    assert Pad2(n) + ([c] + rest) == a + rest;
    TimelyAppend(a, rest);
  }

  lemma TimelyZone(offset: int)
    requires -1440 < offset < 1440
    ensures Timely(Zone(offset))
  {
    if offset != 0 {
      var n := if offset < 0 then -offset else offset;
      var sign := if offset < 0 then "-" else "+";
      TimelyPart(n / 60, ':', Pad2(n % 60));
      assert Zone(offset) == sign + (Pad2(n / 60) + (":" + Pad2(n % 60)));
      hide Pad2, Zone;
      TimelyAppend(sign, Pad2(n / 60) + (":" + Pad2(n % 60)));
    }
  }

  lemma TimelyMillis(n: nat, rest: string)
    requires n < 1000 && Timely(rest)
    ensures Timely(Pad3(n) + rest)
  {
    Pad3Number(n);
    hide Pad3;
    assert forall c | c in Pad3(n) :: TimeChar(c) && c != ':';
    TimelyAppend(Pad3(n), rest);
  }

  lemma TimelyClock(s: Stamp, zone: string)
    requires ValidStamp(s) && s.nanos < SECOND && Timely(zone)
    ensures Timely(ClockText(s, zone)) && ClockText(s, zone) != ""
  {
    ClockTextIs(s, zone);
    hide Pad2, Pad3, ClockText, DateText, Timely;
    var t7 := Pad3(s.nanos / MILLI) + zone;
    var t6 := Pad2(s.second) + ("." + t7);
    var t5 := Pad2(s.minute) + (":" + t6);
    var t4 := Pad2(s.hour) + (":" + t5);
    var t3 := Pad2(s.day) + ("T" + t4);
    var t2 := Pad2(s.month) + ("-" + t3);
    var t1 := Pad2(s.year % 100) + ("-" + t2);
    TimelyMillis(s.nanos / MILLI, zone);
    TimelyPart(s.second, '.', t7);
    TimelyPart(s.minute, ':', t6);
    TimelyPart(s.hour, ':', t5);
    TimelyPart(s.day, 'T', t4);
    TimelyPart(s.month, '-', t3);
    TimelyPart(s.year % 100, '-', t2);
    TimelyYear(s.year / 100);
    TimelyAppend(Pad2(s.year / 100), t1);
  }

  lemma TimelyYear(n: nat)
    requires n < 100
    ensures Timely(Pad2(n))
  {
  }

  lemma InstantTimely(t: int, offset: int)
    requires Zoned(t, offset)
    ensures Timely(InstantText(t, offset)) && InstantText(t, offset) != ""
  {
    hide Clock, ClockText, InstantOf, Zone, Datable, ValidStamp, Timely;
    TimelyZone(offset);
    TimelyClock(Clock(t + offset * MINUTE), Zone(offset));
  }
}
