/** The token bucket of golang.org/x/time/rate as the generators use it: one token per wait.
    Times are integer nanoseconds; tokens and rates are reals. */
module Limiter {

  const SECOND: real := 1_000_000_000.0

  /** The time one token takes. */
  function Period(rate: real): (p: real)
    requires rate > 0.0
    ensures p > 0.0
  {
    SECOND / rate
  }

  datatype Bucket = Bucket(rate: real, burst: nat, tokens: real, last: int)

  /** A new bucket is full. */
  function NewBucket(rate: real, burst: nat, now: int): Bucket { Bucket(rate, burst, burst as real, now) }

  predicate Sound(b: Bucket) { b.rate > 0.0 && b.burst >= 1 && b.tokens <= b.burst as real }

  function Min(x: real, y: real): real { if x < y then x else y }

  function Max(x: real, y: real): real { if x < y then y else x }

  function Advance(b: Bucket, t: int): real
    requires Sound(b) && b.last <= t
  {
    Min(b.burst as real, b.tokens + (t - b.last) as real * b.rate / SECOND)
  }

  /** Wait(n = 1) begun at `t`: the bucket afterwards and the time the wait ends. The delay is
      converted to a Duration, so its fraction of a nanosecond is dropped. */
  function Reserve(b: Bucket, t: int): (Bucket, int)
    requires Sound(b) && b.last <= t
  {
    var tokens := Advance(b, t) - 1.0;
    var delay := if tokens < 0.0 then (-tokens / b.rate * SECOND).Floor else 0;
    (b.(tokens := tokens, last := t), t + delay)
  }

  /** The instant at which the bucket's balance is zero. */
  function ZeroTime(b: Bucket): real
    requires Sound(b)
  {
    b.last as real - b.tokens * Period(b.rate)
  }

  lemma PeriodTimesRate(rate: real, x: real)
    requires rate > 0.0
    ensures x * rate / SECOND * Period(rate) == x
    ensures x / rate * SECOND == x * Period(rate)
  {
    var p := Period(rate);
    assert p * rate == SECOND;
    assert x * rate / SECOND * p == x * (rate * p) / SECOND;
    assert x / rate * SECOND == x * (SECOND / rate);
  }

  lemma ScaleMin(x: real, y: real, p: real)
    requires p > 0.0
    ensures Min(x, y) * p == Min(x * p, y * p)
  {
    if x < y {
      assert (y - x) * p > 0.0;
    } else {
      assert (x - y) * p >= 0.0;
    }
  }

  lemma Distribute(x: real, y: real, p: real)
    ensures (x + y) * p == x * p + y * p && (x - y) * p == x * p - y * p
  {
  }

  lemma OneLess(n: nat, p: real)
    ensures (n - 1) as real * p == n as real * p - p
  {
    assert (n - 1) as real == n as real - 1.0;
    Distribute(n as real, 1.0, p);
  }

  lemma InTime(limit: real, tokens: real, gained: real, p: real)
    requires p > 0.0
    ensures (Min(limit, tokens + gained) - 1.0) * p == Min(limit * p, tokens * p + gained * p) - p
  {
    var least := Min(limit, tokens + gained);
    ScaleMin(limit, tokens + gained, p);
    Distribute(tokens, gained, p);
    Distribute(least, 1.0, p);
    hide Min;
  }

  /** The bucket's balance after a wait, in time instead of tokens. */
  lemma BalanceAfter(b: Bucket, t: int)
    requires Sound(b) && b.last <= t
    ensures var p := Period(b.rate);
            Reserve(b, t).0.tokens * p == Min(b.burst as real * p, b.tokens * p + (t - b.last) as real) - p
  {
    var p, e := Period(b.rate), (t - b.last) as real;
    var gained := e * b.rate / SECOND;
    PeriodTimesRate(b.rate, e);
    assert Reserve(b, t).0.tokens == Min(b.burst as real, b.tokens + gained) - 1.0;
    hide Period, Reserve, Min;
    InTime(b.burst as real, b.tokens, gained, p);
  }

  lemma ReserveSound(b: Bucket, t: int)
    requires Sound(b) && b.last <= t
    ensures var b' := Reserve(b, t).0;
            Sound(b') && b'.last == t && b'.rate == b.rate
  {
  }

  /** A balance at its limit or increased, as an instant. */
  lemma FromMin(t: real, last: real, limit: real, tokens: real, p: real)
    ensures t - (Min(limit, tokens + (t - last)) - p) == Max(t - (limit - p), last - tokens + p)
  {
  }

  /** The bucket is the virtual scheduling algorithm: with burst b, a wait begun at `t` moves the
      zero time by one period, but not below b - 1 periods before `t`. */
  lemma BucketIsSchedule(b: Bucket, t: int)
    requires Sound(b) && b.last <= t
    ensures var b' := Reserve(b, t).0;
            && Sound(b') && b'.last == t
            && ZeroTime(b') == Max(t as real - (b.burst - 1) as real * Period(b.rate), ZeroTime(b) + Period(b.rate))
  {
    var p := Period(b.rate);
    ReserveSound(b, t);
    BalanceAfter(b, t);
    OneLess(b.burst, p);
    hide Period, Reserve, Sound, Min, Max;
    FromMin(t as real, b.last as real, b.burst as real * p, b.tokens * p, p);
  }

  /** And the wait ends when the zero time comes, less the dropped fraction of a nanosecond. */
  lemma WaitEnds(b: Bucket, t: int)
    requires Sound(b) && b.last <= t
    ensures var (b', act) := Reserve(b, t);
            act == if ZeroTime(b') > t as real then ZeroTime(b').Floor else t
  {
    var (b', act) := Reserve(b, t);
    PeriodTimesRate(b.rate, -b'.tokens);
    var d := -b'.tokens * Period(b.rate);
    assert ZeroTime(b') == t as real + d;
    if b'.tokens < 0.0 {
      assert d > 0.0;
      FloorShift(t, d);
    } else {
      assert b'.tokens * Period(b.rate) >= 0.0;
    }
  }

  lemma FloorShift(n: int, x: real)
    ensures (n as real + x).Floor == n + x.Floor
  {
    var f := x.Floor;
    assert f as real <= x < f as real + 1.0;
    assert (n + f) as real <= n as real + x < (n + f) as real + 1.0;
  }
}
