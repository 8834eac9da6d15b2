/** Eviction retries and their backoff arithmetic on 64-bit durations (ops/eviction/eviction.go). */
module Eviction {
  import opened Base
  import Int64

  datatype Settings = Settings(maxAttempts: int, timeout: int, initial: int, max: int)

  predicate Machine(s: Settings) {
    Int64.Fits(s.maxAttempts) && Int64.Fits(s.timeout) && Int64.Fits(s.initial) && Int64.Fits(s.max)
  }

  predicate Normalised(s: Settings) {
    Machine(s) && s.maxAttempts > 0 && s.timeout >= 0 && 0 <= s.initial <= s.max
  }

  function AttemptLimit(given: Settings): int {
    if given.maxAttempts <= 0 then 3 else given.maxAttempts
  }

  /** The settings with each field that is out of range replaced. */
  function Repaired(given: Settings): Settings {
    var initial := if given.initial < 0 then SECOND else given.initial;
    var max := if given.max < 0 then 5 * SECOND else given.max;
    Settings(AttemptLimit(given), Larger(given.timeout, 0), initial, Larger(max, initial))
  }

  function Larger(a: int, b: int): int {
    if a < b then b else a
  }

  /** applyDefaults: repairs what is out of range and keeps settings that are in order. */
  method ApplyDefaults(given: Settings) returns (s: Settings)
    requires Machine(given)
    ensures Normalised(s)
    ensures Normalised(given) ==> s == given
    ensures s == Repaired(given)
  {
    s := given;
    if s.maxAttempts <= 0 {
      s := s.(maxAttempts := 3);
    }
    if s.timeout < 0 {
      s := s.(timeout := 0);
    }
    if s.initial < 0 {
      s := s.(initial := SECOND);
    }
    if s.max < 0 {
      s := s.(max := 5 * SECOND);
    }
    if s.max < s.initial {
      s := s.(max := s.initial);
    }
  }

  // ---- backoff ----

  function Pow2(n: nat): (p: nat)
    ensures p >= 1
  {
    if n == 0 then 1 else 2 * Pow2(n - 1)
  }

  /** Go's 1 << n on int64. */
  function Shift(n: nat): int {
    if n >= 64 then 0 else Int64.Wrap(Pow2(n))
  }

  function NextBackoff(s: Settings, attempt: int): int {
    if s.initial == 0 then 0
    else if attempt <= 0 then s.initial
    else
      Scaled(s.initial, Shift(attempt - 1), s.max)
  }

  /** The product with the shifted one, its overflow test and its cap. */
  function Scaled(initial: int, multiplier: int, max: int): int {
    var candidate := Int64.Wrap(initial * multiplier);
    if multiplier > 0 && Int64.Quotient(candidate, multiplier) != initial then max
    else if candidate > max then max
    else candidate
  }

  /** The backoff without a machine word: doubling, cut off at the maximum. */
  function Doubled(s: Settings, attempt: int): int
    requires attempt >= 1
  {
    var d := s.initial * Pow2(attempt - 1);
    if d > s.max then s.max else d
  }

  lemma {:induction false} Pow2Monotone(a: nat, b: nat)
    requires a <= b
    ensures Pow2(a) <= Pow2(b)
    decreases b
  {
    if a < b {
      Pow2Monotone(a, b - 1);
    }
  }

  lemma Pow2Values()
    ensures Pow2(62) == Int64.HALF / 2 && Pow2(63) == Int64.HALF
  {
    assert Pow2(8) == 256;
    assert Pow2(16) == 65536;
    assert Pow2(24) == 0x100_0000;
    assert Pow2(32) == 0x1_0000_0000;
    assert Pow2(40) == 0x100_0000_0000;
    assert Pow2(48) == 0x1_0000_0000_0000;
    assert Pow2(56) == 0x100_0000_0000_0000;
    assert Pow2(62) == 0x4000_0000_0000_0000;
  }

  lemma AtLeastOnce(d: int, m: int)
    requires d >= 1 && m > 0
    ensures d * m >= m
  {
    assert (d - 1) * m >= 0;
  }

  lemma NoMultipleBetween(d: int, m: int, e: int)
    requires m > 0 && d * m == e && -m < e < m
    ensures d == 0
  {
    if d >= 1 {
      AtLeastOnce(d, m);
    } else if d <= -1 {
      AtLeastOnce(-d, m);
    }
  }

  /** Quotient and remainder are determined by their equation. */
  lemma DivisionUnique(x: int, m: int, q: int, r: int)
    requires m > 0 && x == q * m + r && 0 <= r < m
    ensures x / m == q && x % m == r
  {
    var p, t := x / m, x % m;
    assert x == m * p + t && 0 <= t < m;
    assert (p - q) * m == m * p - q * m;
    NoMultipleBetween(p - q, m, r - t);
  }

  /** The division test catches exactly the products that do not fit. */
  lemma DivisionTestExact(a: int, m: int)
    requires 0 < a && Int64.Fits(a) && 0 < m && Int64.Fits(m)
    ensures Int64.Quotient(Int64.Wrap(a * m), m) == a <==> Int64.Fits(a * m)
  {
    assert a * m > 0;
    if Int64.Fits(a * m) {
      DivisionUnique(a * m, m, a, 0);
    } else {
      var c := Int64.Wrap(a * m);
      assert c >= 0 ==> c == m * (c / m) + c % m;
      assert m * a == a * m > c;
    }
  }

  lemma ScaledExact(a: int, m: int, max: int)
    requires 0 < a && Int64.Fits(a) && 0 < m && Int64.Fits(m) && Int64.Fits(max)
    ensures Scaled(a, m, max) == if a * m > max then max else a * m
  {
    DivisionTestExact(a, m);
    assert a * m > 0;
  }

  lemma SmallShift(n: nat)
    requires n <= 62
    ensures Shift(n) == Pow2(n) && Int64.Fits(Pow2(n))
  {
    Pow2Monotone(n, 62);
    Pow2Values();
  }

  /** Up to attempt 63 the machine arithmetic gives the mathematical backoff. */
  lemma BackoffExact(s: Settings, attempt: int)
    requires Normalised(s) && 1 <= attempt <= 63
    ensures NextBackoff(s, attempt) == Doubled(s, attempt)
  {
    if s.initial > 0 {
      SmallShift(attempt - 1);
      ScaledExact(s.initial, Pow2(attempt - 1), s.max);
    }
  }

  /** From attempt 64 on the shift runs out of the word and the delay is zero or negative. */
  lemma BackoffCollapses(s: Settings, attempt: int)
    requires Normalised(s) && s.initial > 0 && attempt >= 64
    ensures NextBackoff(s, attempt) <= 0 && Doubled(s, attempt) == s.max > 0
  {
    Pow2Values();
    Pow2Monotone(63, attempt - 1);
    var p := Pow2(attempt - 1);
    assert s.initial * p >= 1 * p by {
      assert (s.initial - 1) * p >= 0;
      assert s.initial * p == (s.initial - 1) * p + p;
    }
    if attempt == 64 {
      MinTimes(s.initial);
    }
  }

  /** A multiple of the smallest word wraps to it or to zero. */
  lemma MinTimes(a: nat)
    ensures Int64.Wrap(a * -Int64.HALF) <= 0
  {
    var h, k := Int64.HALF, a / 2;
    if a % 2 == 0 {
      assert a * -h + h == -k * Int64.RANGE + h;
      DivisionUnique(a * -h + h, Int64.RANGE, -k, h);
    } else {
      assert a * -h + h == -k * Int64.RANGE + 0;
      DivisionUnique(a * -h + h, Int64.RANGE, -k, 0);
    }
  }

  /** The backoff is the doubled delay exactly when there is none to double or the attempt is at most 63. */
  lemma BackoffIff(s: Settings, attempt: int)
    requires Normalised(s) && attempt >= 1
    ensures NextBackoff(s, attempt) == Doubled(s, attempt) <==> s.initial == 0 || attempt <= 63
  {
    if s.initial == 0 {
      assert s.initial * Pow2(attempt - 1) == 0;
    } else if attempt <= 63 {
      BackoffExact(s, attempt);
    } else {
      BackoffCollapses(s, attempt);
    }
  }

  /** Up to attempt 63 the delays never shrink, start at the initial one and stay under the maximum. */
  lemma BackoffGrows(s: Settings, a: int, b: int)
    requires Normalised(s) && 1 <= a <= b <= 63
    ensures s.initial == NextBackoff(s, 1) <= NextBackoff(s, a) <= NextBackoff(s, b) <= s.max
  {
    BackoffExact(s, 1);
    BackoffExact(s, a);
    BackoffExact(s, b);
    Pow2Monotone(0, a - 1);
    Pow2Monotone(a - 1, b - 1);
    Scales(s.initial, 1, Pow2(a - 1));
    Scales(s.initial, Pow2(a - 1), Pow2(b - 1));
  }

  lemma Scales(k: nat, x: nat, y: nat)
    requires x <= y
    ensures k * x <= k * y
  {
    assert k * (y - x) >= 0;
    assert k * y == k * x + k * (y - x);
  }

  // ---- the retry loop ----

  /** What the eviction call says; the last three are retried. */
  datatype Answer = Accepted | NotFound | Forbidden | TimedOut | TooManyRequests | OtherError

  datatype Verdict = Evicted | Refused | Fatal | Late | Broken | Cancelled

  /** `done(k)`: the context ended before attempt k; `interrupted(k)`: during the wait after attempt k. */
  datatype Calls = Calls(answer: nat -> Answer, done: nat -> bool, interrupted: nat -> bool)

  predicate Retried(a: Answer) {
    a in {TimedOut, TooManyRequests, OtherError}
  }

  function VerdictOf(a: Answer): Verdict {
    match a
    case Accepted => Evicted
    case NotFound => Evicted
    case Forbidden => Fatal
    case TimedOut => Late
    case TooManyRequests => Refused
    case OtherError => Broken
  }

  function Backoffs(given: Settings): int -> int {
    attempt => NextBackoff(Repaired(given), attempt)
  }

  /** After n calls the context ends the eviction: before the next call or during the pause. */
  predicate Halts(pause: int -> int, c: Calls, n: nat) {
    c.done(n + 1) || (n >= 1 && pause(n) > 0 && c.interrupted(n))
  }

  /** The context ends the eviction while every answer so far was one to retry. */
  ghost predicate CutShort(limit: int, pause: int -> int, c: Calls) {
    exists n: nat :: n < limit && Halts(pause, c, n) && forall k :: 1 <= k <= n ==> Retried(c.answer(k))
  }

  /** What the attempts give: the first answer that is not retried decides, else the last one. */
  ghost predicate Attempted(limit: int, pause: int -> int, c: Calls, v: Verdict, calls: nat, pauses: seq<int>) {
    && calls <= limit
    && (forall k :: 1 <= k < calls ==> Retried(c.answer(k)))
    && (forall n :: 0 <= n < calls ==> !Halts(pause, c, n))
    && (v == Cancelled ==> calls < limit && Halts(pause, c, calls) && (calls >= 1 ==> Retried(c.answer(calls))))
    && (v != Cancelled ==> calls >= 1 && v == VerdictOf(c.answer(calls)))
    && (v != Cancelled ==> !Retried(c.answer(calls)) || calls == limit)
    && |pauses| == (if v == Cancelled then calls else calls - 1)
    && forall k :: 0 <= k < |pauses| ==> pauses[k] == pause(k + 1)
  }

  lemma CancelledIff(limit: int, pause: int -> int, c: Calls, v: Verdict, calls: nat, pauses: seq<int>)
    requires Attempted(limit, pause, c, v, calls, pauses)
    ensures v == Cancelled <==> CutShort(limit, pause, c)
  {
    if v == Cancelled {
      assert Halts(pause, c, calls);
    }
  }

  /** The retry loop. */
  method Attempt(limit: int, pause: int -> int, c: Calls) returns (v: Verdict, calls: nat, pauses: seq<int>)
    requires limit >= 1
    ensures Attempted(limit, pause, c, v, calls, pauses)
  {
    v, calls, pauses := Broken, 0, [];
    var attempt := 1;
    while attempt <= limit
      invariant 1 <= attempt <= limit && calls == attempt - 1
      invariant forall k :: 1 <= k < attempt ==> Retried(c.answer(k))
      invariant |pauses| == calls && forall k :: 0 <= k < |pauses| ==> pauses[k] == pause(k + 1)
      invariant forall n :: 0 <= n < calls ==> !Halts(pause, c, n)
      invariant calls >= 1 ==> !(pause(calls) > 0 && c.interrupted(calls))
      decreases limit - attempt
    {
      if c.done(attempt) {
        return Cancelled, calls, pauses;
      }
      assert !Halts(pause, c, attempt - 1);
      calls := attempt;
      v := VerdictOf(c.answer(attempt));
      if !Retried(c.answer(attempt)) {
        return;
      }
      if attempt >= limit {
        return;
      }
      var backoff := pause(attempt);
      pauses := pauses + [backoff];
      if backoff > 0 && c.interrupted(attempt) {
        return Cancelled, calls, pauses;
      }
      attempt := attempt + 1;
    }
  }

  /** Manager.Evict; `pauses` are the backoffs. */
  method Evict(given: Settings, c: Calls) returns (v: Verdict, calls: nat, pauses: seq<int>)
    requires Machine(given)
    ensures Attempted(AttemptLimit(given), Backoffs(given), c, v, calls, pauses)
    ensures v == Cancelled <==> CutShort(AttemptLimit(given), Backoffs(given), c)
    ensures v == Evicted ==> calls >= 1 && c.answer(calls) in {Accepted, NotFound}
    ensures Normalised(given) ==> forall k :: 0 <= k < |pauses| ==> pauses[k] == NextBackoff(given, k + 1)
  {
    var s := ApplyDefaults(given);
    v, calls, pauses := Attempt(s.maxAttempts, Backoffs(given), c);
    CancelledIff(s.maxAttempts, Backoffs(given), c, v, calls, pauses);
  }
}
