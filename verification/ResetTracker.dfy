/** The Sentinel reset tracker and its three cluster annotations (reconcile/sentinel_helpers.go). Times are
    nanoseconds since Go's zero time, which is 0. */
module ResetTracker {
  import opened Base
  import opened Network
  import Int64

  const LOSS_SINCE := "keyval.ivelok.io/quorum-loss-since"
  const ATTEMPTS := "keyval.ivelok.io/reset-cluster-attempts"
  const COOLDOWN := "keyval.ivelok.io/reset-cluster-cooldown"

  type Annotations = map<string, string>

  datatype Tracker = Tracker(lossSince: nat, attempts: nat, cooldownUntil: nat)

  /** The timestamp codec of section 5.6 of RFC 3339, as the code uses it. */
  datatype Codec = Codec(format: nat -> string, parse: string -> Option<nat>)

  /** Formatting drops nothing of a whole second. */
  ghost predicate Faithful(c: Codec) {
    forall t: nat :: t % SECOND == 0 ==> c.format(t) != "" && c.parse(c.format(t)) == Some(t)
  }

  function Normalize(t: nat): (n: nat)
    ensures n <= t < n + SECOND && n % SECOND == 0
  {
    t - t % SECOND
  }

  /** Rounding down to a whole second keeps the order and every whole bound. */
  lemma NormalizeKeepsBounds(t: nat, u: nat)
    requires u % SECOND == 0 && u <= t
    ensures u <= Normalize(t)
  {
  }

  // ---- the attempts counter: strconv.Itoa and strconv.Atoi ----

  function Value(digits: string): nat
    requires AllDigits(digits)
  {
    if digits == "" then 0
    else Value(digits[..|digits| - 1]) * 10 + DigitValue(digits[|digits| - 1])
  }

  function Atoi(s: string): Option<int> {
    var negative := s != "" && s[0] == '-';
    var digits := if s != "" && s[0] in "+-" then s[1..] else s;
    if digits == "" || !AllDigits(digits) then None
    else
      var v := if negative then 0 - Value(digits) else Value(digits);
      if Int64.Fits(v) then Some(v) else None
  }

  lemma {:induction false} ValueDecimal(n: nat)
    ensures Value(Decimal(n)) == n
  {
    var s := Decimal(n);
    assert DigitValue(s[|s| - 1]) == n % 10;
    if n < 10 {
      assert s[..|s| - 1] == "";
    } else {
      assert s[..|s| - 1] == Decimal(n / 10);
      ValueDecimal(n / 10);
    }
  }

  lemma AtoiDecimal(n: nat)
    requires Int64.Fits(n)
    ensures Atoi(Decimal(n)) == Some(n)
  {
    ValueDecimal(n);
    assert IsDigit(Decimal(n)[0]);
  }

  // ---- reading ----

  function Get(a: Annotations, key: string): string {
    if key in a then a[key] else ""
  }

  function ReadTime(c: Codec, raw: string): nat {
    if raw == "" || c.parse(raw).None? then 0 else c.parse(raw).value
  }

  function ReadAttempts(raw: string): (n: nat)
    ensures Int64.Fits(n)
  {
    if raw == "" || Atoi(raw).None? || Atoi(raw).value < 0 then 0 else Atoi(raw).value
  }

  function Read(c: Codec, a: Annotations): (t: Tracker)
    ensures Int64.Fits(t.attempts)
  {
    Tracker(ReadTime(c, Get(a, LOSS_SINCE)), ReadAttempts(Get(a, ATTEMPTS)), ReadTime(c, Get(a, COOLDOWN)))
  }

  // ---- writing ----

  function PutTime(c: Codec, a: Annotations, key: string, t: nat): (r: Annotations)
    ensures forall k :: k != key ==> Get(r, k) == Get(a, k) && (k in r <==> k in a)
  {
    if t == 0 then a - {key} else a[key := c.format(t)]
  }

  function PutAttempts(a: Annotations, n: nat): (r: Annotations)
    ensures forall k :: k != ATTEMPTS ==> Get(r, k) == Get(a, k) && (k in r <==> k in a)
  {
    if n > 0 then a[ATTEMPTS := Decimal(n)] else a - {ATTEMPTS}
  }

  function NormalTracker(t: Tracker): Tracker {
    t.(lossSince := Normalize(t.lossSince), cooldownUntil := Normalize(t.cooldownUntil))
  }

  /** What the annotations hold after a successful write. */
  function Stored(before: Tracker, t: Tracker): Tracker {
    if before == t then t else NormalTracker(t)
  }

  function Written(c: Codec, a: Annotations, t: Tracker): Annotations {
    if Read(c, a) == t then a
    else
      var n := NormalTracker(t);
      PutTime(c, PutAttempts(PutTime(c, a, LOSS_SINCE, n.lossSince), n.attempts), COOLDOWN, n.cooldownUntil)
  }

  lemma KeysDiffer()
    ensures LOSS_SINCE != ATTEMPTS && ATTEMPTS != COOLDOWN && LOSS_SINCE != COOLDOWN
  {
    assert LOSS_SINCE[17] == 'q' && ATTEMPTS[17] == 'r' && COOLDOWN[17] == 'r';
    assert ATTEMPTS[31] == 'a' && COOLDOWN[31] == 'c';
  }

  lemma TimeRoundTrip(c: Codec, a: Annotations, key: string, t: nat)
    requires Faithful(c) && t % SECOND == 0
    ensures ReadTime(c, Get(PutTime(c, a, key, t), key)) == t
  {
  }

  /** Round trip: reading after a write gives the tracker back, its times cut to whole seconds unless the
      annotations already showed that very tracker; no other annotation changes. */
  lemma TrackerRoundTrip(c: Codec, a: Annotations, t: Tracker)
    requires Faithful(c) && Int64.Fits(t.attempts)
    ensures Read(c, Written(c, a, t)) == Stored(Read(c, a), t)
    ensures forall k :: k !in {LOSS_SINCE, ATTEMPTS, COOLDOWN} ==>
                (k in Written(c, a, t) <==> k in a) && Get(Written(c, a, t), k) == Get(a, k)
  {
    if Read(c, a) != t {
      KeysDiffer();
      var n := NormalTracker(t);
      var a1 := PutTime(c, a, LOSS_SINCE, n.lossSince);
      var a2 := PutAttempts(a1, n.attempts);
      TimeRoundTrip(c, a, LOSS_SINCE, n.lossSince);
      TimeRoundTrip(c, a2, COOLDOWN, n.cooldownUntil);
      AtoiDecimal(n.attempts);
      assert ReadAttempts(Get(a2, ATTEMPTS)) == n.attempts;
    }
  }

  /** A tracker of whole seconds comes back exactly. */
  lemma WholeTrackerRoundTrip(c: Codec, a: Annotations, t: Tracker)
    requires Faithful(c) && Int64.Fits(t.attempts)
    requires t.lossSince % SECOND == 0 && t.cooldownUntil % SECOND == 0
    ensures Read(c, Written(c, a, t)) == t
  {
    TrackerRoundTrip(c, a, t);
  }

  /** The cluster object whose annotations the write patches. */
  class ClusterObject {
    var annotations: Annotations

    constructor (annotations: Annotations)
      ensures this.annotations == annotations
    {
      this.annotations := annotations;
    }

    /** WriteSentinelResetTracker: a failed patch puts the old annotations back. */
    method Write(c: Codec, t: Tracker, patchOk: bool) returns (ok: bool)
      requires Faithful(c) && Int64.Fits(t.attempts)
      modifies this
      ensures ok <==> patchOk || old(Read(c, annotations)) == t
      ensures ok ==> annotations == Written(c, old(annotations), t)
      ensures ok ==> Read(c, annotations) == Stored(old(Read(c, annotations)), t)
      ensures !ok ==> annotations == old(annotations)
    {
      TrackerRoundTrip(c, annotations, t);
      var current := Read(c, annotations);
      if current == t {
        return true;
      }
      var base := annotations;
      var loss, cooldown := Normalize(t.lossSince), Normalize(t.cooldownUntil);
      if loss == 0 {
        annotations := annotations - {LOSS_SINCE};
      } else {
        annotations := annotations[LOSS_SINCE := c.format(loss)];
      }
      if t.attempts > 0 {
        annotations := annotations[ATTEMPTS := Decimal(t.attempts)];
      } else {
        annotations := annotations - {ATTEMPTS};
      }
      if cooldown != 0 {
        annotations := annotations[COOLDOWN := c.format(cooldown)];
      } else {
        annotations := annotations - {COOLDOWN};
      }
      ok := patchOk;
      if !ok {
        annotations := base;
      }
    }
  }
}
