/** Requeue hints folded into one delay: the accumulator of a reconcile (reconcile/util.go) and the result of a
    volume resize (ops/storage/storage.go). Durations are nanoseconds; zero means none. */
module Requeue {
  import opened Base

  const DEFAULT_WAIT := 5 * SECOND
  const DEFAULT_THROTTLE := 300 * SECOND

  ghost predicate IsLargest(s: set<int>, x: int) {
    if s == {} then x == 0 else x in s && forall y :: y in s ==> y <= x
  }

  ghost predicate IsSmallest(s: set<int>, x: int) {
    if s == {} then x == 0 else x in s && forall y :: y in s ==> x <= y
  }

  ghost predicate Positive(s: set<int>) {
    forall x :: x in s ==> x > 0
  }

  // ---- the accumulator ----

  /** d is the larger of the largest floor and the smallest candidate, or the floor when there is no candidate. */
  ghost predicate IsDelay(floors: set<int>, candidates: set<int>, d: int) {
    exists f, c :: IsLargest(floors, f) && IsSmallest(candidates, c) && d == if c > f then c else f
  }

  lemma SmallestGrows(s: set<int>, x: int, d: int)
    requires IsSmallest(s, x) && Positive(s) && d > 0
    ensures IsSmallest(s + {d}, if s == {} || d < x then d else x)
  {
  }

  lemma LargestGrows(s: set<int>, x: int, d: int)
    requires IsLargest(s, x) && Positive(s) && d > 0
    ensures IsLargest(s + {d}, if d > x then d else x)
  {
  }

  /** The sets of hints determine the delay: neither order nor repetition matters. */
  lemma DelayUnique(floors: set<int>, candidates: set<int>, d: int, e: int)
    requires IsDelay(floors, candidates, d) && IsDelay(floors, candidates, e)
    ensures d == e
  {
  }

  class RequeueAccumulator {
    var min: int
    var next: int
    ghost var floors: set<int>
    ghost var candidates: set<int>

    /** The fields remember only what matters of the hints so far. */
    ghost predicate Valid()
      reads this
    {
      && Positive(floors) && Positive(candidates)
      && IsLargest(floors, min)
      && (if candidates == {} then next == 0 else IsDelay(floors, candidates, next))
    }

    constructor ()
      ensures Valid() && floors == {} && candidates == {}
    {
      min, next, floors, candidates := 0, 0, {}, {};
    }

    /** The floor and the candidate the fields stand for. */
    lemma Hints() returns (f: int, c: int)
      requires Valid()
      ensures IsLargest(floors, f) && f == min
      ensures IsSmallest(candidates, c) && next == if candidates == {} then 0 else if c > f then c else f
    {
      f := min;
      if candidates == {} {
        c := 0;
      } else {
        f, c :| IsLargest(floors, f) && IsSmallest(candidates, c) && next == if c > f then c else f;
      }
    }

    method Set(d: int)
      requires Valid()
      modifies this
      ensures Valid() && floors == old(floors) && candidates == old(candidates) + (if d > 0 then {d} else {})
    {
      if d <= 0 {
        return;
      }
      ghost var f, c := Hints();
      if next == 0 || d < next {
        next := d;
      }
      if min > 0 && next < min {
        next := min;
      }
      SmallestGrows(candidates, c, d);
      candidates := candidates + {d};
    }

    method SetMin(d: int)
      requires Valid()
      modifies this
      ensures Valid() && candidates == old(candidates) && floors == old(floors) + (if d > 0 then {d} else {})
    {
      if d <= 0 {
        return;
      }
      ghost var f, c := Hints();
      if min == 0 || d > min {
        min := d;
      }
      if next > 0 && next < min {
        next := min;
      }
      LargestGrows(floors, f, d);
      floors := floors + {d};
    }

    method Result() returns (d: int)
      requires Valid()
      ensures IsDelay(floors, candidates, d)
    {
      ghost var f, c := Hints();
      if next == 0 {
        return min;
      }
      if min > 0 && next < min {
        return min;
      }
      d := next;
    }
  }

  datatype Hint = Candidate(d: int) | Floor(d: int)

  function FloorsOf(hints: seq<Hint>): set<int> {
    set h | h in hints && h.Floor? && h.d > 0 :: h.d
  }

  function CandidatesOf(hints: seq<Hint>): set<int> {
    set h | h in hints && h.Candidate? && h.d > 0 :: h.d
  }

  lemma HintsSnoc(hints: seq<Hint>, i: nat)
    requires i < |hints|
    ensures FloorsOf(hints[..i + 1]) == FloorsOf(hints[..i]) +
            if hints[i].Floor? && hints[i].d > 0 then {hints[i].d} else {}
    ensures CandidatesOf(hints[..i + 1]) == CandidatesOf(hints[..i]) +
            if hints[i].Candidate? && hints[i].d > 0 then {hints[i].d} else {}
  {
    assert hints[..i + 1] == hints[..i] + [hints[i]];
  }

  /** Any sequence of hints gives the delay its sets call for. */
  method Drive(hints: seq<Hint>) returns (d: int)
    ensures IsDelay(FloorsOf(hints), CandidatesOf(hints), d)
  {
    var a := new RequeueAccumulator();
    for i := 0 to |hints|
      invariant a.Valid() && a.floors == FloorsOf(hints[..i]) && a.candidates == CandidatesOf(hints[..i])
    {
      HintsSnoc(hints, i);
      match hints[i] {
        case Candidate(e) => a.Set(e);
        case Floor(e) => a.SetMin(e);
      }
    }
    assert hints[..|hints|] == hints;
    d := a.Result();
  }

  /** The same hints in another order, or some of them again, give the same delay. */
  lemma OrderIrrelevant(a: seq<Hint>, b: seq<Hint>, d: int, e: int)
    requires forall h :: h in a <==> h in b
    requires IsDelay(FloorsOf(a), CandidatesOf(a), d) && IsDelay(FloorsOf(b), CandidatesOf(b), e)
    ensures d == e
  {
    assert FloorsOf(a) == FloorsOf(b) && CandidatesOf(a) == CandidatesOf(b);
    DelayUnique(FloorsOf(a), CandidatesOf(a), d, e);
  }

  // ---- the resize result ----

  function WaitOf(d: int): int {
    if d <= 0 then DEFAULT_WAIT else d
  }

  function ThrottleOf(d: int): int {
    if d <= 0 then DEFAULT_THROTTLE else d
  }

  /** The largest throttle if there is one, else the smallest wait. */
  ghost predicate IsResizeDelay(waits: set<int>, throttles: set<int>, d: int) {
    if throttles != {} then IsLargest(throttles, d) else IsSmallest(waits, d)
  }

  lemma ResizeDelayUnique(waits: set<int>, throttles: set<int>, d: int, e: int)
    requires IsResizeDelay(waits, throttles, d) && IsResizeDelay(waits, throttles, e)
    ensures d == e
  {
  }

  function MinDuration(current: int, candidate: int): int {
    if current == 0 then candidate
    else if candidate == 0 then current
    else if candidate < current then candidate
    else current
  }

  class ResizeResult {
    var waiting: bool
    var pending: seq<string>
    var requeueAfter: int
    var minRequeueAfter: int
    ghost var waits: set<int>
    ghost var throttles: set<int>

    ghost predicate Valid()
      reads this
    {
      && Positive(waits) && Positive(throttles)
      && IsLargest(throttles, minRequeueAfter)
      && IsResizeDelay(waits, throttles, requeueAfter)
      && (waiting <==> waits + throttles != {})
    }

    constructor ()
      ensures Valid() && !waiting && pending == [] && waits == {} && throttles == {}
    {
      waiting, pending, requeueAfter, minRequeueAfter, waits, throttles := false, [], 0, 0, {}, {};
    }

    /** The body of markWaiting, before its candidate is put on record. */
    method Fold(pvc: string, candidate: int)
      requires minRequeueAfter >= 0 && requeueAfter >= 0
      modifies `waiting, `pending, `requeueAfter
      ensures waiting && pending == old(pending) + (if pvc != "" then [pvc] else [])
      ensures var c := if WaitOf(candidate) < minRequeueAfter then minRequeueAfter else WaitOf(candidate);
              requeueAfter == if minRequeueAfter > MinDuration(old(requeueAfter), c) then minRequeueAfter
                              else MinDuration(old(requeueAfter), c)
    {
      waiting := true;
      if pvc != "" {
        pending := pending + [pvc];
      }
      var c := WaitOf(candidate);
      if minRequeueAfter > 0 && c < minRequeueAfter {
        c := minRequeueAfter;
      }
      requeueAfter := MinDuration(requeueAfter, c);
      if minRequeueAfter > 0 && requeueAfter < minRequeueAfter {
        requeueAfter := minRequeueAfter;
      }
    }

    method MarkWaiting(pvc: string, candidate: int)
      requires Valid()
      modifies this
      ensures Valid() && waiting && pending == old(pending) + (if pvc != "" then [pvc] else [])
      ensures waits == old(waits) + {WaitOf(candidate)} && throttles == old(throttles)
    {
      if throttles == {} {
        SmallestGrows(waits, requeueAfter, WaitOf(candidate));
      }
      Fold(pvc, candidate);
      waits := waits + {WaitOf(candidate)};
    }

    method ApplyThrottle(pvc: string, backoff: int)
      requires Valid()
      modifies this
      ensures Valid() && waiting && pending == old(pending) + (if pvc != "" then [pvc] else [])
      ensures throttles == old(throttles) + {ThrottleOf(backoff)} && waits == old(waits)
    {
      var b := ThrottleOf(backoff);
      LargestGrows(throttles, minRequeueAfter, b);
      if b > minRequeueAfter {
        minRequeueAfter := b;
      }
      if b > requeueAfter {
        requeueAfter := b;
      }
      Fold(pvc, b);
      throttles := throttles + {b};
    }
  }

  datatype ResizeHint = Wait(pvc: string, d: int) | Throttle(pvc: string, d: int)

  function WaitsOf(hints: seq<ResizeHint>): set<int> {
    set h | h in hints && h.Wait? :: WaitOf(h.d)
  }

  function ThrottlesOf(hints: seq<ResizeHint>): set<int> {
    set h | h in hints && h.Throttle? :: ThrottleOf(h.d)
  }

  lemma ResizeHintsSnoc(hints: seq<ResizeHint>, i: nat)
    requires i < |hints|
    ensures WaitsOf(hints[..i + 1]) == WaitsOf(hints[..i]) + if hints[i].Wait? then {WaitOf(hints[i].d)} else {}
    ensures ThrottlesOf(hints[..i + 1]) == ThrottlesOf(hints[..i]) +
            if hints[i].Throttle? then {ThrottleOf(hints[i].d)} else {}
  {
    assert hints[..i + 1] == hints[..i] + [hints[i]];
  }

  /** Any sequence of waits and throttles gives the delay its sets call for, and waits iff there was one. */
  method DriveResize(hints: seq<ResizeHint>) returns (d: int, waiting: bool)
    ensures IsResizeDelay(WaitsOf(hints), ThrottlesOf(hints), d)
    ensures waiting <==> hints != []
  {
    var r := new ResizeResult();
    for i := 0 to |hints|
      invariant r.Valid() && r.waits == WaitsOf(hints[..i]) && r.throttles == ThrottlesOf(hints[..i])
      invariant r.waiting <==> i > 0
    {
      ResizeHintsSnoc(hints, i);
      match hints[i] {
        case Wait(pvc, e) => r.MarkWaiting(pvc, e);
        case Throttle(pvc, e) => r.ApplyThrottle(pvc, e);
      }
    }
    assert hints[..|hints|] == hints;
    d, waiting := r.requeueAfter, r.waiting;
  }
}
