/** Go's string order and the sorted lists built with a comparison function. */
module Ordering {

  /** a < b on strings, compared element by element. */
  predicate Less(a: string, b: string) {
    |b| > 0 && (|a| == 0 || a[0] < b[0] || (a[0] == b[0] && Less(a[1..], b[1..])))
  }

  lemma {:induction false} LessIrreflexive(a: string)
    ensures !Less(a, a)
  {
    if a != "" { LessIrreflexive(a[1..]); }
  }

  lemma {:induction false} LessTransitive(a: string, b: string, c: string)
    requires Less(a, b) && Less(b, c)
    ensures Less(a, c)
  {
    if a != "" && a[0] == b[0] == c[0] { LessTransitive(a[1..], b[1..], c[1..]); }
  }

  lemma {:induction false} LessConnected(a: string, b: string)
    ensures a == b || Less(a, b) || Less(b, a)
  {
    if a != "" && b != "" && a[0] == b[0] {
      LessConnected(a[1..], b[1..]);
      if a[1..] == b[1..] { assert a == [a[0]] + a[1..] == b; }
    }
  }

  /** No later element belongs before an earlier one. */
  ghost predicate Sorted<T>(s: seq<T>, less: (T, T) -> bool) {
    forall i, j :: 0 <= i < j < |s| ==> !less(s[j], s[i])
  }

  /** The comparison is a strict weak order on the elements of s. */
  ghost predicate WeakOrderOn<T>(s: seq<T>, less: (T, T) -> bool) {
    && (forall x :: x in s ==> !less(x, x))
    && (forall x, y :: x in s && y in s && less(x, y) ==> !less(y, x))
    && (forall x, y, z :: x in s && y in s && z in s && !less(x, y) && !less(y, z) ==> !less(x, z))
  }

  /** Inserts x behind every element it does not precede, so equal elements keep their order. */
  function Insert<T>(s: seq<T>, x: T, less: (T, T) -> bool): (r: seq<T>)
    ensures |r| == |s| + 1
    ensures multiset(r) == multiset(s) + multiset{x}
  {
    if s == [] then [x]
    else
      var n := |s| - 1;
      assert s == s[..n] + [s[n]];
      if less(x, s[n]) then Insert(s[..n], x, less) + [s[n]] else s + [x]
  }

  /** Stable insertion sort, which is what Go's sort package uses on short slices. */
  function SortBy<T>(s: seq<T>, less: (T, T) -> bool): (r: seq<T>)
    ensures |r| == |s|
    ensures multiset(r) == multiset(s)
  {
    if s == [] then []
    else
      var n := |s| - 1;
      assert s == s[..n] + [s[n]];
      Insert(SortBy(s[..n], less), s[n], less)
  }

  /** What precedes neither of two parts precedes nothing of the whole. */
  lemma AppendSorted<T>(s: seq<T>, x: T, less: (T, T) -> bool)
    requires Sorted(s, less) && forall i :: 0 <= i < |s| ==> !less(x, s[i])
    ensures Sorted(s + [x], less)
  {
  }

  lemma {:induction false} InsertSorted<T>(s: seq<T>, x: T, less: (T, T) -> bool)
    requires Sorted(s, less)
    requires WeakOrderOn(s + [x], less)
    ensures Sorted(Insert(s, x, less), less)
  {
    if s != [] {
      var n := |s| - 1;
      assert s[n] in s + [x] && x in s + [x];
      if less(x, s[n]) {
        assert forall y :: y in s[..n] + [x] ==> y in s + [x];
        InsertSorted(s[..n], x, less);
        var r := Insert(s[..n], x, less);
        forall i | 0 <= i < |r| ensures !less(s[n], r[i]) {
          SameElement(s[..n] + [x], r, r[i]);
          assert r[i] in r;
        }
        AppendSorted(r, s[n], less);
      } else {
        forall i | 0 <= i < |s| ensures !less(x, s[i]) {
          assert s[i] in s + [x];
          if i < n { assert !less(s[n], s[i]); }
        }
        AppendSorted(s, x, less);
      }
    }
  }

  lemma {:induction false} SortBySorted<T>(s: seq<T>, less: (T, T) -> bool)
    requires WeakOrderOn(s, less)
    ensures Sorted(SortBy(s, less), less)
  {
    if s != [] {
      var n := |s| - 1;
      var r := SortBy(s[..n], less);
      SortBySorted(s[..n], less);
      forall y | y in r + [s[n]] ensures y in s {
        if y in r { SameElement(s[..n], r, y); }
      }
      InsertSorted(r, s[n], less);
    }
  }

  lemma SameElement<T>(s: seq<T>, r: seq<T>, x: T)
    requires multiset(s) == multiset(r)
    ensures x in s <==> x in r
  {
    assert x in s <==> x in multiset(s);
    assert x in r <==> x in multiset(r);
  }

  /** An element at two places occurs twice. */
  lemma TwiceIfRepeated<T>(s: seq<T>, i: nat, j: nat)
    requires i < j < |s|
    ensures s[i] == s[j] ==> multiset(s)[s[i]] >= 2
  {
    assert s == s[..j] + [s[j]] + s[j + 1..];
    assert s[i] in s[..j];
  }
}
