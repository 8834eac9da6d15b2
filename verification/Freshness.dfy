/** The bootstrap candidate (ops/bootstrap/freshness.go). */
module Freshness {
  import opened Base
  import opened Network
  import opened Redis
  import opened Ordering
  import opened TopologySources

  /** What the pod and its volume say about the freshness of its data; one record per pod. */
  datatype FreshnessRecord = FreshnessRecord(
    podName: string, offset: int, updatedAt: int, lastRole: string, forced: bool)

  datatype CandidateSource = ForceMaster | Freshest | Seed

  datatype Candidate = Candidate(name: string, source: CandidateSource, offset: int, updatedAt: int)

  predicate WasMaster(r: FreshnessRecord) {
    Lower(r.lastRole) == "master"
  }

  /** The comparison of sortRecords. */
  predicate Fresher(a: FreshnessRecord, b: FreshnessRecord) {
    var i := Ordinal(a.podName);
    var j := Ordinal(b.podName);
    if a.offset != b.offset then a.offset > b.offset
    else if a.updatedAt != b.updatedAt then a.updatedAt > b.updatedAt
    else if WasMaster(a) != WasMaster(b) then WasMaster(a)
    else if i >= 0 && j >= 0 && i != j then i < j
    else Less(a.podName, b.podName)
  }

  predicate DistinctRecords(s: seq<FreshnessRecord>) {
    forall i, j :: 0 <= i < |s| && 0 <= j < |s| && s[i].podName == s[j].podName ==> s[i] == s[j]
  }

  /** Every name carries an ordinal, as StatefulSet pods do. */
  predicate AllOrdinals(s: seq<FreshnessRecord>) {
    forall i :: 0 <= i < |s| ==> Ordinal(s[i].podName) >= 0
  }

  lemma FresherIrreflexive(a: FreshnessRecord)
    ensures !Fresher(a, a)
  {
    LessIrreflexive(a.podName);
  }

  lemma FresherConnected(a: FreshnessRecord, b: FreshnessRecord)
    ensures a.podName == b.podName || Fresher(a, b) || Fresher(b, a)
  {
    LessConnected(a.podName, b.podName);
  }

  lemma FresherAsymmetric(a: FreshnessRecord, b: FreshnessRecord)
    requires Fresher(a, b)
    ensures !Fresher(b, a)
  {
    if Less(a.podName, b.podName) && Less(b.podName, a.podName) {
      LessTransitive(a.podName, b.podName, a.podName);
      LessIrreflexive(a.podName);
    }
  }

  lemma FresherTransitive(a: FreshnessRecord, b: FreshnessRecord, c: FreshnessRecord)
    requires Ordinal(a.podName) >= 0 && Ordinal(b.podName) >= 0 && Ordinal(c.podName) >= 0
    requires Fresher(a, b) && Fresher(b, c)
    ensures Fresher(a, c)
  {
    if Less(a.podName, b.podName) && Less(b.podName, c.podName) {
      LessTransitive(a.podName, b.podName, c.podName);
    }
  }

  function Bare(podName: string): FreshnessRecord {
    FreshnessRecord(podName, 0, 0, "", false)
  }

  /** Mixing names with and without an ordinal breaks the order: a before b by ordinal, but b before c and
      c before a by name. */
  lemma MixedNamesCycle(a: string, b: string, c: string)
    requires 0 <= Ordinal(a) < Ordinal(b) && Ordinal(c) < 0 && Less(b, c) && Less(c, a)
    ensures Fresher(Bare(a), Bare(b)) && Fresher(Bare(b), Bare(c)) && Fresher(Bare(c), Bare(a))
  {
  }

  lemma NoOrdinal(prefix: string)
    ensures Ordinal(prefix + "-1x") == -1
  {
    var name := prefix + "-1x";
    assert name[|prefix|] == '-' && name[|prefix| + 1] == '1' && name[|prefix| + 2] == 'x';
    assert LastIndex(name, '-') == |prefix|;
    assert name[|prefix| + 1..] == "1x" && "1x"[1..] == "x";
    assert FoldDigits("1x", 0) == FoldDigits("x", 1) == -1;
  }

  lemma DigitsOrder()
    ensures Decimal(2) == "2" && Decimal(10) == "10" && Less("10", "1x") && Less("1x", "2")
  {
    assert Decimal(10) == Decimal(1) + ['0'];
    assert "10"[1..] == "0" && "1x"[1..] == "x";
  }

  /** Under any prefix there are three pods of a cycle, one of them without an ordinal: -2, -10 and -1x. */
  lemma MixedNamesExist(prefix: string)
    ensures
      var a, b, c := Bare(prefix + "-2"), Bare(prefix + "-10"), Bare(prefix + "-1x");
      Fresher(a, b) && Fresher(b, c) && Fresher(c, a)
  {
    OrdinalOfPodName(prefix, 2);
    OrdinalOfPodName(prefix, 10);
    NoOrdinal(prefix);
    DigitsOrder();
    LessBehind(prefix + "-", "10", "1x");
    LessBehind(prefix + "-", "1x", "2");
    assert prefix + "-" + "1x" == prefix + "-1x";
    assert prefix + "-" + "10" == prefix + "-10" && prefix + "-" + "2" == prefix + "-2";
    MixedNamesCycle(prefix + "-2", prefix + "-10", prefix + "-1x");
  }

  /** A common prefix does not matter to the string order. */
  lemma {:induction false} LessBehind(prefix: string, a: string, b: string)
    ensures Less(prefix + a, prefix + b) <==> Less(a, b)
  {
    if prefix == "" {
      assert prefix + a == a && prefix + b == b;
    } else {
      assert (prefix + a)[1..] == prefix[1..] + a && (prefix + b)[1..] == prefix[1..] + b;
      LessBehind(prefix[1..], a, b);
    }
  }

  /** Equal in everything that comes before the names. */
  predicate Tied(a: FreshnessRecord, b: FreshnessRecord) {
    a.offset == b.offset && a.updatedAt == b.updatedAt && WasMaster(a) == WasMaster(b)
  }

  /** A name without an ordinal lies between two names that their ordinals order the other way round. */
  predicate Straddles(a: FreshnessRecord, b: FreshnessRecord, c: FreshnessRecord) {
    && Tied(a, b) && Tied(b, c)
    && 0 <= Ordinal(a.podName) < Ordinal(b.podName) && Ordinal(c.podName) < 0
    && Less(b.podName, c.podName) && Less(c.podName, a.podName)
  }

  lemma TransitiveUnlessStraddled(x: FreshnessRecord, y: FreshnessRecord, z: FreshnessRecord)
    requires Fresher(x, y) && Fresher(y, z)
    ensures Fresher(x, z) || Straddles(x, y, z) || Straddles(y, z, x) || Straddles(z, x, y)
  {
    LessConnected(x.podName, z.podName);
    if Less(x.podName, y.podName) && Less(y.podName, z.podName) {
      LessTransitive(x.podName, y.podName, z.podName);
    }
    if Less(x.podName, y.podName) && Less(z.podName, x.podName) {
      LessTransitive(z.podName, x.podName, y.podName);
    }
    if Less(y.podName, z.podName) && Less(z.podName, x.podName) {
      LessTransitive(y.podName, z.podName, x.podName);
    }
  }

  ghost predicate TransitiveOn(s: seq<FreshnessRecord>) {
    forall x, y, z :: x in s && y in s && z in s && Fresher(x, y) && Fresher(y, z) ==> Fresher(x, z)
  }

  /** The comparison is transitive on a list exactly when no name without an ordinal straddles two others. */
  lemma TransitiveIff(s: seq<FreshnessRecord>)
    ensures TransitiveOn(s) <==> forall a, b, c :: a in s && b in s && c in s ==> !Straddles(a, b, c)
  {
    if TransitiveOn(s) {
      forall a, b, c | a in s && b in s && c in s ensures !Straddles(a, b, c) {
        if Straddles(a, b, c) {
          assert Fresher(a, b) && Fresher(b, c) && Fresher(c, a);
          FresherAsymmetric(c, a);
        }
      }
    }
    if forall a, b, c :: a in s && b in s && c in s ==> !Straddles(a, b, c) {
      forall x, y, z | x in s && y in s && z in s && Fresher(x, y) && Fresher(y, z) ensures Fresher(x, z) {
        TransitiveUnlessStraddled(x, y, z);
      }
    }
  }

  /** The comparison orders the pods of a StatefulSet. */
  lemma OrdinalsTransitive(s: seq<FreshnessRecord>)
    requires AllOrdinals(s)
    ensures TransitiveOn(s)
  {
    forall x, y, z | x in s && y in s && z in s && Fresher(x, y) && Fresher(y, z) ensures Fresher(x, z) {
      FresherTransitive(x, y, z);
    }
  }

  lemma OrderedWeakly(s: seq<FreshnessRecord>)
    requires DistinctRecords(s) && TransitiveOn(s)
    ensures WeakOrderOn(s, Fresher)
  {
    forall x | x in s ensures !Fresher(x, x) { FresherIrreflexive(x); }
    forall x, y | x in s && y in s && Fresher(x, y) ensures !Fresher(y, x) { FresherAsymmetric(x, y); }
    forall x, y, z | x in s && y in s && z in s && !Fresher(x, y) && !Fresher(y, z) ensures !Fresher(x, z) {
      FresherConnected(x, y);
      FresherConnected(y, z);
      if x.podName != y.podName && y.podName != z.podName {
        FresherAsymmetric(z, x);
      }
    }
  }

  /** r precedes every other record of the list. */
  ghost predicate IsBest(r: FreshnessRecord, s: seq<FreshnessRecord>) {
    r in s && forall q :: q in s && q != r ==> Fresher(r, q)
  }

  lemma SortedHeadIsBest(s: seq<FreshnessRecord>)
    requires s != [] && DistinctRecords(s) && TransitiveOn(s)
    ensures IsBest(SortBy(s, Fresher)[0], s)
  {
    var r := SortBy(s, Fresher);
    OrderedWeakly(s);
    SortBySorted(s, Fresher);
    SameElement(s, r, r[0]);
    forall q | q in s && q != r[0] ensures Fresher(r[0], q) {
      SameElement(s, r, q);
      var j :| 0 <= j < |r| && r[j] == q;
      FresherConnected(r[0], q);
    }
  }

  predicate AnyForced(s: seq<FreshnessRecord>) {
    exists i :: 0 <= i < |s| && s[i].forced
  }

  function PodNames(s: seq<FreshnessRecord>): set<string> {
    set r | r in s :: r.podName
  }

  /** The records a forced pod competes with: the forced ones if there are any, else all. */
  ghost predicate InClass(s: seq<FreshnessRecord>, r: FreshnessRecord) {
    r in s && (AnyForced(s) ==> r.forced)
  }

  /** Reference definition of the choice: the best record of the class, or the least name when no record
      of an unforced list has a positive offset. */
  ghost predicate IsChoice(s: seq<FreshnessRecord>, c: Candidate) {
    if c.source == Seed then
      && !AnyForced(s) && (forall r :: r in s ==> r.offset <= 0)
      && IsLeast(c.name, PodNames(s)) && c.offset == 0 && c.updatedAt == 0
    else
      && (c.source == ForceMaster <==> AnyForced(s))
      && exists r :: InClass(s, r) && (AnyForced(s) || r.offset > 0)
                     && c.name == r.podName && c.offset == r.offset && c.updatedAt == r.updatedAt
                     && forall q :: InClass(s, q) && q != r ==> Fresher(r, q)
  }

  /** The forced records, in order. */
  method ForcedRecords(s: seq<FreshnessRecord>) returns (forced: seq<FreshnessRecord>)
    ensures forall r :: r in forced <==> r in s && r.forced
  {
    forced := [];
    var k := 0;
    while k < |s|
      invariant 0 <= k <= |s|
      invariant forall r :: r in forced ==> r in s && r.forced
      invariant forall i :: 0 <= i < k && s[i].forced ==> s[i] in forced
    {
      if s[k].forced {
        forced := forced + [s[k]];
      }
      k := k + 1;
    }
  }

  lemma SublistOrdered(s: seq<FreshnessRecord>, t: seq<FreshnessRecord>)
    requires DistinctRecords(s) && TransitiveOn(s) && forall r :: r in t ==> r in s
    ensures DistinctRecords(t) && TransitiveOn(t)
  {
    forall i, j | 0 <= i < |t| && 0 <= j < |t| && t[i].podName == t[j].podName ensures t[i] == t[j] {
      assert t[i] in s && t[j] in s;
    }
  }

  /** SelectCandidate: the choice wherever the comparison orders the records. */
  method SelectCandidate(s: seq<FreshnessRecord>) returns (c: Option<Candidate>)
    ensures c.None? <==> s == []
    ensures c.Some? ==> c.value.name in PodNames(s)
    ensures c.Some? && DistinctRecords(s) && TransitiveOn(s) ==> IsChoice(s, c.value)
  {
    if s == [] {
      return None;
    }
    var forced := ForcedRecords(s);
    if forced != [] {
      assert forced[0] in s && AnyForced(s);
      var best := SortBy(forced, Fresher)[0];
      SameElement(forced, SortBy(forced, Fresher), best);
      if DistinctRecords(s) && TransitiveOn(s) {
        SublistOrdered(s, forced);
        SortedHeadIsBest(forced);
        assert InClass(s, best);
      }
      return Some(Candidate(best.podName, ForceMaster, best.offset, best.updatedAt));
    }
    assert !AnyForced(s);
    var best := SortBy(s, Fresher)[0];
    SameElement(s, SortBy(s, Fresher), best);
    if DistinctRecords(s) && TransitiveOn(s) {
      SortedHeadIsBest(s);
    }
    if best.offset > 0 {
      assert InClass(s, best);
      return Some(Candidate(best.podName, Freshest, best.offset, best.updatedAt));
    }
    var seed := LeastName(s);
    return Some(Candidate(seed, Seed, 0, 0));
  }

  method LeastName(s: seq<FreshnessRecord>) returns (name: string)
    requires s != []
    ensures IsLeast(name, PodNames(s))
  {
    var names := seq(|s|, i requires 0 <= i < |s| => s[i].podName);
    forall n ensures n in names <==> n in PodNames(s) {
      if n in names { var i :| 0 <= i < |names| && names[i] == n; assert s[i] in s; }
      if n in PodNames(s) {
        var r :| r in s && r.podName == n;
        var i :| 0 <= i < |s| && s[i] == r;
        assert names[i] == n;
      }
    }
    SortedHeadIsLeast(names, PodNames(s));
    name := SortBy(names, Less)[0];
  }

  /** The choice depends on the records alone, not on the order the pods are listed in. */
  lemma ChoiceIgnoresOrder(s: seq<FreshnessRecord>, t: seq<FreshnessRecord>, c: Candidate, d: Candidate)
    requires forall r :: r in s <==> r in t
    requires IsChoice(s, c) && IsChoice(t, d)
    ensures c == d
  {
    assert AnyForced(s) <==> AnyForced(t) by {
      if AnyForced(s) { var i :| 0 <= i < |s| && s[i].forced; assert s[i] in t; }
      if AnyForced(t) { var i :| 0 <= i < |t| && t[i].forced; assert t[i] in s; }
    }
    assert forall r :: InClass(s, r) <==> InClass(t, r);
    if c.source == Seed && d.source == Seed {
      assert PodNames(s) == PodNames(t);
      if c.name != d.name {
        LessTransitive(c.name, d.name, c.name);
        LessIrreflexive(c.name);
      }
    } else if c.source != Seed && d.source != Seed {
      var r :| InClass(s, r) && (AnyForced(s) || r.offset > 0) && c.name == r.podName && c.offset == r.offset &&
        c.updatedAt == r.updatedAt && forall q :: InClass(s, q) && q != r ==> Fresher(r, q);
      var q :| InClass(t, q) && (AnyForced(t) || q.offset > 0) && d.name == q.podName && d.offset == q.offset &&
        d.updatedAt == q.updatedAt && forall p :: InClass(t, p) && p != q ==> Fresher(q, p);
      if r != q {
        FresherAsymmetric(r, q);
      }
    }
  }

  /** A forced pod always beats an unforced one, and no pod of the winner's class has a higher offset. */
  lemma WinnerLeads(s: seq<FreshnessRecord>, c: Candidate, q: FreshnessRecord)
    requires IsChoice(s, c) && InClass(s, q)
    ensures AnyForced(s) ==> exists r :: r in s && r.forced && r.podName == c.name
    ensures q.offset <= c.offset
  {
  }
}
