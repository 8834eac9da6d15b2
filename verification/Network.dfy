/** Pod names, ordinals and DNS names (core/network.go), and host matching (replication.go). */
module Network {
  import opened Base
  import Int64

  /** The identity of a KeyValCluster. */
  datatype Cluster = Cluster(name: string, namespace: string)

  predicate IsDigit(c: char) {
    '0' <= c <= '9'
  }

  predicate AllDigits(s: string) {
    forall i :: 0 <= i < |s| ==> IsDigit(s[i])
  }

  function DigitValue(c: char): int
    requires IsDigit(c)
  {
    (c - '0') as int
  }

  /** The digit loop of Ordinal: -1 on the first character that is not a digit. */
  function FoldDigits(s: string, acc: int): int {
    if s == "" then acc
    else if !IsDigit(s[0]) then -1
    else FoldDigits(s[1..], Int64.Wrap(acc * 10 + DigitValue(s[0])))
  }

  /** The position of the last c, or -1. */
  function LastIndex(s: string, c: char): (i: int)
    ensures -1 <= i < |s|
    ensures i >= 0 ==> s[i] == c
    ensures forall k :: i < k < |s| ==> s[k] != c
  {
    if s == "" then -1
    else if s[|s| - 1] == c then |s| - 1
    else LastIndex(s[..|s| - 1], c)
  }

  /** The position of the first c, or -1. */
  function FirstIndex(s: string, c: char): (i: int)
    ensures -1 <= i < |s|
    ensures i >= 0 ==> s[i] == c && forall k :: 0 <= k < i ==> s[k] != c
    ensures i < 0 ==> forall k :: 0 <= k < |s| ==> s[k] != c
  {
    if s == "" then -1
    else if s[0] == c then 0
    else
      var rest := FirstIndex(s[1..], c);
      assert forall k :: 0 < k < |s| ==> s[k] == s[1..][k - 1];
      if rest < 0 then -1 else rest + 1
  }

  function Ordinal(name: string): int {
    var i := LastIndex(name, '-');
    if i < 0 || i + 1 >= |name| then -1 else FoldDigits(name[i + 1..], 0)
  }

  /** The loop as the source writes it. */
  method ParseOrdinal(name: string) returns (n: int)
    ensures n == Ordinal(name)
  {
    var i := LastIndex(name, '-');
    if i < 0 || i + 1 >= |name| {
      return -1;
    }
    var digits := name[i + 1..];
    n := 0;
    var k := 0;
    while k < |digits|
      invariant 0 <= k <= |digits|
      invariant Ordinal(name) == FoldDigits(digits[k..], n)
    {
      if !IsDigit(digits[k]) {
        return -1;
      }
      n := Int64.Wrap(n * 10 + DigitValue(digits[k]));
      assert digits[k..][1..] == digits[k + 1..];
      k := k + 1;
    }
  }

  /** The %d rendering of a natural number. */
  function Decimal(n: nat): (s: string)
    ensures |s| > 0 && AllDigits(s)
  {
    var d := ['0' + (n % 10) as char];
    if n < 10 then d else Decimal(n / 10) + d
  }

  lemma {:induction false} FoldDigitsAppend(s: string, c: char, acc: int)
    requires AllDigits(s) && IsDigit(c)
    ensures FoldDigits(s + [c], acc) == Int64.Wrap(FoldDigits(s, acc) * 10 + DigitValue(c))
  {
    if s == "" {
      assert (s + [c])[1..] == "";
    } else {
      assert (s + [c])[1..] == s[1..] + [c];
      FoldDigitsAppend(s[1..], c, Int64.Wrap(acc * 10 + DigitValue(s[0])));
    }
  }

  /** Reading a rendered ordinal gives it back, as long as it fits a 64-bit int. */
  lemma {:induction false} FoldDigitsDecimal(n: nat)
    requires n < Int64.HALF
    ensures FoldDigits(Decimal(n), 0) == n
  {
    var c := '0' + (n % 10) as char;
    assert IsDigit(c) && DigitValue(c) == n % 10;
    if n < 10 {
      assert Decimal(n) == "" + [c];
      FoldDigitsAppend("", c, 0);
    } else {
      FoldDigitsDecimal(n / 10);
      FoldDigitsAppend(Decimal(n / 10), c, 0);
    }
  }

  function PodName(cluster: string, ordinal: nat): string {
    cluster + "-" + Decimal(ordinal)
  }

  /** The ordinal of a StatefulSet pod name is the number it was built from. */
  lemma OrdinalOfPodName(cluster: string, n: nat)
    requires n < Int64.HALF
    ensures Ordinal(PodName(cluster, n)) == n
  {
    var name := PodName(cluster, n);
    var i := LastIndex(name, '-');
    assert name[|cluster|] == '-';
    assert forall k :: |cluster| < k < |name| ==> name[k] == Decimal(n)[k - |cluster| - 1];
    assert i == |cluster|;
    assert name[i + 1..] == Decimal(n);
    FoldDigitsDecimal(n);
  }

  function HeadlessName(c: Cluster): string {
    c.name + "-headless"
  }

  function PodFQDN(c: Cluster, ordinal: nat): string {
    PodName(c.name, ordinal) + "." + HeadlessName(c) + "." + c.namespace + ".svc"
  }

  function PodDNSName(c: Cluster, podName: string): string {
    var ord := Ordinal(podName);
    if ord >= 0 then PodFQDN(c, ord)
    else podName + "." + HeadlessName(c) + "." + c.namespace + ".svc"
  }

  /** The pod named by the first DNS label of the host, or the empty string. */
  function MatchPodByHost(pods: seq<Pod>, host: string): (name: string)
    ensures name != "" ==> HasPod(pods, name)
  {
    var i := FirstIndex(host, '.');
    if i > 0 && HasPod(pods, host[..i]) then host[..i] else ""
  }

  /** A host resolves to a pod exactly when the pod is listed and is the host's first label, a dot behind it. */
  lemma MatchIsFirstLabel(pods: seq<Pod>, host: string, name: string)
    requires name != ""
    ensures MatchPodByHost(pods, host) == name <==>
              HasPod(pods, name) && NoDot(name) && |name| < |host| && host[..|name|] == name && host[|name|] == '.'
  {
    var i := FirstIndex(host, '.');
    if NoDot(name) && |name| < |host| && host[..|name|] == name && host[|name|] == '.' {
      assert forall k :: 0 <= k < |name| ==> host[k] == name[k];
      assert i == |name|;
    }
  }

  predicate HostMatchesMaster(host: string, masterName: string, masterIP: string, pods: seq<Pod>) {
    host != "" &&
    (host == masterName || (masterIP != "" && host == masterIP) || MatchPodByHost(pods, host) == masterName)
  }

  predicate NoDot(s: string) {
    forall i :: 0 <= i < |s| ==> s[i] != '.'
  }

  lemma FirstLabel(head: string, rest: string)
    requires NoDot(head)
    ensures FirstIndex(head + "." + rest, '.') == |head|
    ensures (head + "." + rest)[..|head|] == head
  {
    var s := head + "." + rest;
    assert s[|head|] == '.';
    assert forall k :: 0 <= k < |head| ==> s[k] == head[k];
  }

  /** A pod name the operator can turn into a DNS name and back. */
  predicate CanonicalName(c: Cluster, podName: string) {
    podName != "" && NoDot(podName) && (Ordinal(podName) >= 0 ==> podName == PodName(c.name, Ordinal(podName)))
  }

  /** Exactly the canonical names survive the trip through DNS. */
  lemma DNSNameMapsBack(c: Cluster, pods: seq<Pod>, podName: string)
    requires NoDot(c.name)
    requires HasPod(pods, podName) && podName != "" && NoDot(podName)
    ensures MatchPodByHost(pods, PodDNSName(c, podName)) == podName <==> CanonicalName(c, podName)
  {
    var ord := Ordinal(podName);
    var head := if ord >= 0 then PodName(c.name, ord) else podName;
    var rest := HeadlessName(c) + "." + c.namespace + ".svc";
    assert NoDot(head) by {
      if ord >= 0 {
        assert forall i :: 0 <= i < |Decimal(ord)| ==> Decimal(ord)[i] != '.';
      }
    }
    assert PodDNSName(c, podName) == head + "." + rest;
    FirstLabel(head, rest);
  }

  /** Every StatefulSet pod of a cluster without a dot in its name is canonical. */
  lemma StatefulSetNamesCanonical(c: Cluster, n: nat)
    requires NoDot(c.name) && n < Int64.HALF
    ensures CanonicalName(c, PodName(c.name, n))
  {
    OrdinalOfPodName(c.name, n);
    assert forall i :: 0 <= i < |Decimal(n)| ==> Decimal(n)[i] != '.';
  }

  /** No name with a leading zero in its ordinal survives: its DNS name is that of the pod without the zero. */
  lemma LeadingZeroLost(c: Cluster, n: nat)
    requires n < Int64.HALF
    ensures
      var name := c.name + "-0" + Decimal(n);
      !CanonicalName(c, name) && PodDNSName(c, name) == PodDNSName(c, PodName(c.name, n))
  {
    LeadingZeroIgnored(c.name, n);
    OrdinalOfPodName(c.name, n);
    assert |PodName(c.name, n)| < |c.name + "-0" + Decimal(n)|;
  }

  lemma LeadingZeroIgnored(prefix: string, n: nat)
    requires n < Int64.HALF
    ensures Ordinal(prefix + "-0" + Decimal(n)) == n
  {
    var name, digits := prefix + "-0" + Decimal(n), "0" + Decimal(n);
    assert name[|prefix|] == '-' && name[|prefix| + 1..] == digits;
    assert forall k :: |prefix| < k < |name| ==> name[k] == digits[k - |prefix| - 1];
    assert LastIndex(name, '-') == |prefix|;
    assert digits[1..] == Decimal(n);
    FoldDigitsDecimal(n);
  }
}
