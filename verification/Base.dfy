/** The entities every phase of a reconcile shares: pods, roles, health and the lists they come in. */
module Base {

  datatype Option<+T> = None | Some(value: T)

  datatype Mode = Standalone | SentinelMode

  /** A role, either as a pod label or as an entry of the roles map; `Unset` is the missing key. */
  datatype Role = Unset | Master | Replica | SentinelRole | OtherRole(text: string)

  /** `Unknown` is the missing key of the health map. */
  datatype Health = Unknown | Healthy | Lagging | Desynced | Offline

  datatype Container = Container(
    name: string, image: string,
    limits: map<string, int>, requests: map<string, int>,
    ports: seq<(string, int)>, args: seq<string>)

  /** The part of a pod the operator reads. `ready` is the Ready condition, `terminating` a set deletion
      timestamp, the empty string a missing annotation or IP, `version` the resource version. */
  datatype Pod = Pod(
    name: string, ip: string, ready: bool, terminating: bool, role: Role, version: nat,
    configHash: string, tlsHash: string, containers: seq<Container>, selector: map<string, string>)

  predicate DistinctNames(pods: seq<Pod>) {
    forall i, j :: 0 <= i < j < |pods| ==> pods[i].name != pods[j].name
  }

  /** A list of pods of one namespace: the API server keeps names unique. */
  type PodList = pods: seq<Pod> | DistinctNames(pods)

  function Names(pods: seq<Pod>): set<string> {
    set p | p in pods :: p.name
  }

  predicate HasPod(pods: seq<Pod>, name: string) {
    exists i :: 0 <= i < |pods| && pods[i].name == name
  }

  /** The first pod of that name. */
  function FindPod(pods: seq<Pod>, name: string): (found: Option<Pod>)
    ensures found.Some? <==> HasPod(pods, name)
    ensures found.Some? ==> found.value in pods && found.value.name == name
  {
    if pods == [] then None
    else if pods[0].name == name then
      assert HasPod(pods, name);
      Some(pods[0])
    else
      assert HasPod(pods, name) <==> HasPod(pods[1..], name) by {
        if i :| 0 <= i < |pods| && pods[i].name == name { assert pods[1..][i - 1].name == name; }
        if i :| 0 <= i < |pods[1..]| && pods[1..][i].name == name { assert pods[i + 1].name == name; }
      }
      FindPod(pods[1..], name)
  }

  /** With unique names the pod found is the pod itself. */
  lemma FindPodAt(pods: PodList, i: nat)
    requires i < |pods|
    ensures FindPod(pods, pods[i].name) == Some(pods[i])
  {
    var found := FindPod(pods, pods[i].name);
    assert HasPod(pods, pods[i].name);
    assert found.value in pods;
    var j :| 0 <= j < |pods| && pods[j] == found.value;
  }

  /** The state machine record of an external import, as the status carries it. */
  datatype ImportState = NoState | Pending | InProgress | Following | Completed | Failed

  datatype ImportRecord = ImportRecord(
    state: ImportState, source: string, mode: string, startedAt: Option<int>, lastSynced: Option<int>)

  function Count<T>(s: seq<T>, f: T -> bool): (n: nat)
    ensures n <= |s|
  {
    if s == [] then 0 else Count(s[..|s| - 1], f) + if f(s[|s| - 1]) then 1 else 0
  }

  lemma {:induction false} CountZero<T>(s: seq<T>, f: T -> bool)
    ensures Count(s, f) == 0 <==> forall i :: 0 <= i < |s| ==> !f(s[i])
  {
    if s != [] {
      CountZero(s[..|s| - 1], f);
      assert forall i :: 0 <= i < |s| - 1 ==> s[..|s| - 1][i] == s[i];
    }
  }

  /** A count of one has exactly one witness. */
  lemma {:induction false} CountOne<T>(s: seq<T>, f: T -> bool) returns (k: nat)
    requires Count(s, f) == 1
    ensures k < |s| && f(s[k]) && forall i :: 0 <= i < |s| && i != k ==> !f(s[i])
  {
    var n := |s| - 1;
    assert forall i :: 0 <= i < n ==> s[..n][i] == s[i];
    if f(s[n]) {
      CountZero(s[..n], f);
      k := n;
    } else {
      k := CountOne(s[..n], f);
    }
  }

  lemma {:induction false} CountAll<T>(s: seq<T>, f: T -> bool)
    requires forall i :: 0 <= i < |s| ==> f(s[i])
    ensures Count(s, f) == |s|
  {
    if s != [] {
      CountAll(s[..|s| - 1], f);
    }
  }

  lemma CountStep<T>(s: seq<T>, k: nat, f: T -> bool)
    requires k < |s|
    ensures Count(s[..k + 1], f) == Count(s[..k], f) + if f(s[k]) then 1 else 0
  {
    assert s[..k + 1][..k] == s[..k];
  }

  /** Counting is one loop. */
  method CountIf<T>(s: seq<T>, f: T -> bool) returns (n: nat)
    ensures n == Count(s, f)
  {
    n := 0;
    for i := 0 to |s|
      invariant n == Count(s[..i], f)
    {
      CountStep(s, i, f);
      if f(s[i]) {
        n := n + 1;
      }
    }
    assert s[..|s|] == s;
  }

  function IsReady(): Pod -> bool {
    (p: Pod) => p.ready
  }

  /** Ready and not on its way out. */
  function LivesReady(): Pod -> bool {
    (p: Pod) => !p.terminating && p.ready
  }

  /** Durations and times are nanoseconds. */
  const SECOND := 1_000_000_000
}
