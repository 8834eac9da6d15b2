/** Runtime config sync: CONFIG SET instead of a restart where Redis allows it (ops/runtimeconfig/runtime.go). */
module RuntimeConfig {
  import opened Base
  import opened Ordering
  import opened Update
  import Int64
  import Network
  import Spec

  const ALLOW: set<string> := {
    "maxmemory", "maxmemory-policy", "maxmemory-samples", "lfu-log-factor", "lfu-decay-time", "repl-timeout",
    "repl-backlog-size", "repl-backlog-ttl", "tcp-keepalive", "hz", "stream-node-max-bytes",
    "stream-node-max-entries"}

  datatype SyncMode = Skipped | NoChange | Applied | NeedsRestart | SyncFailed

  /** Every node's live configuration. */
  type Live = map<string, map<string, string>>

  /** `trim` strips surrounding white space; `norm` is the source's comparison form of a trimmed value; `render` is
      how a node prints back a value it was given. */
  datatype Dialect = Dialect(
    trim: string -> string, norm: (string, string) -> string, render: (string, string) -> string)

  /** A node told the wanted value prints back one that compares as equal to it. */
  predicate Kept(r: Dialect, desired: map<string, string>, key: string) {
    key in desired ==>
      var value := r.trim(desired[key]);
      r.norm(key, r.trim(r.render(key, value))) == r.norm(key, value)
  }

  datatype SetOutcome = SetOk | SetLost | SetErrorApplied

  datatype RewriteOutcome = Rewritten | ReadOnly | RewriteError

  datatype PatchOutcome = PatchOk | PatchLost | PatchErrorApplied

  /** How the calls fare. */
  datatype Calls = Calls(
    connect: string -> bool, get: (string, string) -> bool, reconnect: string -> bool,
    put: (string, string) -> SetOutcome, rewrite: string -> RewriteOutcome, patch: string -> PatchOutcome)

  /** Nothing goes wrong. */
  ghost predicate Clean(c: Calls) {
    && (forall p :: c.connect(p)) && (forall p :: c.reconnect(p))
    && (forall p, k :: c.get(p, k)) && (forall p, k :: c.put(p, k) == SetOk)
    && (forall p :: c.rewrite(p) == Rewritten) && (forall p :: c.patch(p) == PatchOk)
  }

  function Value(live: Live, pod: string, key: string): string {
    if pod in live && key in live[pod] then live[pod][key] else ""
  }

  function WithValue(live: Live, pod: string, key: string, value: string): Live {
    live[pod := (if pod in live then live[pod] else map[])[key := value]]
  }

  /** The live value does not mean what the wanted one means. */
  predicate Differs(r: Dialect, live: Live, desired: map<string, string>, pod: string, key: string) {
    key in desired && r.norm(key, r.trim(Value(live, pod, key))) != r.norm(key, r.trim(desired[key]))
  }

  predicate InSync(r: Dialect, live: Live, desired: map<string, string>, pod: string) {
    forall key :: key in desired ==> !Differs(r, live, desired, pod, key)
  }

  predicate AllInSync(r: Dialect, live: Live, desired: map<string, string>, pods: seq<Pod>) {
    forall i :: 0 <= i < |pods| ==> InSync(r, live, desired, pods[i].name)
  }

  /** Every difference on this pod may be applied at run time. */
  predicate Allowed(r: Dialect, live: Live, desired: map<string, string>, pod: string) {
    forall key :: key in desired && Differs(r, live, desired, pod, key) ==> key in ALLOW
  }

  predicate AllAllowed(r: Dialect, live: Live, desired: map<string, string>, pods: seq<Pod>) {
    forall i :: 0 <= i < |pods| ==> Allowed(r, live, desired, pods[i].name)
  }

  function Changes(r: Dialect, live: Live, desired: map<string, string>, pod: string): map<string, string> {
    map key | key in desired && Differs(r, live, desired, pod, key) :: r.trim(desired[key])
  }

  lemma ChangesEmpty(r: Dialect, live: Live, desired: map<string, string>, pod: string)
    ensures Changes(r, live, desired, pod) == map[] <==> InSync(r, live, desired, pod)
  {
    if Changes(r, live, desired, pod) == map[] {
      forall key | key in desired ensures !Differs(r, live, desired, pod, key) {
        assert key !in Changes(r, live, desired, pod);
      }
    }
  }

  /** The keys in order; a map is walked in any order before the sort. */
  method SortedKeys(desired: map<string, string>) returns (keys: seq<string>)
    ensures forall k :: k in keys <==> k in desired
  {
    var left := desired.Keys;
    var list: seq<string> := [];
    while left != {}
      invariant left <= desired.Keys
      invariant forall k :: k in list <==> k in desired && k !in left
      decreases left
    {
      var k :| k in left;
      list := list + [k];
      left := left - {k};
    }
    keys := SortBy(list, Less);
    forall k ensures k in keys <==> k in desired {
      SameElement(list, keys, k);
    }
  }

  datatype Survey = Restart(key: string) | ReadFailed | Found(pending: map<string, string>)

  /** The loop over the keys of one pod, stopping at a failed read or a difference that needs a restart. */
  method CollectChanges(keys: seq<string>, ok: string -> bool, differs: string -> bool, wanted: string -> string)
    returns (s: Survey)
    ensures s.Found? ==> forall k :: k in s.pending <==> k in keys && differs(k)
    ensures s.Found? ==> forall k :: k in s.pending ==> s.pending[k] == wanted(k) && k in ALLOW
    ensures s.Restart? ==> s.key in keys && differs(s.key) && s.key !in ALLOW
    ensures s.ReadFailed? ==> exists k :: k in keys && !ok(k)
  {
    var pending: map<string, string> := map[];
    for i := 0 to |keys|
      invariant forall k :: k in pending <==> k in keys[..i] && differs(k)
      invariant forall k :: k in pending ==> pending[k] == wanted(k) && k in ALLOW
    {
      var key := keys[i];
      assert key in keys;
      if !ok(key) {
        return ReadFailed;
      }
      if differs(key) {
        if key !in ALLOW {
          return Restart(key);
        }
        pending := pending[key := wanted(key)];
      }
    }
    assert keys[..|keys|] == keys;
    s := Found(pending);
  }

  lemma FoundAll(r: Dialect, live: Live, desired: map<string, string>, pod: string, pending: map<string, string>)
    requires forall k :: k in pending <==> k in desired && Differs(r, live, desired, pod, k)
    requires forall k :: k in pending ==> k in desired && pending[k] == r.trim(desired[k]) && k in ALLOW
    ensures pending == Changes(r, live, desired, pod) && Allowed(r, live, desired, pod)
  {
    var all := Changes(r, live, desired, pod);
    forall k ensures k in pending <==> k in all {}
    assert pending.Keys == all.Keys;
    forall k | k in pending ensures pending[k] == all[k] {}
  }

  /** Compares one pod's live values with the wanted ones. */
  method SurveyPod(r: Dialect, live: Live, desired: map<string, string>, keys: seq<string>, pod: string, c: Calls)
    returns (s: Survey)
    requires forall k :: k in keys <==> k in desired
    ensures s.Found? ==> s.pending == Changes(r, live, desired, pod) && Allowed(r, live, desired, pod)
    ensures s.Restart? ==> Differs(r, live, desired, pod, s.key) && s.key !in ALLOW
    ensures s.ReadFailed? ==> !c.connect(pod) || exists k :: k in desired && !c.get(pod, k)
  {
    if !c.connect(pod) {
      return ReadFailed;
    }
    var differs := (k: string) => Differs(r, live, desired, pod, k);
    var wanted := (k: string) => if k in desired then r.trim(desired[k]) else "";
    s := CollectChanges(keys, (k: string) => c.get(pod, k), differs, wanted);
    if s.Found? {
      forall k ensures k in s.pending <==> k in desired && Differs(r, live, desired, pod, k) {
        assert differs(k) == Differs(r, live, desired, pod, k);
      }
      forall k | k in s.pending ensures k in desired && s.pending[k] == r.trim(desired[k]) && k in ALLOW {
        assert wanted(k) == r.trim(desired[k]);
      }
      FoundAll(r, live, desired, pod, s.pending);
    }
  }

  // ---- changing the nodes ----

  datatype Sent = Sent(pod: string, key: string, value: string)

  /** Every CONFIG SET sent was for a difference the survey saw, with the wanted value. */
  predicate OnlyDifferences(r: Dialect, live: Live, desired: map<string, string>, sent: seq<Sent>) {
    forall i :: 0 <= i < |sent| ==>
      Differs(r, live, desired, sent[i].pod, sent[i].key) && sent[i].value == r.trim(desired[sent[i].key])
  }

  /** Only the named pod's settings changed. */
  ghost predicate OthersKept(before: Live, after: Live, pod: string) {
    forall p, k :: p != pod ==> Value(after, p, k) == Value(before, p, k)
  }

  ghost predicate PodKept(before: Live, after: Live, pod: string) {
    forall k :: Value(after, pod, k) == Value(before, pod, k)
  }

  /** A key set to the wanted value differs afterwards exactly if it is not kept; nothing else changes. */
  ghost predicate PutDone(r: Dialect, before: Live, after: Live, desired: map<string, string>, pod: string, key: string)
  {
    && (Differs(r, after, desired, pod, key) <==> !Kept(r, desired, key))
    && forall k :: k != key ==> (Differs(r, after, desired, pod, k) <==> Differs(r, before, desired, pod, k))
  }

  lemma PutSettles(r: Dialect, live: Live, desired: map<string, string>, pod: string, key: string)
    requires key in desired
    ensures var after := WithValue(live, pod, key, r.render(key, r.trim(desired[key])));
            OthersKept(live, after, pod) && PutDone(r, live, after, desired, pod, key)
  {
    var after := WithValue(live, pod, key, r.render(key, r.trim(desired[key])));
    assert Value(after, pod, key) == r.render(key, r.trim(desired[key]));
    forall k | k != key ensures Value(after, pod, k) == Value(live, pod, k) {}
  }

  /** Of the differences before, exactly those not kept are there afterwards. */
  ghost predicate Settled(r: Dialect, before: Live, after: Live, desired: map<string, string>, pod: string) {
    forall k :: Differs(r, after, desired, pod, k) <==> Differs(r, before, desired, pod, k) && !Kept(r, desired, k)
  }

  ghost predicate AllSettled(r: Dialect, before: Live, after: Live, desired: map<string, string>, pods: seq<Pod>) {
    forall i :: 0 <= i < |pods| ==> Settled(r, before, after, desired, pods[i].name)
  }

  /** The keys left still differ, the others pending exactly if they are not kept. */
  ghost predicate PutSoFar(
      r: Dialect, live: Live, desired: map<string, string>, pod: string, pending: set<string>, left: set<string>)
  {
    && left <= pending
    && forall k :: Differs(r, live, desired, pod, k) <==> k in left || (k in pending && !Kept(r, desired, k))
  }

  lemma PutStep(r: Dialect, before: Live, after: Live, desired: map<string, string>, pod: string,
                pending: set<string>, left: set<string>, key: string)
    requires PutSoFar(r, before, desired, pod, pending, left) && key in left
    requires PutDone(r, before, after, desired, pod, key)
    ensures PutSoFar(r, after, desired, pod, pending, left - {key})
  {
  }

  /** The pending keys not left were sent with the wanted values. */
  predicate SentSoFar(r: Dialect, desired: map<string, string>, pod: string, pending: set<string>, left: set<string>,
                      sent: seq<Sent>) {
    forall k :: k in pending && k in desired ==> k in left || Sent(pod, k, r.trim(desired[k])) in sent
  }

  lemma SentStep(r: Dialect, start: Live, desired: map<string, string>, pod: string,
                 pending: set<string>, left: set<string>, key: string, sent: seq<Sent>)
    requires OnlyDifferences(r, start, desired, sent) && Differs(r, start, desired, pod, key)
    requires SentSoFar(r, desired, pod, pending, left, sent)
    ensures var more := sent + [Sent(pod, key, r.trim(desired[key]))];
            OnlyDifferences(r, start, desired, more) && SentSoFar(r, desired, pod, pending, left - {key}, more)
  {
  }

  lemma PutEnds(r: Dialect, start: Live, live: Live, desired: map<string, string>, pod: string,
                pending: set<string>, sent: seq<Sent>)
    requires forall k :: k in pending <==> Differs(r, start, desired, pod, k)
    requires PutSoFar(r, live, desired, pod, pending, {}) && SentSoFar(r, desired, pod, pending, {}, sent)
    ensures Settled(r, start, live, desired, pod) && SentTo(r, start, desired, pod, sent)
  {
  }

  /** Every difference was sent. */
  ghost predicate SentTo(r: Dialect, live: Live, desired: map<string, string>, pod: string, sent: seq<Sent>) {
    forall k :: Differs(r, live, desired, pod, k) ==> Sent(pod, k, r.trim(desired[k])) in sent
  }

  ghost predicate SentToAll(r: Dialect, live: Live, desired: map<string, string>, pods: seq<Pod>, sent: seq<Sent>) {
    forall i :: 0 <= i < |pods| ==> SentTo(r, live, desired, pods[i].name, sent)
  }

  lemma SentMore(
      r: Dialect, live: Live, desired: map<string, string>, pod: string, before: seq<Sent>, after: seq<Sent>)
    requires before <= after && SentTo(r, live, desired, pod, before)
    ensures SentTo(r, live, desired, pod, after)
  {
    forall k | Differs(r, live, desired, pod, k) ensures Sent(pod, k, r.trim(desired[k])) in after {
      assert Sent(pod, k, r.trim(desired[k])) in before;
    }
  }

  lemma KeptPod(r: Dialect, before: Live, after: Live, desired: map<string, string>, pod: string, k: string)
    requires PodKept(before, after, pod)
    ensures Differs(r, before, desired, pod, k) <==> Differs(r, after, desired, pod, k)
  {
    assert Value(after, pod, k) == Value(before, pod, k);
  }

  lemma SettledStays(
      r: Dialect, start: Live, before: Live, after: Live, desired: map<string, string>, pod: string)
    requires Settled(r, start, before, desired, pod) && PodKept(before, after, pod)
    ensures Settled(r, start, after, desired, pod)
  {
    forall k
      ensures Differs(r, after, desired, pod, k) <==> Differs(r, start, desired, pod, k) && !Kept(r, desired, k)
    {
      KeptPod(r, before, after, desired, pod, k);
    }
  }

  /** The first i pods are settled, the others as at the start. */
  ghost predicate AppliedTo(r: Dialect, start: Live, live: Live, desired: map<string, string>, pods: seq<Pod>, i: nat)
    requires i <= |pods|
  {
    && (forall k :: 0 <= k < i ==> Settled(r, start, live, desired, pods[k].name))
    && (forall k :: i <= k < |pods| ==> PodKept(start, live, pods[k].name))
  }

  lemma PodApplied(
      r: Dialect, start: Live, before: Live, after: Live, desired: map<string, string>, pods: PodList, i: nat)
    requires i < |pods| && AppliedTo(r, start, before, desired, pods, i)
    requires OthersKept(before, after, pods[i].name) && Settled(r, start, after, desired, pods[i].name)
    ensures AppliedTo(r, start, after, desired, pods, i + 1)
  {
    forall k | 0 <= k < |pods| && k != i ensures PodKept(before, after, pods[k].name) {
      assert pods[k].name != pods[i].name;
    }
    forall k | 0 <= k < i ensures Settled(r, start, after, desired, pods[k].name) {
      SettledStays(r, start, before, after, desired, pods[k].name);
    }
    forall k | i < k < |pods| ensures PodKept(start, after, pods[k].name) {
      assert PodKept(start, before, pods[k].name);
    }
  }

  lemma SentGrows(r: Dialect, live: Live, desired: map<string, string>, pods: seq<Pod>, i: nat,
                  before: seq<Sent>, after: seq<Sent>)
    requires i < |pods| && before <= after && SentToAll(r, live, desired, pods[..i], before)
    requires SentTo(r, live, desired, pods[i].name, after)
    ensures SentToAll(r, live, desired, pods[..i + 1], after)
  {
    forall k | 0 <= k < i ensures SentTo(r, live, desired, pods[k].name, after) {
      assert pods[..i][k] == pods[k];
      SentMore(r, live, desired, pods[k].name, before, after);
    }
  }

  /** How far a plan has been applied. */
  ghost predicate Applying(r: Dialect, start: Live, live: Live, desired: map<string, string>, pods: seq<Pod>, i: nat,
                           sent: seq<Sent>)
    requires i <= |pods|
  {
    && OnlyDifferences(r, start, desired, sent)
    && AppliedTo(r, start, live, desired, pods, i) && SentToAll(r, start, desired, pods[..i], sent)
  }

  lemma ApplyStep(r: Dialect, start: Live, before: Live, after: Live, desired: map<string, string>, pods: PodList,
                  i: nat, sent: seq<Sent>, more: seq<Sent>)
    requires i < |pods| && Applying(r, start, before, desired, pods, i, sent) && sent <= more
    requires OthersKept(before, after, pods[i].name) && Settled(r, start, after, desired, pods[i].name)
    requires SentTo(r, start, desired, pods[i].name, more) && OnlyDifferences(r, start, desired, more)
    ensures Applying(r, start, after, desired, pods, i + 1, more)
  {
    PodApplied(r, start, before, after, desired, pods, i);
    SentGrows(r, start, desired, pods, i, sent, more);
  }

  lemma ApplyEnds(r: Dialect, start: Live, live: Live, desired: map<string, string>, pods: seq<Pod>, sent: seq<Sent>)
    requires Applying(r, start, live, desired, pods, |pods|, sent)
    ensures AllSettled(r, start, live, desired, pods) && SentToAll(r, start, desired, pods, sent)
  {
    assert pods[..|pods|] == pods;
  }

  /** A pod in sync is settled as it is. */
  lemma InSyncSettled(r: Dialect, start: Live, live: Live, desired: map<string, string>, pod: string)
    requires InSync(r, start, desired, pod) && PodKept(start, live, pod)
    ensures Settled(r, start, live, desired, pod)
  {
    forall k ensures !Differs(r, start, desired, pod, k) && !Differs(r, live, desired, pod, k) {
      KeptPod(r, start, live, desired, pod, k);
    }
  }

  /** The plan of a survey: the pods out of sync, each with its changes. */
  predicate IsChangePlan(r: Dialect, live: Live, desired: map<string, string>, pods: seq<Pod>,
                         plan: map<string, map<string, string>>) {
    && (forall i :: 0 <= i < |pods| ==> (pods[i].name in plan <==> !InSync(r, live, desired, pods[i].name)))
    && (forall p :: p in plan ==> plan[p] == Changes(r, live, desired, p))
  }

  /** The hash written is the one wanted. */
  predicate HashesShow(pods: seq<Pod>, hash: string) {
    forall i :: 0 <= i < |pods| ==> pods[i].configHash == hash
  }

  /** The annotations change only on listed pods, and only to the wanted hash. */
  ghost predicate HashesWritten(pods: seq<Pod>, hash: string, before: map<string, string>, after: map<string, string>) {
    && (forall p :: p in before ==> p in after)
    && forall p :: p in after && !(p in before && after[p] == before[p]) ==>
      after[p] == hash && exists i :: 0 <= i < |pods| && pods[i].name == p
  }

  /** Nothing of a pod changes but its hash, and that only to the wanted one. */
  predicate OnlyHashes(before: seq<Pod>, after: seq<Pod>, hash: string) {
    && |after| == |before|
    && forall i :: 0 <= i < |after| ==> after[i] == before[i] || after[i] == before[i].(configHash := hash)
  }

  /** A pod shows a new hash only if its annotation has it. */
  predicate HashesMatch(before: seq<Pod>, after: seq<Pod>, hash: string, hashes: map<string, string>)
    requires |after| == |before|
  {
    forall i :: 0 <= i < |after| && after[i] != before[i] ==>
      after[i].name in hashes && hashes[after[i].name] == hash
  }

  /** The first i pods show the hash, the others are as they were. */
  ghost predicate PatchedTo(was: seq<Pod>, pods: seq<Pod>, hash: string, i: nat,
                            before: map<string, string>, after: map<string, string>) {
    && |pods| == |was| && i <= |pods|
    && (forall k :: 0 <= k < i ==> pods[k] == was[k].(configHash := hash))
    && (forall k :: i <= k < |pods| ==> pods[k] == was[k])
    && HashesMatch(was, pods, hash, after)
    && HashesWritten(was, hash, before, after)
  }

  lemma PatchStep(was: seq<Pod>, pods: seq<Pod>, hash: string, i: nat,
                  before: map<string, string>, after: map<string, string>)
    requires i < |pods| && PatchedTo(was, pods, hash, i, before, after)
    ensures var written := after[pods[i].name := hash];
            && HashesWritten(was, hash, before, written) && HashesMatch(was, pods, hash, written)
            && PatchedTo(was, pods[i := pods[i].(configHash := hash)], hash, i + 1, before, written)
    ensures pods[i].configHash == hash ==> PatchedTo(was, pods, hash, i + 1, before, after)
  {
    var written := after[pods[i].name := hash];
    assert pods[i] == was[i];
    assert HashesWritten(was, hash, before, written);
    assert HashesMatch(was, pods, hash, written);
  }

  /** The plan holds the changes of exactly those of the first i pods that are out. */
  predicate PlanSoFar(pods: seq<Pod>, i: nat, out: string -> bool, changes: string -> map<string, string>,
                      plan: map<string, map<string, string>>)
    requires i <= |pods|
  {
    && (forall k :: 0 <= k < i ==> (pods[k].name in plan <==> out(pods[k].name)))
    && (forall k :: i <= k < |pods| ==> pods[k].name !in plan)
    && (forall p :: p in plan ==> plan[p] == changes(p))
    && (plan != map[] ==> exists k :: 0 <= k < i && out(pods[k].name))
  }

  lemma PlanGrows(pods: PodList, i: nat, out: string -> bool, changes: string -> map<string, string>,
                  plan: map<string, map<string, string>>)
    requires i < |pods| && PlanSoFar(pods, i, out, changes, plan)
    ensures var name := pods[i].name;
            PlanSoFar(pods, i + 1, out, changes, if out(name) then plan[name := changes(name)] else plan)
  {
  }

  lemma PlanComplete(r: Dialect, live: Live, desired: map<string, string>, pods: PodList,
                     out: string -> bool, changes: string -> map<string, string>,
                     plan: map<string, map<string, string>>)
    requires forall p :: out(p) <==> !InSync(r, live, desired, p)
    requires forall p :: changes(p) == Changes(r, live, desired, p)
    requires PlanSoFar(pods, |pods|, out, changes, plan)
    ensures IsChangePlan(r, live, desired, pods, plan)
    ensures plan == map[] <==> AllInSync(r, live, desired, pods)
  {
  }

  /** Surveys every pod before anything is changed. */
  method SurveyAll(r: Dialect, live: Live, desired: map<string, string>, pods: PodList, c: Calls)
    returns (s: Survey, plan: map<string, map<string, string>>)
    ensures s.Found? ==> AllAllowed(r, live, desired, pods) && IsChangePlan(r, live, desired, pods, plan)
    ensures s.Found? ==> (plan == map[] <==> AllInSync(r, live, desired, pods))
    ensures s.Restart? ==> !AllAllowed(r, live, desired, pods)
    ensures s.ReadFailed? ==> !Clean(c)
  {
    var keys := SortedKeys(desired);
    plan := map[];
    ghost var out := (p: string) => !InSync(r, live, desired, p);
    ghost var changes := (p: string) => Changes(r, live, desired, p);
    for i := 0 to |pods|
      invariant forall k :: 0 <= k < i ==> Allowed(r, live, desired, pods[k].name)
      invariant PlanSoFar(pods, i, out, changes, plan)
    {
      s := SurveyPod(r, live, desired, keys, pods[i].name, c);
      if !s.Found? {
        assert s.Restart? ==> !Allowed(r, live, desired, pods[i].name);
        return;
      }
      PlanGrows(pods, i, out, changes, plan);
      ChangesEmpty(r, live, desired, pods[i].name);
      if s.pending != map[] {
        plan := plan[pods[i].name := s.pending];
      }
    }
    PlanComplete(r, live, desired, pods, out, changes, plan);
    s := Found(map[]);
  }

  /** Where nothing differs, nothing is left to settle or to send. */
  lemma NothingToSettle(r: Dialect, live: Live, desired: map<string, string>, pods: seq<Pod>)
    requires AllInSync(r, live, desired, pods)
    ensures AllSettled(r, live, live, desired, pods) && SentToAll(r, live, desired, pods, [])
  {
    forall i | 0 <= i < |pods|
      ensures Settled(r, live, live, desired, pods[i].name) && SentTo(r, live, desired, pods[i].name, [])
    {
      InSyncSettled(r, live, live, desired, pods[i].name);
    }
  }

  /** What a sync promises: a CONFIG SET only where every difference was allowed, and a hash only once every
      difference was sent, so that the differences left are those whose value the node does not keep. */
  ghost predicate SyncSound(r: Dialect, desired: map<string, string>, hash: string, mode: SyncMode,
                            live0: Live, live: Live, pods0: seq<Pod>, pods: seq<Pod>,
                            hashes0: map<string, string>, hashes: map<string, string>, sent: seq<Sent>) {
    && OnlyHashes(pods0, pods, hash)
    && HashesMatch(pods0, pods, hash, hashes) && HashesWritten(pods0, hash, hashes0, hashes)
    && (sent != [] ==> AllAllowed(r, live0, desired, pods0))
    && OnlyDifferences(r, live0, desired, sent)
    && (pods != pods0 || hashes != hashes0 || mode in {NoChange, Applied} ==>
      AllSettled(r, live0, live, desired, pods0) && SentToAll(r, live0, desired, pods0, sent))
    && (mode == NoChange ==> AllInSync(r, live, desired, pods0) && sent == [])
    && (mode in {NoChange, Applied} && hash != "" ==> HashesShow(pods, hash))
  }

  /** The mode when no call fails. */
  ghost function CleanMode(r: Dialect, desired: map<string, string>, live: Live, pods: seq<Pod>): SyncMode {
    if AllInSync(r, live, desired, pods) then NoChange
    else if AllAllowed(r, live, desired, pods) then Applied
    else NeedsRestart
  }

  class ConfigSync {
    var live: Live
    var sent: seq<Sent>
    var pods: seq<Pod>
    /** The config-hash annotations on the API server. */
    var hashes: map<string, string>

    constructor (live: Live, pods: PodList, hashes: map<string, string>)
      ensures this.live == live && sent == [] && this.pods == pods && this.hashes == hashes
    {
      this.live, sent, this.pods, this.hashes := live, [], pods, hashes;
    }

    /** CONFIG SET of one key; a failed call may still have taken effect. */
    method Put(r: Dialect, desired: map<string, string>, pod: string, key: string, c: Calls) returns (ok: bool)
      requires key in desired
      modifies `live, `sent
      ensures sent == old(sent) + [Sent(pod, key, r.trim(desired[key]))]
      ensures Clean(c) ==> ok
      ensures OthersKept(old(live), live, pod)
      ensures ok ==> PutDone(r, old(live), live, desired, pod, key)
    {
      sent := sent + [Sent(pod, key, r.trim(desired[key]))];
      PutSettles(r, live, desired, pod, key);
      var outcome := c.put(pod, key);
      if outcome != SetLost {
        live := WithValue(live, pod, key, r.render(key, r.trim(desired[key])));
      }
      ok := outcome == SetOk;
    }

    /** Sends one pod's pending changes, in any order. */
    method PutAll(r: Dialect, desired: map<string, string>, pod: string, pending: set<string>, c: Calls,
                  ghost start: Live)
      returns (ok: bool)
      requires OnlyDifferences(r, start, desired, sent)
      requires forall k :: k in pending <==> Differs(r, live, desired, pod, k)
      requires forall k :: k in pending <==> Differs(r, start, desired, pod, k)
      modifies `live, `sent
      ensures Clean(c) ==> ok
      ensures ok ==> Settled(r, start, live, desired, pod) && SentTo(r, start, desired, pod, sent)
      ensures OthersKept(old(live), live, pod) && OnlyDifferences(r, start, desired, sent) && old(sent) <= sent
    {
      var left := pending;
      while left != {}
        invariant OnlyDifferences(r, start, desired, sent) && old(sent) <= sent
        invariant OthersKept(old(live), live, pod)
        invariant PutSoFar(r, live, desired, pod, pending, left)
        invariant SentSoFar(r, desired, pod, pending, left, sent)
        decreases left
      {
        var key :| key in left;
        SentStep(r, start, desired, pod, pending, left, key, sent);
        ghost var before := live;
        var done := Put(r, desired, pod, key, c);
        if !done {
          return false;
        }
        PutStep(r, before, live, desired, pod, pending, left, key);
        left := left - {key};
      }
      PutEnds(r, start, live, desired, pod, pending, sent);
      ok := true;
    }

    /** One pod's pending changes, then CONFIG REWRITE. */
    method ApplyPod(r: Dialect, desired: map<string, string>, pod: string, pending: map<string, string>, c: Calls,
                    ghost start: Live)
      returns (mode: SyncMode)
      requires OnlyDifferences(r, start, desired, sent)
      requires PodKept(start, live, pod) && pending == Changes(r, start, desired, pod)
      modifies `live, `sent
      ensures mode in {Applied, NeedsRestart, SyncFailed}
      ensures Clean(c) ==> mode == Applied
      ensures mode == Applied ==> Settled(r, start, live, desired, pod) && SentTo(r, start, desired, pod, sent)
      ensures OthersKept(old(live), live, pod) && OnlyDifferences(r, start, desired, sent) && old(sent) <= sent
    {
      if !c.reconnect(pod) {
        return SyncFailed;
      }
      forall k ensures Differs(r, live, desired, pod, k) <==> Differs(r, start, desired, pod, k) {
        KeptPod(r, start, live, desired, pod, k);
      }
      var ok := PutAll(r, desired, pod, pending.Keys, c, start);
      if !ok {
        return SyncFailed;
      }
      match c.rewrite(pod) {
        case Rewritten => mode := Applied;
        case ReadOnly => mode := NeedsRestart;
        case RewriteError => mode := SyncFailed;
      }
    }

    /** patchConfigHashAnnotations: stops at the first error; an empty hash writes nothing. */
    method PatchHashes(hash: string, c: Calls) returns (ok: bool)
      modifies `pods, `hashes
      ensures OnlyHashes(old(pods), pods, hash)
      ensures ok && hash != "" ==> HashesShow(pods, hash)
      ensures HashesMatch(old(pods), pods, hash, hashes)
      ensures HashesWritten(old(pods), hash, old(hashes), hashes)
      ensures hash == "" ==> ok && pods == old(pods) && hashes == old(hashes)
      ensures Clean(c) ==> ok
    {
      if hash == "" {
        return true;
      }
      ghost var was := pods;
      for i := 0 to |pods|
        invariant PatchedTo(was, pods, hash, i, old(hashes), hashes)
      {
        PatchStep(was, pods, hash, i, old(hashes), hashes);
        if pods[i].configHash != hash {
          var outcome := c.patch(pods[i].name);
          if outcome != PatchLost {
            hashes := hashes[pods[i].name := hash];
          }
          if outcome != PatchOk {
            return false;
          }
          pods := pods[i := pods[i].(configHash := hash)];
        }
      }
      ok := true;
    }

    /** What the plan has for one pod. */
    method ApplyPlanned(r: Dialect, desired: map<string, string>, pod: string, plan: map<string, map<string, string>>,
                        c: Calls, ghost start: Live)
      returns (mode: SyncMode)
      requires OnlyDifferences(r, start, desired, sent) && PodKept(start, live, pod)
      requires pod in plan <==> !InSync(r, start, desired, pod)
      requires pod in plan ==> plan[pod] == Changes(r, start, desired, pod)
      modifies `live, `sent
      ensures mode in {Applied, NeedsRestart, SyncFailed}
      ensures Clean(c) ==> mode == Applied
      ensures mode == Applied ==> Settled(r, start, live, desired, pod) && SentTo(r, start, desired, pod, sent)
      ensures OthersKept(old(live), live, pod) && OnlyDifferences(r, start, desired, sent) && old(sent) <= sent
    {
      if pod in plan {
        mode := ApplyPod(r, desired, pod, plan[pod], c, start);
      } else {
        InSyncSettled(r, start, live, desired, pod);
        mode := Applied;
      }
    }

    /** Applies a surveyed plan pod by pod. */
    method ApplyPlan(r: Dialect, desired: map<string, string>, plan: map<string, map<string, string>>, c: Calls)
      returns (mode: SyncMode)
      requires DistinctNames(pods) && sent == [] && IsChangePlan(r, live, desired, pods, plan)
      modifies `live, `sent
      ensures mode in {Applied, NeedsRestart, SyncFailed}
      ensures Clean(c) ==> mode == Applied
      ensures mode == Applied ==>
                AllSettled(r, old(live), live, desired, pods) && SentToAll(r, old(live), desired, pods, sent)
      ensures OnlyDifferences(r, old(live), desired, sent)
    {
      ghost var start := live;
      for i := 0 to |pods|
        invariant Applying(r, start, live, desired, pods, i, sent)
      {
        ghost var before, sentBefore := live, sent;
        mode := ApplyPlanned(r, desired, pods[i].name, plan, c, start);
        if mode != Applied {
          return;
        }
        ApplyStep(r, start, before, live, desired, pods, i, sentBefore, sent);
      }
      ApplyEnds(r, start, live, desired, pods, sent);
      mode := Applied;
    }

    /** ApplyRedisRuntime, from the readiness check on. `tlsOk` is the outcome of building the TLS client config. */
    method ApplyRedisRuntime(
      r: Dialect, desired: map<string, string>, hash: string, factory: bool, tlsOk: bool, c: Calls)
      returns (mode: SyncMode)
      requires DistinctNames(pods) && sent == []
      modifies this
      ensures SyncSound(r, desired, hash, mode, old(live), live, old(pods), pods, old(hashes), hashes, sent)
      ensures factory && tlsOk && Clean(c) && (forall i :: 0 <= i < |old(pods)| ==> old(pods)[i].ready) ==>
                mode == CleanMode(r, desired, old(live), old(pods))
    {
      if !factory {
        return Skipped;
      }
      for i := 0 to |pods|
        invariant forall k :: 0 <= k < i ==> pods[k].ready
      {
        if !pods[i].ready {
          return Skipped;
        }
      }
      if |pods| > 0 && !tlsOk {
        return SyncFailed;
      }
      mode := SyncReady(r, desired, hash, c);
    }

    /** The survey and what follows it. */
    method SyncReady(r: Dialect, desired: map<string, string>, hash: string, c: Calls) returns (mode: SyncMode)
      requires DistinctNames(pods) && sent == []
      modifies this
      ensures SyncSound(r, desired, hash, mode, old(live), live, old(pods), pods, old(hashes), hashes, sent)
      ensures Clean(c) ==> mode == CleanMode(r, desired, old(live), old(pods))
    {
      var s, plan := SurveyAll(r, live, desired, pods, c);
      match s {
        case ReadFailed => return SyncFailed;
        case Restart(_) => return NeedsRestart;
        case Found(_) =>
      }
      mode := NoChange;
      if plan != map[] {
        mode := ApplyPlan(r, desired, plan, c);
        if mode != Applied {
          return;
        }
      } else {
        NothingToSettle(r, live, desired, pods);
      }
      var patched := PatchHashes(hash, c);
      if !patched {
        mode := SyncFailed;
      }
    }
  }

  // ---- what a sync leaves ----

  /** Every key that differs somewhere is kept. */
  predicate PendingKept(r: Dialect, live: Live, desired: map<string, string>, pods: seq<Pod>) {
    forall i, k | 0 <= i < |pods| && k in desired ::
      Differs(r, live, desired, pods[i].name, k) ==> Kept(r, desired, k)
  }

  /** The pods a sync wrote the hash on are in sync if and only if every difference it found is kept. */
  lemma SyncedIff(r: Dialect, before: Live, after: Live, desired: map<string, string>, pods: seq<Pod>)
    requires AllSettled(r, before, after, desired, pods)
    ensures AllInSync(r, after, desired, pods) <==> PendingKept(r, before, desired, pods)
  {
    if AllInSync(r, after, desired, pods) {
      forall i, k | 0 <= i < |pods| && k in desired && Differs(r, before, desired, pods[i].name, k)
        ensures Kept(r, desired, k)
      {
        assert Settled(r, before, after, desired, pods[i].name) && InSync(r, after, desired, pods[i].name);
      }
    }
    if PendingKept(r, before, desired, pods) {
      forall i, k | 0 <= i < |pods| && k in desired ensures !Differs(r, after, desired, pods[i].name, k) {
        assert Settled(r, before, after, desired, pods[i].name);
      }
    }
  }

  /** What a settled pod would be sent next: its old changes without the keys kept. */
  lemma NextChanges(r: Dialect, before: Live, after: Live, desired: map<string, string>, pod: string)
    requires Settled(r, before, after, desired, pod)
    ensures var first, next := Changes(r, before, desired, pod), Changes(r, after, desired, pod);
            && (forall k :: k in next <==> k in first && !Kept(r, desired, k))
            && (forall k :: k in next ==> next[k] == first[k])
  {
  }

  /** With unchanged wishes and no failing call, the next sync has nothing to do if and only if every difference is
      kept; otherwise it applies the same keys again. */
  lemma NextMode(r: Dialect, before: Live, after: Live, desired: map<string, string>, pods: seq<Pod>)
    requires AllAllowed(r, before, desired, pods) && AllSettled(r, before, after, desired, pods)
    ensures CleanMode(r, desired, after, pods) == if PendingKept(r, before, desired, pods) then NoChange else Applied
  {
    SyncedIff(r, before, after, desired, pods);
    forall i, k | 0 <= i < |pods| && Differs(r, after, desired, pods[i].name, k) ensures k in ALLOW {
      assert Settled(r, before, after, desired, pods[i].name) && Allowed(r, before, desired, pods[i].name);
    }
  }

  /** However many syncs follow with unchanged wishes, each finds and leaves the same differences. */
  lemma {:induction false} SyncsRepeat(r: Dialect, lives: seq<Live>, desired: map<string, string>, pod: string)
    requires |lives| > 1
    requires forall n :: 0 <= n < |lives| - 1 ==> Settled(r, lives[n], lives[n + 1], desired, pod)
    ensures forall n :: 1 <= n < |lives| ==> Settled(r, lives[0], lives[n], desired, pod)
  {
    if |lives| > 2 {
      var last := |lives| - 1;
      SyncsRepeat(r, lives[..last], desired, pod);
      forall n | 1 <= n < last ensures Settled(r, lives[0], lives[n], desired, pod) {
        assert lives[..last][n] == lives[n];
      }
      assert Settled(r, lives[last - 1], lives[last - 1 + 1], desired, pod);
    }
  }

  // ---- memory sizes ----

  const SUFFIXES: set<string> := {"", "b", "k", "kb", "m", "mb", "g", "gb"}

  /** The unit of a suffix as the operator reads it. */
  function OperatorUnit(suffix: string): nat {
    match suffix
    case "k" => 1024
    case "kb" => 1024
    case "m" => 1048576
    case "mb" => 1048576
    case "g" => 1073741824
    case "gb" => 1073741824
    case _ => 1
  }

  /** The unit as a node reads it: a bare letter is a power of 1000. */
  function NodeUnit(suffix: string): nat {
    match suffix
    case "k" => 1000
    case "m" => 1000000
    case "g" => 1000000000
    case _ => OperatorUnit(suffix)
  }

  /** The sizes that the operator's floating-point product and 64-bit integer hold exactly. */
  predicate ExactSize(n: nat, suffix: string) {
    && suffix in SUFFIXES && (suffix == "" || n < 0x10_0000_0000_0000)
    && n * OperatorUnit(suffix) < Int64.HALF
  }

  /** Whole sizes with a suffix: the operator compares them in bytes, and a node prints them in bytes. */
  ghost predicate ReadsSizes(r: Dialect, key: string) {
    forall n: nat, suffix :: ExactSize(n, suffix) ==>
      var value := Network.Decimal(n) + suffix;
      && r.trim(value) == value
      && r.norm(key, value) == Network.Decimal(n * OperatorUnit(suffix))
      && r.render(key, value) == Network.Decimal(n * NodeUnit(suffix))
  }

  lemma UnitsAgreeIff(n: nat, suffix: string)
    requires suffix in SUFFIXES
    ensures n * NodeUnit(suffix) == n * OperatorUnit(suffix) <==> n == 0 || suffix !in {"k", "m", "g"}
    ensures n * NodeUnit(suffix) <= n * OperatorUnit(suffix)
  {
  }

  lemma DecimalInjective(a: nat, b: nat)
    requires a < Int64.HALF && b < Int64.HALF && Network.Decimal(a) == Network.Decimal(b)
    ensures a == b
  {
    Network.FoldDigitsDecimal(a);
    Network.FoldDigitsDecimal(b);
  }

  lemma PlainSize(r: Dialect, key: string, bytes: nat)
    requires ReadsSizes(r, key) && bytes < Int64.HALF
    ensures var value := Network.Decimal(bytes); r.trim(value) == value && r.norm(key, value) == value
  {
    assert ExactSize(bytes, "");
    assert Network.Decimal(bytes) + "" == Network.Decimal(bytes);
  }

  /** A wanted size is kept if and only if it is zero or its suffix is not a bare letter. */
  lemma SizeKeptIff(r: Dialect, desired: map<string, string>, key: string, n: nat, suffix: string)
    requires ReadsSizes(r, key) && ExactSize(n, suffix)
    requires key in desired && desired[key] == Network.Decimal(n) + suffix
    ensures Kept(r, desired, key) <==> n == 0 || suffix !in {"k", "m", "g"}
  {
    var wanted, printed := n * OperatorUnit(suffix), n * NodeUnit(suffix);
    UnitsAgreeIff(n, suffix);
    PlainSize(r, key, printed);
    assert Kept(r, desired, key) <==> Network.Decimal(printed) == Network.Decimal(wanted);
    if Network.Decimal(printed) == Network.Decimal(wanted) {
      DecimalInjective(printed, wanted);
    }
  }

  lemma OneGigabyteWritten()
    ensures Network.Decimal(1) + "g" == "1g" && ExactSize(1, "g")
  {
  }

  /** So a wanted maxmemory of 1g is not kept. */
  lemma OneGigabyteNotKept(r: Dialect, desired: map<string, string>)
    requires ReadsSizes(r, "maxmemory")
    requires "maxmemory" in desired && desired["maxmemory"] == "1g"
    ensures !Kept(r, desired, "maxmemory")
  {
    OneGigabyteWritten();
    SizeKeptIff(r, desired, "maxmemory", 1, "g");
  }

  // ---- what planning makes of the hash ----

  lemma {:induction false} ContainersSaveHash(spec: Spec.ClusterSpec, containers: seq<Container>)
    ensures ConfigHash !in AllContainerReasons(spec, containers)
  {
    if containers != [] {
      ContainersSaveHash(spec, containers[..|containers| - 1]);
    }
  }

  lemma {:induction false} ExtrasSaveHash(reasons: seq<Reason>, extras: seq<string>)
    ensures ConfigHash in AppendUnique(reasons, extras) <==> ConfigHash in reasons
  {
    if extras != [] {
      ExtrasSaveHash(reasons, extras[..|extras| - 1]);
    }
  }

  lemma WithoutHash(a: seq<Reason>, b: seq<Reason>)
    requires ConfigHash !in b
    ensures ConfigHash in a + b <==> ConfigHash in a
  {
  }

  lemma HashOnlyFromHashes(d: Desired, p: Pod)
    ensures ConfigHash in ReasonsFor(d, p) <==> ConfigHash in HashReasons(d, p)
  {
    ContainersSaveHash(d.spec, p.containers);
    var one := HashReasons(d, p) + AllContainerReasons(d.spec, p.containers);
    var two := one + LayoutReasons(d, p);
    WithoutHash(HashReasons(d, p), AllContainerReasons(d.spec, p.containers));
    WithoutHash(one, LayoutReasons(d, p));
    WithoutHash(two, HealthReasons(d, p));
    ExtrasSaveHash(two + HealthReasons(d, p), StorageExtras(d, p));
    WithoutHash(AppendUnique(two + HealthReasons(d, p), StorageExtras(d, p)), MetricsReasons(d, p));
  }

  /** Planning asks for a restart over the config hash exactly when the annotation is not the wanted hash. */
  lemma ConfigHashReasonIff(d: Desired, podCount: nat, p: Pod)
    ensures ConfigHash in Drift(d, podCount, p) <==> DesiredHash(d) != "" && p.configHash != DesiredHash(d)
  {
    HashOnlyFromHashes(d, p);
    WithoutHash(ReasonsFor(d, p), When(ScalesDown(d, podCount, p), ScaleDown));
  }

  /** After a successful sync no pod is planned over its config hash. */
  lemma SyncedPodsNotPlanned(d: Desired, podCount: nat, pods: seq<Pod>, i: nat)
    requires i < |pods| && HashesShow(pods, DesiredHash(d))
    ensures ConfigHash !in Drift(d, podCount, pods[i])
  {
    ConfigHashReasonIff(d, podCount, pods[i]);
  }
}
