/** Whole rolling updates in Sentinel mode: any number of reconciles, each followed by the evicted pod coming
    back updated, ready and healthy. */
module RollingRun {
  import opened Base
  import opened Network
  import opened Spec
  import opened Topology
  import opened Status
  import opened Update
  import opened Reconcile

  /** What stays fixed during the update: the spec, the wanted template, the pods' names, and which pods count
      as out of date. */
  datatype Setup = Setup(spec: ClusterSpec, template: Option<Template>, names: set<string>, stale: Pod -> bool)

  /** The pods, the master, the former master on record, and the restarts asked for by volume resizes. */
  datatype World = World(pods: PodList, master: string, former: string, storage: map<string, seq<string>>)

  /** What one reconcile meets: overrides set by earlier phases (quorum, import, bootstrap), everything else
      it reads, how its calls are answered, and the pod that replaces an evicted one. An eviction or failover that
      reports an error may have worked all the same. */
  datatype Weather = Weather(
    overrides: map<CondType, ConditionState>, sentinels: PodList, sentinelTemplate: Option<Template>,
    previous: ClusterStatus, now: int, quorumOk: bool, answers: Answers, replacement: Pod, errorApplied: bool)

  function AllHealthy(names: set<string>): map<string, Health> {
    map n | n in names :: Healthy
  }

  function Wanted(s: Setup, storage: map<string, seq<string>>): Desired {
    Desired(s.spec, s.template, AllHealthy(s.names), storage)
  }

  /** A volume resize asks for the pod's restart. */
  predicate Asked(storage: map<string, seq<string>>, name: string) {
    name in storage && exists i :: 0 <= i < |storage[name]| && storage[name][i] != ""
  }

  /** A pod is out of date when PlanUpdates has a reason of its own to restart it; its role label is never one. */
  ghost predicate StaleMeansDrift(s: Setup) {
    0 <= s.spec.redisReplicas &&
    forall p: Pod {:trigger Drift(Wanted(s, map[]), s.spec.redisReplicas, p)} ::
      s.stale(p) <==> Drift(Wanted(s, map[]), s.spec.redisReplicas, p) != []
  }

  ghost predicate RoleBlind(s: Setup) {
    forall p: Pod, role: Role :: s.stale(p.(role := role)) == s.stale(p)
  }

  lemma DriftIsRoleBlind(s: Setup)
    requires StaleMeansDrift(s)
    ensures RoleBlind(s)
  {
    forall p: Pod, role: Role ensures s.stale(p.(role := role)) == s.stale(p) {
      ReasonsIgnoreRole(Wanted(s, map[]), p, role);
      var n := s.spec.redisReplicas;
      assert Drift(Wanted(s, map[]), n, p.(role := role)) == Drift(Wanted(s, map[]), n, p);
    }
  }

  lemma {:induction false} ExtrasAsk(reasons: seq<Reason>, extras: seq<string>)
    ensures AppendUnique(reasons, extras) == [] <==> reasons == [] && forall i :: 0 <= i < |extras| ==> extras[i] == ""
  {
    if extras != [] {
      var n := |extras| - 1;
      ExtrasAsk(reasons, extras[..n]);
      assert forall i :: 0 <= i < n ==> extras[..n][i] == extras[i];
    }
  }

  /** The reasons that do not come from storage. */
  function OwnReasons(d: Desired, p: Pod): seq<Reason> {
    HashReasons(d, p) + AllContainerReasons(d.spec, p.containers) + LayoutReasons(d, p) + HealthReasons(d, p)
  }

  lemma OwnReasonsAlike(d: Desired, e: Desired, p: Pod)
    requires e == d.(storage := e.storage)
    ensures OwnReasons(d, p) == OwnReasons(e, p) && MetricsReasons(d, p) == MetricsReasons(e, p)
  {
    HashesAlike(d, e, p);
    LayoutAlike(d, e, p);
  }

  lemma HashesAlike(d: Desired, e: Desired, p: Pod)
    requires e == d.(storage := e.storage)
    ensures HashReasons(d, p) == HashReasons(e, p)
  {
  }

  lemma LayoutAlike(d: Desired, e: Desired, p: Pod)
    requires e == d.(storage := e.storage)
    ensures LayoutReasons(d, p) == LayoutReasons(e, p) && HealthReasons(d, p) == HealthReasons(e, p)
  {
  }

  lemma ReasonsEmptyIff(d: Desired, p: Pod)
    ensures ReasonsFor(d, p) == [] <==>
              OwnReasons(d, p) == [] && MetricsReasons(d, p) == [] && !Asked(d.storage, p.name)
  {
    ExtrasAsk(OwnReasons(d, p), StorageExtras(d, p));
    assert ReasonsFor(d, p) == AppendUnique(OwnReasons(d, p), StorageExtras(d, p)) + MetricsReasons(d, p);
  }

  /** A pod is planned exactly when it is out of date or a resize asks for its restart. */
  lemma DriftOrAsked(s: Setup, storage: map<string, seq<string>>, count: nat, p: Pod)
    ensures Drift(Wanted(s, storage), count, p) != [] <==>
              Drift(Wanted(s, map[]), count, p) != [] || Asked(storage, p.name)
  {
    OwnReasonsAlike(Wanted(s, storage), Wanted(s, map[]), p);
    ReasonsEmptyIff(Wanted(s, storage), p);
    ReasonsEmptyIff(Wanted(s, map[]), p);
  }

  /** Between reconciles: all pods there, ready and labelled as the labels phase leaves them. */
  ghost predicate Steady(s: Setup, w: World) {
    && s.spec.mode == SentinelMode && |w.pods| == s.spec.redisReplicas && 2 <= |w.pods|
    && RequiredMembers(s.spec) <= |w.pods|
    && Names(w.pods) == s.names
    && w.master != "" && HasPod(w.pods, w.master)
    && forall i :: 0 <= i < |w.pods| ==>
         w.pods[i].ready && !w.pods[i].terminating && w.pods[i].role == RoleIn(w.pods[i].name, w.master)
  }

  /** The pod is still to be restarted. */
  predicate Due(s: Setup, w: World, p: Pod) {
    s.stale(p) || Asked(w.storage, p.name)
  }

  /** The names still to be restarted. */
  ghost function Stale(s: Setup, w: World): set<string> {
    set p | p in w.pods && Due(s, w, p) :: p.name
  }

  function StateIn(s: Setup, w: World, e: Weather): ClusterState {
    ClusterState(
      w.master, w.pods, map n | n in s.names :: RoleIn(n, w.master), e.sentinels, AllHealthy(s.names), map[],
      "sentinel", "", None, e.overrides, None)
  }

  function InputsIn(s: Setup, w: World, e: Weather): Inputs {
    Inputs(s.spec, StateIn(s, w, e), e.previous, e.now, w.pods, e.sentinels, s.template, e.sentinelTemplate, w.storage,
           true, e.quorumOk, w.former)
  }

  function Relabelled(pods: PodList, master: string): (r: PodList) {
    var r := seq(|pods|, i requires 0 <= i < |pods| => pods[i].(role := RoleIn(pods[i].name, master)));
    assert forall i :: 0 <= i < |r| ==> r[i].name == pods[i].name;
    r
  }

  function Replaced(pods: PodList, name: string, with: Pod): (r: PodList) {
    var r := seq(|pods|, i requires 0 <= i < |pods| => if pods[i].name == name then with.(name := name) else pods[i]);
    assert forall i :: 0 <= i < |r| ==> r[i].name == pods[i].name;
    r
  }

  /** The environment keeps its side: failover elects another pod, and the replacement is up to date. */
  ghost predicate Honest(s: Setup, w: World, e: Weather)
  {
    && ComputedOnly(StateIn(s, w, e))
    && (MovedTo(e.answers.failover).Some? ==>
          var to := MovedTo(e.answers.failover).value; to in s.names && to != w.master && to != "")
    && e.replacement.ready && !e.replacement.terminating
    && forall n :: n in Stale(s, w) ==> !s.stale(e.replacement.(name := n, role := Replica))
  }

  /** A reconcile nothing stands in the way of. */
  ghost predicate Calm(s: Setup, w: World, e: Weather)
  {
    && NothingPaused(s.spec, StateIn(s, w, e))
    && e.answers.annotationsOk && e.answers.redis.get.Got? && e.answers.redis.evict.EvictDone?
    && (Stale(s, w) == {w.master} ==>
          e.quorumOk && e.answers.failover.NewMaster? &&
          exists p :: p in w.pods && GoodSlave(InputsIn(s, w, e), e.answers, p))
  }

  // ---- facts about a steady world ----

  lemma NameListed(pods: PodList, i: nat)
    requires i < |pods|
    ensures pods[i].name in Names(pods) && HasPod(pods, pods[i].name)
  {
    assert pods[i] in pods;
  }

  lemma HasPodName(pods: PodList, n: string)
    ensures HasPod(pods, n) <==> n in Names(pods)
  {
    if HasPod(pods, n) { var i :| 0 <= i < |pods| && pods[i].name == n; NameListed(pods, i); }
    if n in Names(pods) { var p :| p in pods && p.name == n; var i :| 0 <= i < |pods| && pods[i] == p; }
  }

  /** The plan lists the stale names, each once. */
  ghost predicate Lists(plan: Plan, s: Setup, w: World) {
    NoRepeats(plan.names) && forall n :: n in plan.names <==> n in Stale(s, w)
  }

  lemma PlanIsStale(s: Setup, w: World, plan: Plan)
    requires Steady(s, w) && StaleMeansDrift(s) && IsPlan(plan, Wanted(s, w.storage), w.pods)
    ensures Lists(plan, s, w)
  {
    forall n ensures n in plan.names <==> n in Stale(s, w) {
      if HasPod(w.pods, n) {
        var i :| 0 <= i < |w.pods| && w.pods[i].name == n;
        FindPodAt(w.pods, i);
        StaleAt(s, w, i);
        DriftOrAsked(s, w.storage, |w.pods|, w.pods[i]);
      } else {
        HasPodName(w.pods, n);
        assert n !in Names(w.pods);
      }
    }
  }

  lemma StaleAt(s: Setup, w: World, i: nat)
    requires Steady(s, w) && i < |w.pods|
    ensures w.pods[i].name in Stale(s, w) <==> Due(s, w, w.pods[i])
  {
    assert w.pods[i] in w.pods;
    if w.pods[i].name in Stale(s, w) {
      var p :| p in w.pods && Due(s, w, p) && p.name == w.pods[i].name;
      var j :| 0 <= j < |w.pods| && w.pods[j] == p;
    }
  }

  /** In a steady world some other pod is always there. */
  lemma SomeOther(s: Setup, w: World, n: string) returns (p: Pod)
    requires Steady(s, w)
    ensures p in w.pods && p.name != n && p.name in s.names && p.ready && p.role == RoleIn(p.name, w.master)
  {
    var i := if w.pods[0].name == n then 1 else 0;
    NameListed(w.pods, i);
    p := w.pods[i];
  }

  lemma {:induction false} CountSplit<T>(s: seq<T>, f: T -> bool, g: T -> bool)
    requires forall i :: 0 <= i < |s| ==> f(s[i]) != g(s[i])
    ensures Count(s, f) + Count(s, g) == |s|
  {
    if s != [] {
      CountSplit(s[..|s| - 1], f, g);
    }
  }

  lemma RolesAndHealth(s: Setup, w: World, e: Weather, i: nat)
    requires Steady(s, w) && i < |w.pods|
    ensures RoleOf(StateIn(s, w, e), w.pods[i]) == RoleIn(w.pods[i].name, w.master)
    ensures IsReplicaPod(StateIn(s, w, e), w.pods[i]) <==> w.pods[i].name != w.master
    ensures HealthOf(StateIn(s, w, e), w.pods[i]) == Healthy && ReplicaHealth(StateIn(s, w, e), w.pods[i]) == Healthy
  {
    NameListed(w.pods, i);
  }

  lemma SteadyMaster(s: Setup, w: World, e: Weather) returns (k: nat)
    requires Steady(s, w)
    ensures k < |w.pods| && SoleMaster(StateIn(s, w, e), k) && w.pods[k].name == w.master
    ensures OneReadyMaster(StateIn(s, w, e)) && MasterHealth(StateIn(s, w, e)) == Healthy
  {
    var st := StateIn(s, w, e);
    k :| 0 <= k < |w.pods| && w.pods[k].name == w.master;
    forall i | 0 <= i < |w.pods| ensures RoleOf(st, w.pods[i]) == Master <==> i == k {
      RolesAndHealth(s, w, e, i);
    }
    assert SoleMaster(st, k);
    RolesAndHealth(s, w, e, k);
    LastMasterIs(st, w.pods, k);
  }

  lemma SteadyReplicas(s: Setup, w: World, e: Weather)
    requires Steady(s, w)
    ensures ReplicasHealthy(StateIn(s, w, e))
    ensures exists p :: p in w.pods && IsReplicaPod(StateIn(s, w, e), p)
  {
    var st := StateIn(s, w, e);
    forall p | p in w.pods ensures ReplicaHealth(st, p) == Healthy {
      var i :| 0 <= i < |w.pods| && w.pods[i] == p;
      RolesAndHealth(s, w, e, i);
    }
    var p := SomeOther(s, w, w.master);
    var i :| 0 <= i < |w.pods| && w.pods[i] == p;
    RolesAndHealth(s, w, e, i);
  }

  /** All members count as healthy. */
  lemma SteadyMembers(s: Setup, w: World, e: Weather)
    requires Steady(s, w)
    ensures HealthyMembers(StateIn(s, w, e)) == |w.pods|
  {
    var st := StateIn(s, w, e);
    var k := SteadyMaster(s, w, e);
    forall i | 0 <= i < |w.pods| ensures HealthyReplica(st)(w.pods[i]) != IsMasterPod(st)(w.pods[i]) {
      RolesAndHealth(s, w, e, i);
    }
    CountSole(st, w.pods, k);
    CountSplit(w.pods, HealthyReplica(st), IsMasterPod(st));
  }

  lemma OrderHas()
    ensures FailoverInProgress in ORDER && BootstrapInProgress in ORDER
    ensures SentinelQuorum in ORDER && ReplicationHealthy in ORDER
  {
    assert ORDER[4] == FailoverInProgress && ORDER[7] == BootstrapInProgress;
    assert ORDER[2] == SentinelQuorum && ORDER[3] == ReplicationHealthy;
  }

  /** With nothing paused, the gate of a steady world is open and the guard passes. */
  lemma SteadyGuard(s: Setup, w: World, e: Weather)
    requires Steady(s, w) && ComputedOnly(StateIn(s, w, e)) && NothingPaused(s.spec, StateIn(s, w, e))
    ensures
      var x := InputsIn(s, w, e);
      var status := StatusOf(x.spec, x.st, x.previous, x.now);
      && GuardPasses(x, status)
      && CondIs(status.conditions, SentinelQuorum, True) && CondIs(status.conditions, ReplicationHealthy, True)
  {
    var x := InputsIn(s, w, e);
    var _ := SteadyMaster(s, w, e);
    SteadyReplicas(s, w, e);
    SteadyMembers(s, w, e);
    GateMeaning(s.spec, x.st);
    OrderHas();
    GateStates(x);
    CondsShow(x.spec, x.st, x.previous, x.now, FailoverInProgress, True);
    CondsShow(x.spec, x.st, x.previous, x.now, BootstrapInProgress, True);
    CondsShow(x.spec, x.st, x.previous, x.now, SentinelQuorum, True);
    CondsShow(x.spec, x.st, x.previous, x.now, ReplicationHealthy, True);
    var p := SomeOther(s, w, w.master);
    assert p in x.pods && p.role == Replica && HealthyFor(p, x.st.health);
  }

  lemma GateStates(x: Inputs)
    requires GateOpen(x.spec, x.st)
    ensures StateFor(x.spec, x.st, FailoverInProgress).status != True
    ensures StateFor(x.spec, x.st, BootstrapInProgress).status != True
    ensures StateFor(x.spec, x.st, SentinelQuorum).status == True
    ensures StateFor(x.spec, x.st, ReplicationHealthy).status == True
  {
  }

  lemma ReadyAll(s: Setup, w: World)
    requires Steady(s, w)
    ensures Count(w.pods, IsReady()) == |w.pods|
  {
    CountAll(w.pods, IsReady());
  }

  /** Every planned pod but the master may be evicted; the master may not. */
  lemma SteadyEvictable(s: Setup, w: World, e: Weather, plan: Plan, n: string)
    requires Steady(s, w) && HasPod(w.pods, n)
    ensures Evictable(s.spec, plan, w.pods, AllHealthy(s.names), RedisComponent, n) <==> n != w.master
  {
    var i :| 0 <= i < |w.pods| && w.pods[i].name == n;
    FindPodAt(w.pods, i);
    ReadyAll(s, w);
    var p := SomeOther(s, w, n);
    assert HealthyFor(p, AllHealthy(s.names));
    assert OtherHealthy(w.pods, AllHealthy(s.names), n);
  }

  // ---- one reconcile ----

  datatype Deed = Idle | Restarted(pod: string) | FailedOver(from: string, to: string)

  function DeedOf(w: World, o: Outcome, e: Weather): Deed {
    if o.failover.Some? && MovedTo(o.failover.value).Some? then FailedOver(w.master, MovedTo(o.failover.value).value)
    else if o.exec.Some? && (o.exec.value.Evicted? || (o.exec.value.ExecFailed? && e.errorApplied)) then
      Restarted(o.exec.value.pod)
    else Idle
  }

  function Next(w: World, deed: Deed, e: Weather, former: string): World {
    match deed
    case Idle => w.(former := former)
    case Restarted(pod) =>
      World(Relabelled(Replaced(w.pods, pod, e.replacement), w.master), w.master, former, w.storage - {pod})
    case FailedOver(_, to) => World(Relabelled(w.pods, to), to, former, w.storage)
  }

  lemma RelabelKeeps(s: Setup, w: World, to: string, former: string)
    requires Steady(s, w) && RoleBlind(s) && to in s.names && to != ""
    ensures Steady(s, World(Relabelled(w.pods, to), to, former, w.storage))
    ensures Stale(s, World(Relabelled(w.pods, to), to, former, w.storage)) == Stale(s, w)
  {
    var v := World(Relabelled(w.pods, to), to, former, w.storage);
    SameNamesAt(w.pods, v.pods);
    HasPodName(v.pods, to);
    assert Steady(s, v);
    forall i | 0 <= i < |w.pods| ensures Due(s, v, v.pods[i]) <==> Due(s, w, w.pods[i]) {
      assert v.pods[i] == w.pods[i].(role := RoleIn(w.pods[i].name, to));
    }
    SameStale(s, w, v, {});
  }

  lemma SameNamesAt(pods: PodList, again: PodList)
    requires |pods| == |again| && forall i :: 0 <= i < |pods| ==> again[i].name == pods[i].name
    ensures Names(pods) == Names(again)
  {
    forall n ensures n in Names(pods) <==> n in Names(again) {
      HasPodName(pods, n);
      HasPodName(again, n);
      if HasPod(pods, n) { var i :| 0 <= i < |pods| && pods[i].name == n; assert again[i].name == n; }
      if HasPod(again, n) { var i :| 0 <= i < |again| && again[i].name == n; assert pods[i].name == n; }
    }
  }

  lemma SameStale(s: Setup, w: World, v: World, gone: set<string>)
    requires Steady(s, w) && Steady(s, v) && |v.pods| == |w.pods|
    requires forall i :: 0 <= i < |w.pods| ==> v.pods[i].name == w.pods[i].name
    requires forall i :: 0 <= i < |w.pods| ==>
               (Due(s, v, v.pods[i]) <==> Due(s, w, w.pods[i]) && w.pods[i].name !in gone)
    ensures Stale(s, v) == Stale(s, w) - gone
  {
    forall n ensures n in Stale(s, v) <==> n in Stale(s, w) - gone {
      HasPodName(w.pods, n);
      HasPodName(v.pods, n);
      if HasPod(w.pods, n) {
        var i :| 0 <= i < |w.pods| && w.pods[i].name == n;
        StaleAt(s, w, i);
        StaleAt(s, v, i);
      }
    }
  }

  /** The pod may take the place of an evicted one. */
  predicate Fit(s: Setup, with: Pod, pod: string) {
    with.ready && !with.terminating && !s.stale(with.(name := pod, role := Replica))
  }

  lemma DueAfterRestart(s: Setup, w: World, e: Weather, pod: string, former: string, i: nat)
    requires Steady(s, w) && Fit(s, e.replacement, pod) && pod != w.master && i < |w.pods|
    ensures
      var v := Next(w, Restarted(pod), e, former);
      Due(s, v, v.pods[i]) <==> Due(s, w, w.pods[i]) && w.pods[i].name != pod
  {
    var v := Next(w, Restarted(pod), e, former);
    if w.pods[i].name == pod {
      assert v.pods[i] == e.replacement.(name := pod, role := Replica);
      assert !Asked(v.storage, pod);
    } else {
      assert v.pods[i] == w.pods[i];
      assert Asked(v.storage, w.pods[i].name) <==> Asked(w.storage, w.pods[i].name);
    }
  }

  lemma RestartSteady(s: Setup, w: World, e: Weather, pod: string, former: string)
    requires Steady(s, w) && Fit(s, e.replacement, pod) && pod != w.master
    ensures Steady(s, Next(w, Restarted(pod), e, former))
  {
    var v := Next(w, Restarted(pod), e, former);
    SameNamesAt(w.pods, v.pods);
    HasPodName(w.pods, w.master);
    HasPodName(v.pods, w.master);
  }

  lemma RestartStale(s: Setup, w: World, e: Weather, pod: string, former: string)
    requires Steady(s, w) && Fit(s, e.replacement, pod) && pod != w.master
    ensures Stale(s, Next(w, Restarted(pod), e, former)) == Stale(s, w) - {pod}
  {
    var v := Next(w, Restarted(pod), e, former);
    RestartSteady(s, w, e, pod, former);
    forall i | 0 <= i < |w.pods| ensures Due(s, v, v.pods[i]) <==> Due(s, w, w.pods[i]) && w.pods[i].name != pod {
      DueAfterRestart(s, w, e, pod, former, i);
    }
    SameStale(s, w, v, {pod});
  }

  lemma RestartKeeps(s: Setup, w: World, e: Weather, pod: string, former: string)
    requires Steady(s, w) && Honest(s, w, e) && pod in Stale(s, w) && pod != w.master
    ensures
      var v := Next(w, Restarted(pod), e, former);
      Steady(s, v) && Stale(s, v) == Stale(s, w) - {pod}
  {
    assert Fit(s, e.replacement, pod);
    RestartSteady(s, w, e, pod, former);
    RestartStale(s, w, e, pod, former);
  }

  /** What one reconcile of a steady world does to it: one stale non-master pod is brought up to date, or, when
      only the master is stale, the mastership moves, whatever the failover reported, or nothing; and with nothing in
      the way it does act. */
  ghost predicate RollStep(s: Setup, w: World, e: Weather, v: World, deed: Deed)
  {
    && Steady(s, v)
    && (deed.Restarted? ==> deed.pod in Stale(s, w) && deed.pod != w.master && v.master == w.master &&
                            LabelledOther(w.pods, deed.pod))
    && (deed.FailedOver? ==> Stale(s, w) == {w.master} && v.master != w.master)
    && (deed.Idle? ==> v.pods == w.pods && v.master == w.master)
    && (v.former != w.former ==> deed.FailedOver? && v.former == w.master)
    && Stale(s, v) == (if deed.Restarted? then Stale(s, w) - {deed.pod} else Stale(s, w))
    && (Calm(s, w, e) && Stale(s, w) != {} ==> !deed.Idle?)
  }

  lemma OnlyElement(names: seq<string>, m: string)
    requires NoRepeats(names) && m in names && forall n :: n in names ==> n == m
    ensures names == [m]
  {
    assert forall i :: 0 <= i < |names| ==> names[i] in names;
    assert names[|names| - 1] == m == names[0];
  }

  lemma SoleName(names: seq<string>, all: set<string>, m: string)
    requires NoRepeats(names) && forall n :: n in names <==> n in all
    ensures |names| == 1 && names[0] == m <==> all == {m}
  {
    if all == {m} {
      OnlyElement(names, m);
    } else if |names| == 1 {
      assert names[0] in all && forall n :: n in all ==> n in names;
    }
  }

  /** The failover branch of a reconcile. */
  lemma FailoverDeed(s: Setup, w: World, e: Weather, o: Outcome)
    requires Steady(s, w) && Honest(s, w, e) && Lists(o.plan, s, w)
    requires o.plan.names != [] && RedisStep(InputsIn(s, w, e), e.answers, o)
    requires o.failover.Some? && MovedTo(o.failover.value).Some?
    ensures var to := MovedTo(o.failover.value).value;
            Stale(s, w) == {w.master} && to in s.names && to != w.master && to != ""
  {
    SoleName(o.plan.names, Stale(s, w), w.master);
  }

  /** The eviction branch of a reconcile. */
  lemma ExecDeed(s: Setup, w: World, e: Weather, o: Outcome)
    requires Steady(s, w) && Lists(o.plan, s, w)
    requires o.plan.names != [] && RedisStep(InputsIn(s, w, e), e.answers, o) && o.exec.Some?
    ensures !o.exec.value.Nothing?
    ensures o.exec.value.pod in Stale(s, w) && o.exec.value.pod != w.master
    ensures LabelledOther(w.pods, o.exec.value.pod)
  {
    SoleName(o.plan.names, Stale(s, w), w.master);
    var x := InputsIn(s, w, e);
    var r := o.exec.value;
    var other := NonMaster(s, w, o.plan);
    assert o.plan.names[other] in o.plan.names;
    assert HasPod(w.pods, o.plan.names[other]);
    SteadyEvictable(s, w, e, o.plan, o.plan.names[other]);
    assert Undisturbed(w.pods, o.plan);
    assert !r.Nothing?;
    var k :| FirstEvictable(x.spec, o.plan, x.pods, x.st.health, RedisComponent, k) && o.plan.names[k] == r.pod;
    assert o.plan.names[k] in o.plan.names;
    SteadyEvictable(s, w, e, o.plan, r.pod);
    var i :| 0 <= i < |w.pods| && w.pods[i].name == r.pod;
    FindPodAt(w.pods, i);
  }

  /** Off the failover path some planned pod is not the master. */
  lemma NonMaster(s: Setup, w: World, plan: Plan) returns (k: nat)
    requires NoRepeats(plan.names) && plan.names != [] && !(|plan.names| == 1 && plan.names[0] == w.master)
    ensures k < |plan.names| && plan.names[k] != w.master
  {
    k := if plan.names[0] == w.master then 1 else 0;
  }

  /** At most one pod is asked for, never a former master, and a pod restarted is one asked for. */
  ghost predicate TouchedFor(touched: seq<Touch>, deed: Deed) {
    && |touched| <= 1 && (forall t :: t in touched ==> !t.FormerTouch?)
    && (deed.Restarted? ==> touched == [PlanTouch(deed.pod)])
  }

  lemma SteadyTouches(s: Setup, w: World, e: Weather, o: Outcome)
    requires Steady(s, w) && Lists(o.plan, s, w) && |o.touched| <= 1
    requires o.plan.names != [] ==> RedisStep(InputsIn(s, w, e), e.answers, o)
    requires o.plan.names == [] ==> o.failover.None? && o.exec.None? && forall t :: t in o.touched ==> t.SentinelTouch?
    ensures TouchedFor(o.touched, DeedOf(w, o, e))
  {
    if o.plan.names != [] && o.exec.Some? {
      ExecDeed(s, w, e, o);
    }
  }

  method RollingReconcile(s: Setup, w: World, e: Weather) returns (v: World, deed: Deed, touched: seq<Touch>)
    requires Steady(s, w) && Honest(s, w, e) && StaleMeansDrift(s)
    ensures RollStep(s, w, e, v, deed) && TouchedFor(touched, deed)
  {
    var x := InputsIn(s, w, e);
    var o := ReconcileUpdates(x, e.answers);
    PlanIsStale(s, w, o.plan);
    DriftIsRoleBlind(s);
    deed := DeedOf(w, o, e);
    v := Next(w, deed, e, o.formerMaster);
    touched := o.touched;
    SteadyTouches(s, w, e, o);
    RecordKept(s, w, e, o);
    StepHolds(s, w, e, o);
  }

  /** So the record changes only with a failover, to the master before it, and is never cleared. */
  lemma RecordKept(s: Setup, w: World, e: Weather, o: Outcome)
    requires TouchedFor(o.touched, DeedOf(w, o, e))
    requires FormerRecord(InputsIn(s, w, e), e.answers, o)
    ensures o.formerMaster != w.former ==> DeedOf(w, o, e).FailedOver? && o.formerMaster == w.master
  {
    assert FormerTouch(w.former) in [FormerTouch(w.former)];
  }

  lemma StepHolds(s: Setup, w: World, e: Weather, o: Outcome)
    requires Steady(s, w) && RoleBlind(s) && Honest(s, w, e) && Lists(o.plan, s, w)
    requires o.status == StatusOf(s.spec, StateIn(s, w, e), e.previous, e.now) && GuardSpec(InputsIn(s, w, e), o)
    requires o.plan.names != [] ==> RedisStep(InputsIn(s, w, e), e.answers, o)
    requires o.plan.names == [] ==> o.failover.None? && o.exec.None?
    requires o.formerMaster != w.former ==> DeedOf(w, o, e).FailedOver? && o.formerMaster == w.master
    ensures RollStep(s, w, e, Next(w, DeedOf(w, o, e), e, o.formerMaster), DeedOf(w, o, e))
  {
    var deed := DeedOf(w, o, e);
    if o.plan.names != [] {
      if deed.FailedOver? {
        FailoverDeed(s, w, e, o);
        RelabelKeeps(s, w, MovedTo(o.failover.value).value, o.formerMaster);
      } else if o.exec.Some? {
        ExecDeed(s, w, e, o);
        if deed.Restarted? {
          RestartKeeps(s, w, e, deed.pod, o.formerMaster);
        }
      }
      if Calm(s, w, e) {
        SteadyGuard(s, w, e);
        CalmActs(s, w, e, o);
      }
    } else {
      assert Stale(s, w) == {};
    }
  }

  /** An eviction that is answered well restarts a pod. */
  lemma CalmEvicts(s: Setup, w: World, e: Weather, o: Outcome)
    requires Steady(s, w) && Lists(o.plan, s, w) && e.answers.redis.get.Got? && e.answers.redis.evict.EvictDone?
    requires o.plan.names != [] && RedisStep(InputsIn(s, w, e), e.answers, o) && o.exec.Some?
    ensures o.exec.value.Evicted?
  {
    ExecDeed(s, w, e, o);
    assert ExecSpec(s.spec, o.plan, w.pods, AllHealthy(s.names), RedisComponent, e.answers.redis, o.exec.value);
  }

  lemma CalmActs(s: Setup, w: World, e: Weather, o: Outcome)
    requires Steady(s, w) && Calm(s, w, e) && Lists(o.plan, s, w)
    requires o.guard.Clear? && o.plan.names != [] && RedisStep(InputsIn(s, w, e), e.answers, o)
    requires CondIs(o.status.conditions, SentinelQuorum, True) && CondIs(o.status.conditions, ReplicationHealthy, True)
    ensures !DeedOf(w, o, e).Idle?
  {
    SoleName(o.plan.names, Stale(s, w), w.master);
    if o.exec.Some? {
      CalmEvicts(s, w, e, o);
    } else {
      CalmFailsOver(s, w, e, o);
    }
  }

  /** When only the master is left and nothing stands in the way, the mastership moves. */
  lemma CalmFailsOver(s: Setup, w: World, e: Weather, o: Outcome)
    requires Steady(s, w) && Calm(s, w, e) && Stale(s, w) == {w.master}
    requires o.guard.Clear? && RedisStep(InputsIn(s, w, e), e.answers, o) && FailoverPath(InputsIn(s, w, e), o.plan)
    requires CondIs(o.status.conditions, SentinelQuorum, True) && CondIs(o.status.conditions, ReplicationHealthy, True)
    ensures o.failover.Some? && o.failover.value.NewMaster?
  {
    assert FailoverReady(InputsIn(s, w, e), e.answers, o.status);
  }

  // ---- the whole run ----

  ghost function CalmSteps(s: Setup, worlds: seq<World>, run: seq<Weather>): nat
    requires |worlds| == |run|
  {
    if run == [] then 0
    else
      var n := |run| - 1;
      CalmSteps(s, worlds[..n], run[..n]) + if Calm(s, worlds[n], run[n]) then 1 else 0
  }

  /** A chain of reconciles from one world to the next. */
  ghost predicate IsRun(s: Setup, worlds: seq<World>, run: seq<Weather>, deeds: seq<Deed>)
  {
    |worlds| == |run| + 1 && |deeds| == |run| &&
    forall i :: 0 <= i < |run| ==> RollStep(s, worlds[i], run[i], worlds[i + 1], deeds[i])
  }

  function IsRestart(): Deed -> bool {
    (d: Deed) => d.Restarted?
  }

  function IsFailover(): Deed -> bool {
    (d: Deed) => d.FailedOver?
  }

  /** The heart of the run: restarts count down the stale pods; after a failover the only pod left to update
      is a replica, so there is no second one; and every calm reconcile uses up one of d + 1 possible acts. */
  lemma {:induction false} RunCounts(s: Setup, worlds: seq<World>, run: seq<Weather>, deeds: seq<Deed>)
    requires IsRun(s, worlds, run, deeds) && Steady(s, worlds[0])
    ensures Steady(s, worlds[|run|])
    ensures Tally(|Stale(s, worlds[0])|, Stale(s, worlds[|run|]), worlds[|run|].master,
                  Count(deeds, IsRestart()), Count(deeds, IsFailover()), CalmSteps(s, worlds[..|run|], run))
  {
    if run != [] {
      var n := |run| - 1;
      assert IsRun(s, worlds[..n + 1], run[..n], deeds[..n]);
      RunCounts(s, worlds[..n + 1], run[..n], deeds[..n]);
      assert worlds[..n + 1][..n] == worlds[..n];
      assert RollStep(s, worlds[n], run[n], worlds[n + 1], deeds[n]);
      TallyStep(|Stale(s, worlds[0])|, Stale(s, worlds[n]), worlds[n].master, Stale(s, worlds[n + 1]),
                worlds[n + 1].master, Count(deeds[..n], IsRestart()), Count(deeds[..n], IsFailover()),
                CalmSteps(s, worlds[..n], run[..n]), deeds[n], Calm(s, worlds[n], run[n]));
    }
  }

  /** The books of a run that started with `start` stale pods. */
  ghost predicate Tally(start: nat, left: set<string>, master: string, restarts: nat, failovers: nat, calm: nat) {
    && restarts + |left| == start && failovers <= 1
    && (failovers == 1 ==> |left| <= 1 && master !in left)
    && (left == {} || calm + |left| <= start + failovers)
  }

  lemma TallyStep(start: nat, before: set<string>, master: string, after: set<string>, next: string,
                  restarts: nat, failovers: nat, calm: nat, deed: Deed, calmNow: bool)
    requires Tally(start, before, master, restarts, failovers, calm)
    requires after == if deed.Restarted? then before - {deed.pod} else before
    requires deed.Restarted? ==> deed.pod in before && next == master
    requires deed.FailedOver? ==> before == {master} && next != master
    requires deed.Idle? ==> next == master
    requires calmNow && before != {} ==> !deed.Idle?
    ensures Tally(start, after, next, restarts + if deed.Restarted? then 1 else 0,
                  failovers + if deed.FailedOver? then 1 else 0, calm + if calmNow then 1 else 0)
  {
    if deed.Restarted? {
      assert before == after + {deed.pod};
    }
  }

  /** A rolling update of d stale pods: never a master is restarted, at most one failover happens, exactly d
      restarts have happened when nothing is stale any more, and d + 1 calm reconciles are enough to get there. */
  lemma RollingUpdate(s: Setup, worlds: seq<World>, run: seq<Weather>, deeds: seq<Deed>)
    requires IsRun(s, worlds, run, deeds) && Steady(s, worlds[0])
    ensures Count(deeds, IsFailover()) <= 1
    ensures Count(deeds, IsRestart()) == |Stale(s, worlds[0])| - |Stale(s, worlds[|run|])|
    ensures CalmSteps(s, worlds[..|run|], run) > |Stale(s, worlds[0])| ==>
              Stale(s, worlds[|run|]) == {} && Count(deeds, IsRestart()) == |Stale(s, worlds[0])|
    ensures forall i :: 0 <= i < |deeds| && deeds[i].Restarted? ==>
              LabelledOther(worlds[i].pods, deeds[i].pod)
  {
    RunCounts(s, worlds, run, deeds);
    if Stale(s, worlds[|run|]) != {} {
      var n :| n in Stale(s, worlds[|run|]);
      assert |Stale(s, worlds[|run|])| > 0;
    }
    forall i | 0 <= i < |deeds| && deeds[i].Restarted?
      ensures LabelledOther(worlds[i].pods, deeds[i].pod)
    {
      assert RollStep(s, worlds[i], run[i], worlds[i + 1], deeds[i]);
    }
  }

  /** A former master once on record stays on record through any run: a steady update never restarts it as such. */
  lemma {:induction false} FormerStays(s: Setup, worlds: seq<World>, run: seq<Weather>, deeds: seq<Deed>)
    requires IsRun(s, worlds, run, deeds) && Steady(s, worlds[0]) && worlds[0].former != ""
    ensures worlds[|run|].former != ""
    ensures worlds[|run|].former != worlds[0].former ==> Count(deeds, IsFailover()) == 1
  {
    if run != [] {
      var n := |run| - 1;
      assert IsRun(s, worlds[..n + 1], run[..n], deeds[..n]);
      FormerStays(s, worlds[..n + 1], run[..n], deeds[..n]);
      RunCounts(s, worlds[..n + 1], run[..n], deeds[..n]);
      RunCounts(s, worlds, run, deeds);
      assert RollStep(s, worlds[n], run[n], worlds[n + 1], deeds[n]);
    }
  }

  /** The environment's strategy: whatever world a reconcile starts from, it keeps its side. */
  ghost predicate Plays(s: Setup, weather: (nat, World) -> Weather) {
    forall k: nat, w: World :: Steady(s, w) ==> Honest(s, w, weather(k, w))
  }

  lemma ExtendRun(s: Setup, worlds: seq<World>, run: seq<Weather>, deeds: seq<Deed>, e: Weather, next: World,
                  deed: Deed)
    requires IsRun(s, worlds, run, deeds) && RollStep(s, worlds[|run|], e, next, deed)
    ensures IsRun(s, worlds + [next], run + [e], deeds + [deed])
  {
    var worlds', run', deeds' := worlds + [next], run + [e], deeds + [deed];
    forall i | 0 <= i < |run'| ensures RollStep(s, worlds'[i], run'[i], worlds'[i + 1], deeds'[i]) {
      if i < |run| {
        assert RollStep(s, worlds[i], run[i], worlds[i + 1], deeds[i]);
      }
    }
  }

  lemma RunEnd(s: Setup, worlds: seq<World>, run: seq<Weather>, deeds: seq<Deed>)
    requires IsRun(s, worlds, run, deeds) && Steady(s, worlds[0])
    ensures Steady(s, worlds[|run|])
  {
    RunCounts(s, worlds, run, deeds);
  }

  /** The weather of each reconcile is the environment's reply to the world it starts from. */
  ghost predicate PlayedBy(run: seq<Weather>, worlds: seq<World>, weather: (nat, World) -> Weather) {
    |run| <= |worlds| && forall i :: 0 <= i < |run| ==> run[i] == weather(i, worlds[i])
  }

  lemma ExtendPlayed(run: seq<Weather>, worlds: seq<World>, weather: (nat, World) -> Weather, e: Weather, next: World)
    requires |worlds| == |run| + 1 && PlayedBy(run, worlds, weather) && e == weather(|run|, worlds[|run|])
    ensures PlayedBy(run + [e], worlds + [next], weather)
  {
  }

  method RollOnce(s: Setup, w: World, weather: (nat, World) -> Weather, k: nat)
    returns (e: Weather, next: World, deed: Deed)
    requires Steady(s, w) && StaleMeansDrift(s) && Plays(s, weather)
    ensures e == weather(k, w) && RollStep(s, w, e, next, deed)
  {
    e := weather(k, w);
    var touched;
    next, deed, touched := RollingReconcile(s, w, e);
  }

  /** n reconciles in a row against any such environment form a run, so RollingUpdate speaks of the operator's
      own planning, guards, failover and eviction. */
  method RollAll(s: Setup, start: World, weather: (nat, World) -> Weather, n: nat)
    returns (worlds: seq<World>, run: seq<Weather>, deeds: seq<Deed>)
    requires Steady(s, start) && StaleMeansDrift(s) && Plays(s, weather)
    ensures |run| == n && IsRun(s, worlds, run, deeds) && worlds[0] == start
    ensures PlayedBy(run, worlds, weather)
  {
    if n == 0 {
      return [start], [], [];
    }
    worlds, run, deeds := RollAll(s, start, weather, n - 1);
    RunEnd(s, worlds, run, deeds);
    var e, next, deed := RollOnce(s, worlds[n - 1], weather, n - 1);
    ExtendRun(s, worlds, run, deeds, e, next, deed);
    ExtendPlayed(run, worlds, weather, e, next);
    worlds, run, deeds := worlds + [next], run + [e], deeds + [deed];
  }
}
