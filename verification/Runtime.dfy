/** The runtime phase (reconcile/phases/runtime.go): the topology call, the bootstrap retry with a forced
    master, the fallback roles, and the health map. */
module Runtime {
  import opened Base
  import opened Network
  import opened Redis
  import opened Ordering
  import opened MasterCache
  import opened Topology
  import opened TopologySources
  import opened Freshness
  import opened HealthCheck
  import opened Status
  import opened Update
  import opened Reconcile

  datatype RuntimeState = RuntimeState(
    master: string, roles: map<string, Role>, infos: map<string, ReplicationInfo>, source: Source, reason: string,
    failed: bool, candidate: Option<Candidate>, bootstrapping: bool)

  function ForcedRequest(req: Request, c: Candidate): Request {
    req.(force := c.name, forceReason :=
      match c.source
      case ForceMaster => "force-master"
      case Freshest => "freshness"
      case Seed => "seed")
  }

  /** The topology call and, when it failed with no pod ready, the second call with the bootstrap candidate.
      The second call acts on the candidate: a failed first one left nothing in the cache. A missing client factory
      or a broken TLS configuration fails both calls and changes nothing. `start` is the nodes as the last call's
      stages behind the cache find them. */
  method SettleTopology(
    fleet: Fleet, cache: MasterAddressCache?, req: Request, first: World, second: World,
    records: seq<FreshnessRecord>, readyCount: nat)
    returns (res: EnsureResult, err: bool, retried: Option<Candidate>, ghost start: map<string, ReplicationInfo>)
    requires cache != null ==> cache.Valid()
    requires Names(req.pods) <= fleet.nodes.Keys && req.force == ""
    modifies fleet, cache
    ensures cache != null ==> cache.Valid()
    ensures !ArgumentsOk(req) ==> err && fleet.nodes == old(fleet.nodes) && fleet.log == old(fleet.log)
    ensures !ArgumentsOk(req) && cache != null ==> cache.entries == old(cache.entries)
    ensures retried.Some? ==> readyCount == 0 && retried.value.name != ""
    ensures retried.None? && err ==> readyCount > 0 || records == [] || "" in PodNames(records)
    ensures retried.Some? && DistinctRecords(records) && TransitiveOn(records) ==> IsChoice(records, retried.value)
    ensures ArgumentsOk(req) && retried.Some? ==>
              FreshOutcome(start, ForcedRequest(req, retried.value), second, res.source, res.master, err)
    ensures !err && retried.Some? ==> Truthful(fleet.nodes, ForcedRequest(req, retried.value), res, second.mainPass)
    ensures ArgumentsOk(req) && err && cache != null ==> req.cluster !in cache.entries
    ensures ArgumentsOk(req) && cache != null && CacheSettles(old(cache.entries), old(fleet.nodes), req, first) ==>
              !err && retried.None? && res.source == CacheSource && res.master == old(cache.entries)[req.cluster].master
    ensures ArgumentsOk(req) && retried.None? &&
            (cache == null || !CacheSettles(old(cache.entries), old(fleet.nodes), req, first)) ==>
              FreshOutcome(start, req, first, res.source, res.master, err)
    ensures ArgumentsOk(req) && (cache == null || !CacheHit(old(cache.entries), req.cluster, first.lookupAt)) ==>
              (retried.None? ==> start == old(fleet.nodes)) &&
              (retried.Some? ==> FreshFails(old(fleet.nodes), req, first))
    ensures !err && retried.None? ==>
              Truthful(fleet.nodes, req, res, if res.source == CacheSource then first.cachePass else first.mainPass)
  {
    retried := None;
    res, err, start := EnsureTopology(fleet, cache, req, first);
    if err && readyCount == 0 {
      var c := SelectCandidate(records);
      if c.Some? && c.value.name != "" {
        retried := c;
        res, err, start := EnsureTopology(fleet, cache, ForcedRequest(req, c.value), second);
      }
    }
  }

  /** With a forced master the outcome is that of the pass to it. */
  lemma ForcedOutcome(nodes: map<string, ReplicationInfo>, req: Request, w: World, source: Source, master: string,
                      err: bool)
    requires req.force != "" && FreshOutcome(nodes, req, w, source, master, err)
    ensures source == ForcedSource && master == req.force
    ensures err <==> PassFails(nodes, TargetFor(req.cluster, req.pods, req.force, req.port), w.mainPass)
  {
    if PassFails(nodes, TargetFor(req.cluster, req.pods, req.force, req.port), w.mainPass) {
      assert IsFreshMaster(nodes, req, w, req.force);
    }
  }

  function FallbackMaster(pods: PodList): string {
    if pods == [] then "" else pods[0].name
  }

  function FallbackRoles(pods: PodList): map<string, Role> {
    map p | p in pods :: p.name := RoleIn(p.name, FallbackMaster(pods))
  }

  /** The phase up to the health map. A failed topology call, or no client factory to make it with, yields the first
      listed pod as master, everybody else as replica, and no INFO for anyone. */
  method ResolveRoles(
    fleet: Fleet, cache: MasterAddressCache?, req: Request, first: World, second: World,
    records: seq<FreshnessRecord>, readyCount: nat, rememberAt: int)
    returns (rt: RuntimeState)
    requires cache != null ==> cache.Valid()
    requires Names(req.pods) <= fleet.nodes.Keys && req.force == ""
    modifies fleet, cache
    ensures cache != null ==> cache.Valid()
    ensures !ArgumentsOk(req) ==> rt.failed
    ensures !req.factory ==> rt.candidate.None? && fleet.nodes == old(fleet.nodes)
    ensures rt.failed ==>
              rt.master == FallbackMaster(req.pods) && rt.roles == FallbackRoles(req.pods) && rt.infos == map[]
    ensures !rt.failed ==> rt.roles.Keys == rt.infos.Keys == Names(req.pods)
    ensures !rt.failed ==> forall n :: n in rt.roles ==>
              rt.roles[n] == RoleIn(n, rt.master) && rt.infos[n].role != ""
    ensures rt.bootstrapping <==> !rt.failed && rt.candidate.Some?
    ensures rt.candidate.Some? && !rt.failed ==> rt.master == rt.candidate.value.name && rt.source == ForcedSource
  {
    var res, err, retried := FAILED, true, None;
    if req.factory {
      ghost var start;
      res, err, retried, start := SettleTopology(fleet, cache, req, first, second, records, readyCount);
      if retried.Some? && !err {
        ForcedOutcome(start, ForcedRequest(req, retried.value), second, res.source, res.master, err);
      }
    }
    if err {
      rt := RuntimeState(FallbackMaster(req.pods), FallbackRoles(req.pods), map[], NoSource, "", true, retried, false);
      return;
    }
    rt := RuntimeState(res.master, res.roles, res.infos, res.source, res.reason, false, retried, retried.Some?);
    if cache != null {
      if res.drift != [] {
        cache.Invalidate(req.cluster);
      } else if res.master != "" {
        cache.Remember(req.cluster, res.master, res.reason, rememberAt);
      }
    }
  }

  /** The health loop over the Redis pods. */
  method EvaluateHealth(rt: RuntimeState, pods: PodList) returns (health: map<string, Health>, lags: map<string, int>)
    requires Names(pods) <= rt.roles.Keys
    ensures health.Keys == Names(pods)
    ensures forall i :: 0 <= i < |pods| ==> pods[i].name in health && health[pods[i].name] == PodHealthIn(rt, pods[i])
  {
    health, lags := map[], map[];
    var k := 0;
    while k < |pods|
      invariant 0 <= k <= |pods|
      invariant health.Keys == Names(pods[..k])
      invariant forall i :: 0 <= i < k ==> pods[i].name in health && health[pods[i].name] == PodHealthIn(rt, pods[i])
    {
      var p := pods[k];
      var info := if p.name in rt.infos then rt.infos[p.name] else NO_INFO;
      assert p in pods;
      var (h, lag) := EvaluatePodHealth(rt.roles[p.name], info, p.ready);
      health := health[p.name := h];
      if lag.Some? {
        lags := lags[p.name := lag.value];
      }
      assert pods[..k + 1] == pods[..k] + [p];
      NamesSnoc(pods[..k], p);
      k := k + 1;
    }
    assert pods[..k] == pods;
  }

  function PodHealthIn(rt: RuntimeState, p: Pod): Health {
    EvaluatePodHealth(
      if p.name in rt.roles then rt.roles[p.name] else Unset,
      if p.name in rt.infos then rt.infos[p.name] else NO_INFO, p.ready).0
  }

  /** The observed state the later phases get from the runtime phase. */
  ghost predicate Feeds(rt: RuntimeState, x: Inputs) {
    && WellFormed(x) && x.st.master == rt.master && x.st.roles == rt.roles
    && (forall p :: p in x.pods ==> p.name in x.st.health && x.st.health[p.name] == PodHealthIn(rt, p))
  }

  /** If the topology step failed and there are at least two Redis pods, a replica counts as Offline, the
      health gate is closed, and a plan without a TLS reason touches no Redis pod in that reconcile. */
  lemma TopologyFailureStopsEvictions(rt: RuntimeState, x: Inputs, a: Answers, o: Outcome)
    requires Feeds(rt, x) && ComputedOnly(x.st) && |x.pods| >= 2
    requires rt.failed && rt.master == x.pods[0].name && rt.roles == FallbackRoles(x.pods) && rt.infos == map[]
    requires o.status == StatusOf(x.spec, x.st, x.previous, x.now) && GuardSpec(x, o)
    requires o.plan.names != [] ==> RedisStep(x, a, o)
    requires o.plan.names == [] ==> forall t :: t in o.touched ==> t.SentinelTouch?
    requires !PlanHas(o.plan, TlsHash)
    ensures x.st.health[x.pods[1].name] == Offline
    ensures !GateOpen(x.spec, x.st)
    ensures forall t :: t in o.touched ==> t.SentinelTouch?
  {
    var p := x.pods[1];
    assert p in x.pods && p.name != x.pods[0].name;
    assert rt.roles[p.name] == Replica;
    assert PodHealthIn(rt, p) == Offline;
    assert IsReplicaPod(x.st, p) && ReplicaHealth(x.st, p) == Offline;
    assert !ReplicasHealthy(x.st);
    GateMeaning(x.spec, x.st);
    assert !GuardPasses(x, o.status);
  }
}
