/** The end of a reconcile, from planning on (controllers/controller.go): status, guard, controlled failover,
    the one eviction, the former master, and the Sentinel plan. */
module Reconcile {
  import opened Base
  import opened Network
  import opened Redis
  import opened Spec
  import opened Ordering
  import opened Topology
  import opened HealthCheck
  import opened Status
  import opened Update

  /** The answer of TriggerFailover. A failover that is refused or reports an error may have been accepted by a
      Sentinel all the same; `moved` is the pod that then became master. */
  datatype FailoverOutcome =
    | NewMaster(name: string)
    | NoGoodSlave(moved: Option<string>)
    | FailoverError(moved: Option<string>)

  /** Whom a failover made master, whatever it reported. */
  function MovedTo(f: FailoverOutcome): Option<string> {
    match f
    case NewMaster(name) => Some(name)
    case NoGoodSlave(moved) => moved
    case FailoverError(moved) => moved
  }

  /** What the reconcile has gathered when it starts planning. */
  datatype Inputs = Inputs(
    spec: ClusterSpec, st: ClusterState, previous: ClusterStatus, now: int, pods: PodList, sentinels: PodList,
    redisTemplate: Option<Template>, sentinelTemplate: Option<Template>, storage: map<string, seq<string>>,
    clients: bool, quorumOk: bool, formerMaster: string)

  /** How the outside world answers; `recorded` tells whether the patch of the former-master annotation took
      effect, as an error of that patch is only logged. */
  datatype Answers = Answers(
    annotationsOk: bool, nodes: map<string, ReplicationInfo>, infoOk: string -> bool, failover: FailoverOutcome,
    redis: EvictEnv, former: EvictEnv, sentinel: EvictEnv, recorded: bool)

  /** A pod the reconcile asked the API server to evict or delete, and on whose behalf. */
  datatype Touch = PlanTouch(pod: string) | FormerTouch(pod: string) | SentinelTouch(pod: string)

  datatype Outcome = Outcome(
    status: ClusterStatus, plan: Plan, guard: Guard, failover: Option<FailoverOutcome>, exec: Option<ExecResult>,
    touched: seq<Touch>, formerMaster: string)

  ghost predicate WellFormed(x: Inputs) {
    x.st.pods == x.pods && x.st.sentinels == x.sentinels
  }

  function RedisDesired(x: Inputs): Desired {
    Desired(x.spec, x.redisTemplate, x.st.health, x.storage)
  }

  // ---- a replica fit for failover ----

  /** A ready replica whose INFO answers, that follows the current master, and that is healthy. */
  predicate GoodSlave(x: Inputs, a: Answers, p: Pod) {
    var t := TargetFor(x.spec.cluster, x.pods, x.st.master, x.spec.redisPort);
    && p.name != x.st.master && p.ready && p.name in a.nodes && a.infoOk(p.name)
    && !EqualFold(a.nodes[p.name].role, "master")
    && HostMatchesMaster(a.nodes[p.name].masterHost, t.name, t.host, x.pods)
    && (a.nodes[p.name].masterPort == 0 || a.nodes[p.name].masterPort == t.port)
    && EvaluatePodHealth(Replica, a.nodes[p.name], true).0 == Healthy
  }

  method HasGoodSlave(x: Inputs, a: Answers) returns (found: bool)
    ensures found <==> exists p :: p in x.pods && GoodSlave(x, a, p)
  {
    var k := 0;
    while k < |x.pods|
      invariant 0 <= k <= |x.pods|
      invariant forall i :: 0 <= i < k ==> !GoodSlave(x, a, x.pods[i])
    {
      if GoodSlave(x, a, x.pods[k]) {
        return true;
      }
      k := k + 1;
    }
    return false;
  }

  // ---- the Redis part ----

  predicate OnlyMasterPending(plan: Plan, master: string) {
    master != "" && |plan.names| == 1 && plan.names[0] == master
  }

  /** The reconcile takes the failover path instead of evicting. */
  predicate FailoverPath(x: Inputs, plan: Plan) {
    OnlyMasterPending(plan, x.st.master) && x.spec.mode == SentinelMode && x.clients
  }

  ghost predicate FailoverReady(x: Inputs, a: Answers, status: ClusterStatus) {
    && CondIs(status.conditions, SentinelQuorum, True)
    && CondIs(status.conditions, ReplicationHealthy, True)
    && (exists p :: p in x.pods && GoodSlave(x, a, p))
    && x.quorumOk
  }

  /** The former master may be restarted: it is listed and not terminating, and some other pod is ready. Whether
      other pods are terminating is not asked. */
  ghost predicate FormerEvictable(pods: PodList, name: string) {
    && name != "" && HasPod(pods, name) && !FindPod(pods, name).value.terminating
    && exists p :: p in pods && p.name != name && p.ready
  }

  /** tryEvictFormerMaster. */
  method TryEvictFormerMaster(pods: PodList, name: string, env: EvictEnv) returns (r: ExecResult, err: bool)
    ensures r.Nothing? <==> !FormerEvictable(pods, name) || !env.get.Got?
    ensures !r.Nothing? ==>
              r.pod == name && (r.Evicted? <==> env.evict.EvictDone?) && (r.Rejected? <==> env.evict.EvictRejected?)
    ensures err <==> FormerEvictable(pods, name) && (env.get.GetFailed? || (env.get.Got? && !env.evict.EvictDone?))
  {
    var pod := FindPod(pods, name);
    if name == "" || pod.None? || pod.value.terminating {
      return Nothing, false;
    }
    var others, k := 0, 0;
    while k < |pods|
      invariant 0 <= k <= |pods| && others >= 0
      invariant others > 0 ==> exists p :: p in pods && p.name != name && p.ready
      invariant others == 0 ==> forall i :: 0 <= i < k ==> pods[i].name == name || !pods[i].ready
    {
      if pods[k].name != name && pods[k].ready {
        assert pods[k] in pods;
        others := others + 1;
      }
      k := k + 1;
    }
    if others == 0 {
      return Nothing, false;
    }
    if !env.get.Got? {
      return Nothing, env.get.GetFailed?;
    }
    match env.evict
    case EvictDone => return Evicted(name), false;
    case EvictRejected => return Rejected(name), true;
    case EvictError => return ExecFailed(name), true;
  }

  /** What the part of a reconcile that handles a non-empty Redis plan may do. */
  ghost predicate RedisStep(x: Inputs, a: Answers, o: Outcome) {
    && (o.failover.Some? <==>
          o.guard.Clear? && a.annotationsOk && FailoverPath(x, o.plan) && FailoverReady(x, a, o.status))
    && (o.failover.Some? ==> o.failover.value == a.failover && o.touched == [])
    && (o.exec.Some? <==> o.guard.Clear? && a.annotationsOk && !FailoverPath(x, o.plan))
    && (o.exec.Some? ==> ExecSpec(x.spec, o.plan, x.pods, x.st.health, RedisComponent, a.redis, o.exec.value))
    && (o.exec.Some? && !o.exec.value.Nothing? ==> o.touched == [PlanTouch(o.exec.value.pod)])
    && (o.exec.Some? && o.exec.value.Nothing? ==> o.touched == FormerTouches(x, a))
    && (o.exec.None? ==> o.touched == [])
  }

  /** Execute found nothing to do: the former master on record is asked for, where it may be restarted. */
  ghost function FormerTouches(x: Inputs, a: Answers): seq<Touch> {
    if FormerEvictable(x.pods, x.formerMaster) && a.former.get.Got? then [FormerTouch(x.formerMaster)] else []
  }

  /** The former master on record afterwards: the old master after a successful failover, nobody once it was
      restarted on its own, otherwise who it was. */
  ghost predicate FormerRecord(x: Inputs, a: Answers, o: Outcome) {
    o.formerMaster ==
    if !a.recorded then x.formerMaster
    else if o.failover.Some? && o.failover.value.NewMaster? then x.st.master
    else if o.touched == [FormerTouch(x.formerMaster)] && a.former.evict.EvictDone? then ""
    else x.formerMaster
  }

  /** The gates of the controlled failover, and TriggerFailover's answer when they are passed. */
  method TryFailover(x: Inputs, a: Answers, status: ClusterStatus) returns (answer: Option<FailoverOutcome>)
    ensures answer == if FailoverReady(x, a, status) then Some(a.failover) else None
  {
    if !CondIs(status.conditions, SentinelQuorum, True) || !CondIs(status.conditions, ReplicationHealthy, True) {
      return None;
    }
    var good := HasGoodSlave(x, a);
    if !good || !x.quorumOk {
      return None;
    }
    return Some(a.failover);
  }

  /** Execute, and the former master when Execute found nothing to do. */
  method EvictOne(x: Inputs, a: Answers, plan: Plan) returns (r: ExecResult, touched: seq<Touch>, formerMaster: string)
    ensures ExecSpec(x.spec, plan, x.pods, x.st.health, RedisComponent, a.redis, r)
    ensures touched == if r.Nothing? then FormerTouches(x, a) else [PlanTouch(r.pod)]
    ensures formerMaster ==
            if a.recorded && touched == [FormerTouch(x.formerMaster)] && a.former.evict.EvictDone? then ""
            else x.formerMaster
  {
    touched, formerMaster := [], x.formerMaster;
    r := Execute(x.spec, plan, x.pods, x.st.health, RedisComponent, a.redis);
    if !r.Nothing? {
      touched := touched + [PlanTouch(r.pod)];
      return;
    }
    if x.formerMaster != "" {
      var f, _ := TryEvictFormerMaster(x.pods, x.formerMaster, a.former);
      if !f.Nothing? {
        touched := touched + [FormerTouch(f.pod)];
      }
      if f.Evicted? && a.recorded {
        formerMaster := "";
      }
    }
  }

  method RunRedisPlan(x: Inputs, a: Answers, status: ClusterStatus, plan: Plan, guard: Guard) returns (o: Outcome)
    ensures o.status == status && o.plan == plan && o.guard == guard
    ensures RedisStep(x, a, o) && FormerRecord(x, a, o)
    ensures |o.touched| <= 1 && forall t :: t in o.touched ==> !t.SentinelTouch?
  {
    o := Outcome(status, plan, guard, None, None, [], x.formerMaster);
    if guard.Blocked? || !a.annotationsOk {
      return;
    }
    if FailoverPath(x, plan) {
      var answer := TryFailover(x, a, status);
      o := o.(failover := answer);
      if answer.Some? && answer.value.NewMaster? && a.recorded {
        o := o.(formerMaster := x.st.master);
      }
      return;
    }
    var r, touched, former := EvictOne(x, a, plan);
    o := o.(exec := Some(r), touched := touched, formerMaster := former);
  }

  // ---- the Sentinel part ----

  const RECOVERABLE: set<string> := {
    "SentinelQuorumNotReady", "InsufficientSentinels", "SentinelQuorumLost",
    "SentinelQuorumUnknown", "SentinelQuorumCheckFailed", "SentinelQuorum"}

  function FirstCond(conds: seq<Condition>, typ: CondType): Option<Condition> {
    if conds == [] then None else if conds[0].typ == typ then Some(conds[0]) else FirstCond(conds[1..], typ)
  }

  /** AllowSentinelDisruptions (reconcile/util.go): an open gate, or a quorum loss that restarting may cure. */
  predicate AllowSentinel(status: ClusterStatus) {
    var quorum := FirstCond(status.conditions, SentinelQuorum);
    var paused := FirstCond(status.conditions, DisruptionsPaused);
    || status.allowDisruptions
    || (quorum.Some? && quorum.value.state.status == False && quorum.value.state.reason in RECOVERABLE &&
        !(paused.Some? && paused.value.state.status == True && paused.value.state.reason != "SentinelQuorum"))
  }

  /** The pauses the quorum loss itself caused, lifted for the Sentinel guard. */
  function LiftQuorumPauses(conds: seq<Condition>): seq<Condition> {
    seq(|conds|, i requires 0 <= i < |conds| =>
      if conds[i].typ in {DisruptionsPaused, BootstrapInProgress} && conds[i].state.status == True &&
         conds[i].state.reason == "SentinelQuorum"
      then conds[i].(state := conds[i].state.(status := False, reason := "SentinelRecovery"))
      else conds[i])
  }

  function LowerOrdinal(a: string, b: string): bool {
    Ordinal(a) < Ordinal(b)
  }

  predicate OrdinalsAscend(names: seq<string>) {
    forall i, j :: 0 <= i < j < |names| ==> Ordinal(names[i]) <= Ordinal(names[j])
  }

  lemma LowerOrdinalWeak(names: seq<string>)
    ensures WeakOrderOn(names, LowerOrdinal)
  {
  }

  /** What PlanUpdates plans for the Sentinel pods, in another order: lowest ordinal first. */
  ghost predicate IsSentinelPlan(x: Inputs, plan: Plan) {
    && OrdinalsAscend(plan.names)
    && exists planned: Plan :: IsPlan(planned, SentinelDesired(x), x.sentinels) && Reordered(planned, plan)
  }

  predicate Reordered(a: Plan, b: Plan) {
    a.reasons == b.reasons && multiset(a.names) == multiset(b.names)
  }

  method PlanSentinels(x: Inputs) returns (plan: Plan)
    ensures IsSentinelPlan(x, plan)
  {
    var planned := PlanUpdates(SentinelDesired(x), x.sentinels);
    var sorted := SortBy(planned.names, LowerOrdinal);
    LowerOrdinalWeak(planned.names);
    SortBySorted(planned.names, LowerOrdinal);
    forall i, j | 0 <= i < j < |sorted| ensures Ordinal(sorted[i]) <= Ordinal(sorted[j]) {
      assert !LowerOrdinal(sorted[j], sorted[i]);
    }
    plan := planned.(names := sorted);
    assert Reordered(planned, plan);
  }

  function SentinelDesired(x: Inputs): Desired {
    Desired(x.spec, x.sentinelTemplate, x.st.health, map[])
  }

  /** The conditions the Sentinel guard looks at. */
  function SentinelConds(status: ClusterStatus): seq<Condition> {
    if AllowSentinel(status) then LiftQuorumPauses(status.conditions) else status.conditions
  }

  /** The guard lets a Sentinel plan pass. */
  ghost predicate SentinelGuardClear(x: Inputs, status: ClusterStatus, plan: Plan) {
    || PlanHas(plan, TlsHash)
    || (&& AllowSentinel(status)
        && !CondIs(SentinelConds(status), FailoverInProgress, True)
        && !CondIs(SentinelConds(status), BootstrapInProgress, True)
        && (x.spec.redisReplicas > 1 ==> HasHealthyReplica(x.pods, x.st.health, x.st.master)))
  }

  /** The guard, and Execute behind it. */
  method GuardedSentinels(x: Inputs, a: Answers, status: ClusterStatus, plan: Plan) returns (exec: Option<ExecResult>)
    requires plan.names != []
    ensures exec.Some? <==> SentinelGuardClear(x, status, plan) && a.annotationsOk
    ensures exec.Some? ==> ExecSpec(x.spec, plan, x.sentinels, x.st.health, SentinelComponent, a.sentinel, exec.value)
  {
    var guard := EvaluateGuards(
      plan, AllowSentinel(status), SentinelConds(status), x.pods, x.st.health, x.st.master, x.spec.redisReplicas);
    if guard.Blocked? || !a.annotationsOk {
      return None;
    }
    var r := Execute(x.spec, plan, x.sentinels, x.st.health, SentinelComponent, a.sentinel);
    return Some(r);
  }

  /** Past the guard the Sentinel part does what Execute may do with its plan, otherwise nothing. */
  ghost predicate SentinelStep(
    x: Inputs, a: Answers, status: ClusterStatus, plan: Plan, exec: Option<ExecResult>, touched: seq<Touch>)
  {
    && (if x.spec.mode == SentinelMode && x.sentinels != [] then IsSentinelPlan(x, plan) else plan.names == [])
    && (exec.Some? <==> plan.names != [] && SentinelGuardClear(x, status, plan) && a.annotationsOk)
    && (exec.Some? ==>
          ExecSpec(x.spec, plan, x.sentinels, x.st.health, SentinelComponent, a.sentinel, exec.value))
    && touched == if exec.Some? && !exec.value.Nothing? then [SentinelTouch(exec.value.pod)] else []
  }

  method RunSentinelPlan(x: Inputs, a: Answers, status: ClusterStatus)
    returns (touched: seq<Touch>, plan: Plan, exec: Option<ExecResult>)
    ensures SentinelStep(x, a, status, plan, exec, touched)
    ensures |touched| <= 1 && forall t :: t in touched ==> t.SentinelTouch? && HasPod(x.sentinels, t.pod)
  {
    touched, plan, exec := [], Plan([], map[]), None;
    if x.spec.mode != SentinelMode || x.sentinels == [] {
      return;
    }
    plan := PlanSentinels(x);
    if plan.names == [] {
      return;
    }
    exec := GuardedSentinels(x, a, status, plan);
    if exec.Some? && !exec.value.Nothing? {
      touched := touched + [SentinelTouch(exec.value.pod)];
    }
  }

  // ---- the whole tail ----

  /** A whole reconcile asks for the disruption of at most one pod, Redis or Sentinel, on anyone's behalf,
      and a planned Redis pod goes only through the guard. */
  method ReconcileUpdates(x: Inputs, a: Answers) returns (o: Outcome)
    requires WellFormed(x)
    ensures o.status == StatusOf(x.spec, x.st, x.previous, x.now)
    ensures |o.touched| <= 1
    ensures o.plan.names != [] ==> RedisStep(x, a, o)
    ensures IsPlan(o.plan, RedisDesired(x), x.pods)
    ensures o.plan.names == [] ==> o.failover.None? && o.exec.None? && forall t :: t in o.touched ==> t.SentinelTouch?
    ensures o.plan.names == [] ==>
              if a.annotationsOk then exists plan, exec :: SentinelStep(x, a, o.status, plan, exec, o.touched)
              else o.touched == []
    ensures GuardSpec(x, o) && FormerRecord(x, a, o)
  {
    var status := ComputeStatus(x.spec, x.st, x.previous, x.now);
    var plan := PlanUpdates(RedisDesired(x), x.pods);
    var guard := EvaluateGuards(
      plan, status.allowDisruptions, status.conditions, x.pods, x.st.health, x.st.master, x.spec.redisReplicas);
    if plan.names != [] {
      o := RunRedisPlan(x, a, status, plan, guard);
      return;
    }
    o := Outcome(status, plan, guard, None, None, [], x.formerMaster);
    if !a.annotationsOk {
      return;
    }
    var touched, sentinelPlan, exec := RunSentinelPlan(x, a, status);
    o := o.(touched := touched);
    assert SentinelStep(x, a, o.status, sentinelPlan, exec, o.touched);
  }

  /** The guard's own conditions, for a plan without a TLS reason. */
  ghost predicate GuardPasses(x: Inputs, status: ClusterStatus) {
    && status.allowDisruptions
    && !CondIs(status.conditions, FailoverInProgress, True)
    && !CondIs(status.conditions, BootstrapInProgress, True)
    && (x.spec.redisReplicas > 1 ==> HasHealthyReplica(x.pods, x.st.health, x.st.master))
  }

  lemma BuiltShow(states: CondType -> ConditionState, rebuilt: bool, previous: seq<Condition>, generation: int,
                  now: int, typ: CondType, want: CondStatus)
    requires typ in ORDER
    ensures CondIs(BuildAll(states, rebuilt, previous, generation, now), typ, want) <==> states(typ).status == want
  {
    var conds := BuildAll(states, rebuilt, previous, generation, now);
    OrderDistinct();
    BuiltTypes(states, rebuilt, previous, generation, now);
    var i :| 0 <= i < |ORDER| && ORDER[i] == typ;
    assert conds[i].typ == typ && conds[i].state == states(typ);
  }

  /** The computed list carries each condition's state. */
  lemma CondsShow(spec: ClusterSpec, st: ClusterState, previous: ClusterStatus, now: int, typ: CondType,
                  want: CondStatus)
    requires typ in ORDER
    ensures CondIs(StatusOf(spec, st, previous, now).conditions, typ, want) <==> StateFor(spec, st, typ).status == want
  {
    BuiltShow(States(spec, st), st.runtimeConfig.Some?, previous.conditions, spec.generation, now, typ, want);
  }

  /** A pod touched for the plan was the first evictable one, with nothing disturbed, past a clear guard. */
  lemma PlanTouchFacts(x: Inputs, a: Answers, o: Outcome, t: Touch)
    requires RedisStep(x, a, o) && t in o.touched && t.PlanTouch?
    ensures o.guard.Clear? && Undisturbed(x.pods, o.plan)
    ensures t.pod in o.plan.names && Evictable(x.spec, o.plan, x.pods, x.st.health, RedisComponent, t.pod)
  {
    assert o.exec.Some? && !o.exec.value.Nothing? && o.exec.value.pod == t.pod;
    var k :| FirstEvictable(x.spec, o.plan, x.pods, x.st.health, RedisComponent, k) && o.plan.names[k] == t.pod;
  }

  ghost predicate GuardSpec(x: Inputs, o: Outcome) {
    o.guard.Blocked? <==> o.plan.names != [] && !PlanHas(o.plan, TlsHash) && !GuardPasses(x, o.status)
  }

  /** The pod is listed and not labelled master. */
  predicate LabelledOther(pods: seq<Pod>, name: string) {
    var pod := FindPod(pods, name);
    pod.Some? && pod.value.role != Master
  }

  /** What a clear guard and an evictable pod imply. */
  lemma ClearGuardIsSafe(x: Inputs, o: Outcome, pod: string)
    requires WellFormed(x) && ComputedOnly(x.st)
    requires o.status == StatusOf(x.spec, x.st, x.previous, x.now) && GuardSpec(x, o)
    requires o.guard.Clear? && Undisturbed(x.pods, o.plan) && pod in o.plan.names && !PlanHas(o.plan, TlsHash)
    requires Evictable(x.spec, o.plan, x.pods, x.st.health, RedisComponent, pod)
    ensures OneReadyMaster(x.st) && ReplicasHealthy(x.st) && HealthyMembers(x.st) >= RequiredMembers(x.spec)
    ensures forall p :: p in x.pods ==> !p.terminating
    ensures |x.pods| > 1 ==> OtherHealthy(x.pods, x.st.health, pod)
    ensures x.spec.redisReplicas > 1 || x.spec.mode == SentinelMode ==> LabelledOther(x.pods, pod)
  {
    assert GuardPasses(x, o.status);
    assert GateOpen(x.spec, x.st);
    GateMeaning(x.spec, x.st);
    assert !HasForPod(o.plan, pod, TlsHash);
  }

  /** A planned Redis eviction under a plan without a TLS reason happens only with one ready healthy master,
      no unhealthy replica, enough healthy members, nothing terminating, and another healthy pod left. */
  lemma PlannedEvictionIsSafe(x: Inputs, a: Answers, o: Outcome, t: Touch)
    requires WellFormed(x) && ComputedOnly(x.st)
    requires o.status == StatusOf(x.spec, x.st, x.previous, x.now) && RedisStep(x, a, o) && GuardSpec(x, o)
    requires t in o.touched && t.PlanTouch? && !PlanHas(o.plan, TlsHash)
    ensures OneReadyMaster(x.st) && ReplicasHealthy(x.st) && HealthyMembers(x.st) >= RequiredMembers(x.spec)
    ensures forall p :: p in x.pods ==> !p.terminating
    ensures |x.pods| > 1 ==> OtherHealthy(x.pods, x.st.health, t.pod)
    ensures x.spec.redisReplicas > 1 || x.spec.mode == SentinelMode ==> LabelledOther(x.pods, t.pod)
  {
    PlanTouchFacts(x, a, o, t);
    ClearGuardIsSafe(x, o, t.pod);
  }
}
