/** Rolling-update planning, guards and the single eviction step (ops/update/update.go, guards.go). */
module Update {
  import opened Base
  import opened Network
  import opened Spec
  import opened Ordering
  import opened Status

  datatype Component = RedisComponent | SentinelComponent

  datatype Reason =
    | ConfigHash | TlsHash | ImageRedis | ResourcesRedis | ImageSentinel | ResourcesSentinel | SentinelRemoved
    | NodeSelector | HealthLagging | HealthDesynced | HealthOffline | Storage(text: string)
    | MetricsMissing | MetricsMissingTemplate | MetricsImage | MetricsPorts | MetricsArgs | ResourcesMetrics
    | MetricsDisabled | ScaleDown

  /** The pod template of the desired StatefulSet. */
  datatype Template = Template(
    configHash: string, tlsHash: string, containers: seq<Container>, selector: map<string, string>)

  datatype Plan = Plan(names: seq<string>, reasons: map<string, seq<Reason>>)

  /** What PlanUpdates is given besides the pods. */
  datatype Desired = Desired(
    spec: ClusterSpec, template: Option<Template>, health: map<string, Health>, storage: map<string, seq<string>>)

  // ---- why one pod should restart ----

  function Amount(list: map<string, int>, key: string): int {
    if key in list then list[key] else 0
  }

  /** A missing quantity counts as zero. */
  predicate SameQuantities(x: map<string, int>, y: map<string, int>) {
    forall k :: k in x.Keys + y.Keys ==> Amount(x, k) == Amount(y, k)
  }

  predicate SameResources(c: Container, limits: map<string, int>, requests: map<string, int>) {
    SameQuantities(c.limits, limits) && SameQuantities(c.requests, requests)
  }

  function When(condition: bool, reason: Reason): seq<Reason> {
    if condition then [reason] else []
  }

  function ContainerReasons(spec: ClusterSpec, c: Container): seq<Reason> {
    if c.name == "redis" then
      When(c.image != spec.image, ImageRedis) +
      When(!SameResources(c, spec.limits, spec.requests), ResourcesRedis)
    else if c.name == "sentinel" && spec.mode == SentinelMode then
      var own := spec.sentinelImage;
      var image := if own.Some? && own.value != "" then own.value else spec.image;
      When(c.image != image, ImageSentinel) +
      When(!SameResources(c, spec.sentinelLimits, spec.sentinelRequests), ResourcesSentinel)
    else []
  }

  function AllContainerReasons(spec: ClusterSpec, containers: seq<Container>): seq<Reason> {
    if containers == [] then []
    else
      var n := |containers| - 1;
      AllContainerReasons(spec, containers[..n]) + ContainerReasons(spec, containers[n])
  }

  /** The last container of that name. */
  function FindContainer(containers: seq<Container>, name: string): Option<Container> {
    if containers == [] then None
    else if containers[|containers| - 1].name == name then Some(containers[|containers| - 1])
    else FindContainer(containers[..|containers| - 1], name)
  }

  predicate HasContainer(p: Pod, name: string) {
    FindContainer(p.containers, name).Some?
  }

  function HealthReasons(d: Desired, p: Pod): seq<Reason> {
    if p.name !in d.health then []
    else match d.health[p.name]
      case Lagging => When(!p.ready, HealthLagging)
      case Desynced => When(!p.ready, HealthDesynced)
      case Offline => When(p.ready, HealthOffline)
      case _ => []
  }

  /** appendUniqueReasons: the extras that are not empty and not there yet. */
  function AppendUnique(reasons: seq<Reason>, extras: seq<string>): seq<Reason> {
    if extras == [] then reasons
    else
      var rest := AppendUnique(reasons, extras[..|extras| - 1]);
      var extra := extras[|extras| - 1];
      if extra == "" || Storage(extra) in rest then rest else rest + [Storage(extra)]
  }

  function MetricsReasons(d: Desired, p: Pod): seq<Reason> {
    var actual := FindContainer(p.containers, "metrics");
    var wanted := if d.template.Some? then FindContainer(d.template.value.containers, "metrics") else None;
    if !HasContainer(p, "redis") then []
    else if !d.spec.metricsEnabled then When(actual.Some?, MetricsDisabled)
    else if actual.None? then [MetricsMissing]
    else if wanted.None? then [MetricsMissingTemplate]
    else
      When(actual.value.image != wanted.value.image, MetricsImage) +
      When(actual.value.ports != wanted.value.ports, MetricsPorts) +
      When(actual.value.args != wanted.value.args, MetricsArgs) +
      When(!SameResources(actual.value, wanted.value.limits, wanted.value.requests), ResourcesMetrics)
  }

  function DesiredHash(d: Desired): string {
    if d.template.Some? then d.template.value.configHash else ""
  }

  function DesiredTlsHash(d: Desired): string {
    if d.template.Some? then d.template.value.tlsHash else ""
  }

  function HashReasons(d: Desired, p: Pod): seq<Reason> {
    When(DesiredHash(d) != "" && p.configHash != DesiredHash(d), ConfigHash) +
    When((DesiredTlsHash(d) != "" || p.tlsHash != "") && p.tlsHash != DesiredTlsHash(d), TlsHash)
  }

  function LayoutReasons(d: Desired, p: Pod): seq<Reason> {
    When(d.spec.mode == SentinelMode && HasContainer(p, "redis") && HasContainer(p, "sentinel"), SentinelRemoved) +
    When(d.template.Some? && d.template.value.selector != p.selector, NodeSelector)
  }

  function StorageExtras(d: Desired, p: Pod): seq<string> {
    if p.name in d.storage then d.storage[p.name] else []
  }

  function ReasonsFor(d: Desired, p: Pod): seq<Reason> {
    AppendUnique(
      HashReasons(d, p) + AllContainerReasons(d.spec, p.containers) + LayoutReasons(d, p) + HealthReasons(d, p),
      StorageExtras(d, p)) +
    MetricsReasons(d, p)
  }

  /** The role label is none of the reasons. */
  lemma ReasonsIgnoreRole(d: Desired, p: Pod, role: Role)
    ensures ReasonsFor(d, p.(role := role)) == ReasonsFor(d, p)
  {
    var q := p.(role := role);
    assert HashReasons(d, q) == HashReasons(d, p);
    assert LayoutReasons(d, q) == LayoutReasons(d, p);
    assert HealthReasons(d, q) == HealthReasons(d, p);
    assert MetricsReasons(d, q) == MetricsReasons(d, p);
  }

  predicate ScalesDown(d: Desired, podCount: nat, p: Pod) {
    var desired := if d.spec.redisReplicas < 0 then 0 else d.spec.redisReplicas;
    podCount > desired && Ordinal(p.name) >= desired
  }

  /** Everything that asks for the pod's restart. */
  function Drift(d: Desired, podCount: nat, p: Pod): seq<Reason> {
    ReasonsFor(d, p) + When(ScalesDown(d, podCount, p), ScaleDown)
  }

  // ---- the plan ----

  predicate NoRepeats(names: seq<string>) {
    forall i, j :: 0 <= i < j < |names| ==> names[i] != names[j]
  }

  predicate OrdinalsDescend(names: seq<string>) {
    forall i, j :: 0 <= i < j < |names| ==> Ordinal(names[i]) >= Ordinal(names[j])
  }

  /** The plan lists exactly the pods with a reason, each once, highest ordinal first. */
  ghost predicate IsPlan(plan: Plan, d: Desired, pods: PodList) {
    && (forall n :: n in plan.reasons <==> HasPod(pods, n) && Drift(d, |pods|, FindPod(pods, n).value) != [])
    && (forall n :: n in plan.reasons ==>
          HasPod(pods, n) && plan.reasons[n] == Drift(d, |pods|, FindPod(pods, n).value))
    && (forall n :: n in plan.names <==> n in plan.reasons)
    && NoRepeats(plan.names)
    && OrdinalsDescend(plan.names)
  }

  function HigherOrdinal(a: string, b: string): bool {
    Ordinal(a) > Ordinal(b)
  }

  /** The loop over the pods, for any per-pod reasons. */
  method CollectReasons(pods: PodList, reasonsOf: Pod -> seq<Reason>) returns (reasons: map<string, seq<Reason>>)
    ensures forall n :: n in reasons ==> HasPod(pods, n)
    ensures forall i :: 0 <= i < |pods| ==> Recorded(reasons, pods[i].name, reasonsOf(pods[i]))
  {
    reasons := map[];
    var k := 0;
    while k < |pods|
      invariant 0 <= k <= |pods|
      invariant forall n :: n in reasons ==> HasPod(pods, n)
      invariant forall i :: 0 <= i < k ==> Recorded(reasons, pods[i].name, reasonsOf(pods[i]))
      invariant forall i :: k <= i < |pods| ==> pods[i].name !in reasons
    {
      var found := reasonsOf(pods[k]);
      if found != [] {
        assert HasPod(pods, pods[k].name);
        reasons := reasons[pods[k].name := found];
      }
      k := k + 1;
    }
  }

  /** The reasons with the scale-down reason added for one pod. */
  function WithScaleDown(reasons: map<string, seq<Reason>>, name: string): map<string, seq<Reason>> {
    reasons[name := (if name in reasons then reasons[name] else []) + [ScaleDown]]
  }

  lemma ScaleDownRecorded(reasons: map<string, seq<Reason>>, name: string, wanted: seq<Reason>)
    requires Recorded(reasons, name, wanted)
    ensures Recorded(WithScaleDown(reasons, name), name, wanted + [ScaleDown])
  {
  }

  lemma OthersRecorded(reasons: map<string, seq<Reason>>, name: string, other: string, wanted: seq<Reason>)
    requires name != other
    ensures Recorded(WithScaleDown(reasons, name), other, wanted) <==> Recorded(reasons, other, wanted)
  {
  }

  /** The loop that adds the scale-down reason. */
  method AddScaleDown(pods: PodList, reasons: map<string, seq<Reason>>, reasonsOf: Pod -> seq<Reason>,
                      scalesDown: Pod -> bool)
    returns (all: map<string, seq<Reason>>)
    requires forall n :: n in reasons ==> HasPod(pods, n)
    requires forall i :: 0 <= i < |pods| ==> Recorded(reasons, pods[i].name, reasonsOf(pods[i]))
    ensures forall n :: n in all ==> HasPod(pods, n)
    ensures forall i :: 0 <= i < |pods| ==>
              Recorded(all, pods[i].name, reasonsOf(pods[i]) + When(scalesDown(pods[i]), ScaleDown))
  {
    all := reasons;
    ghost var wanted := (p: Pod) => reasonsOf(p) + When(scalesDown(p), ScaleDown);
    var k := 0;
    while k < |pods|
      invariant 0 <= k <= |pods|
      invariant forall n :: n in all ==> HasPod(pods, n)
      invariant forall i :: 0 <= i < k ==> Recorded(all, pods[i].name, wanted(pods[i]))
      invariant forall i :: k <= i < |pods| ==> Recorded(all, pods[i].name, reasonsOf(pods[i]))
    {
      if scalesDown(pods[k]) {
        assert HasPod(pods, pods[k].name);
        ScaleDownRecorded(all, pods[k].name, reasonsOf(pods[k]));
        forall i | 0 <= i < |pods| && i != k
          ensures i < k ==> Recorded(WithScaleDown(all, pods[k].name), pods[i].name, wanted(pods[i]))
          ensures i > k ==> Recorded(WithScaleDown(all, pods[k].name), pods[i].name, reasonsOf(pods[i]))
        {
          OthersRecorded(all, pods[k].name, pods[i].name, if i < k then wanted(pods[i]) else reasonsOf(pods[i]));
        }
        all := WithScaleDown(all, pods[k].name);
      }
      k := k + 1;
    }
  }

  /** Recorded position by position is recorded name by name. */
  lemma RecordedIsPlan(reasons: map<string, seq<Reason>>, d: Desired, pods: PodList)
    requires forall n :: n in reasons ==> HasPod(pods, n)
    requires forall i :: 0 <= i < |pods| ==> Recorded(reasons, pods[i].name, Drift(d, |pods|, pods[i]))
    ensures forall n :: n in reasons <==> HasPod(pods, n) && Drift(d, |pods|, FindPod(pods, n).value) != []
    ensures forall n :: n in reasons ==> HasPod(pods, n) && reasons[n] == Drift(d, |pods|, FindPod(pods, n).value)
  {
    forall n | HasPod(pods, n)
      ensures Recorded(reasons, n, Drift(d, |pods|, FindPod(pods, n).value))
    {
      var i :| 0 <= i < |pods| && pods[i].name == n;
      FindPodAt(pods, i);
    }
  }

  predicate Recorded(reasons: map<string, seq<Reason>>, name: string, wanted: seq<Reason>) {
    if wanted == [] then name !in reasons else name in reasons && reasons[name] == wanted
  }

  /** The keys in whatever order the map yields them. */
  method KeysOf(reasons: map<string, seq<Reason>>) returns (names: seq<string>)
    ensures forall n :: n in names <==> n in reasons
    ensures NoRepeats(names)
  {
    names := [];
    var left := reasons.Keys;
    while left != {}
      invariant left <= reasons.Keys
      invariant forall n :: n in names <==> n in reasons && n !in left
      invariant NoRepeats(names)
      decreases |left|
    {
      var n :| n in left;
      names := names + [n];
      left := left - {n};
    }
  }

  lemma OrdinalOrderWeak(names: seq<string>)
    ensures WeakOrderOn(names, HigherOrdinal)
  {
  }

  lemma {:induction false} RepeatCount(names: seq<string>, n: string)
    requires NoRepeats(names)
    ensures multiset(names)[n] <= 1
  {
    if names != [] {
      var k := |names| - 1;
      assert names == names[..k] + [names[k]];
      RepeatCount(names[..k], n);
      if n == names[k] { assert n !in names[..k]; }
    }
  }

  lemma SortKeepsDistinct(names: seq<string>)
    requires NoRepeats(names)
    ensures NoRepeats(SortBy(names, HigherOrdinal))
  {
    var sorted := SortBy(names, HigherOrdinal);
    forall i, j | 0 <= i < j < |sorted| ensures sorted[i] != sorted[j] {
      RepeatCount(names, sorted[i]);
      TwiceIfRepeated(sorted, i, j);
    }
  }

  method PlanUpdates(d: Desired, pods: PodList) returns (plan: Plan)
    ensures IsPlan(plan, d, pods)
  {
    var reasonsOf := (p: Pod) => ReasonsFor(d, p);
    var reasons := CollectReasons(pods, reasonsOf);
    reasons := AddScaleDown(pods, reasons, reasonsOf, (p: Pod) => ScalesDown(d, |pods|, p));
    forall i | 0 <= i < |pods| ensures Recorded(reasons, pods[i].name, Drift(d, |pods|, pods[i])) {}
    RecordedIsPlan(reasons, d, pods);
    var names := KeysOf(reasons);
    var sorted := SortBy(names, HigherOrdinal);
    OrdinalOrderWeak(names);
    SortBySorted(names, HigherOrdinal);
    SortKeepsDistinct(names);
    forall n ensures n in sorted <==> n in names { SameElement(names, sorted, n); }
    plan := Plan(sorted, reasons);
    assert OrdinalsDescend(sorted) by {
      forall i, j | 0 <= i < j < |sorted| ensures Ordinal(sorted[i]) >= Ordinal(sorted[j]) {
        assert !HigherOrdinal(sorted[j], sorted[i]);
      }
    }
  }

  // ---- guards ----

  predicate PlanHas(plan: Plan, reason: Reason) {
    exists n :: n in plan.reasons && reason in plan.reasons[n]
  }

  predicate HasForPod(plan: Plan, name: string, reason: Reason) {
    name in plan.reasons && reason in plan.reasons[name]
  }

  /** healthStateForPod: the health map decides, readiness when it is silent. */
  predicate HealthyFor(p: Pod, health: map<string, Health>) {
    if p.name in health then health[p.name] == Healthy else p.ready
  }

  predicate CondIs(conds: seq<Condition>, typ: CondType, want: CondStatus) {
    exists i :: 0 <= i < |conds| && conds[i].typ == typ && conds[i].state.status == want
  }

  datatype Guard = Clear | Blocked(reason: string)

  ghost predicate HasHealthyReplica(pods: seq<Pod>, health: map<string, Health>, master: string) {
    exists p :: p in pods && p.name != master && p.role == Replica && HealthyFor(p, health)
  }

  /** EvaluateGuards: when a plan may not proceed, and which reason is given first. A TLS reason anywhere in
      the plan clears every guard. */
  method EvaluateGuards(
    plan: Plan, allow: bool, conds: seq<Condition>, pods: seq<Pod>, health: map<string, Health>, master: string,
    replicas: int)
    returns (g: Guard)
    ensures g.Blocked? <==>
              && plan.names != [] && !PlanHas(plan, TlsHash)
              && (!allow || CondIs(conds, FailoverInProgress, True) || CondIs(conds, BootstrapInProgress, True)
                  || (replicas > 1 && !HasHealthyReplica(pods, health, master)))
    ensures g.Blocked? ==> (g.reason == "DisruptionsPaused" <==> !allow)
  {
    if plan.names == [] || PlanHas(plan, TlsHash) {
      return Clear;
    }
    if !allow {
      return Blocked("DisruptionsPaused");
    }
    if CondIs(conds, FailoverInProgress, True) {
      return Blocked("FailoverInProgress");
    }
    if CondIs(conds, BootstrapInProgress, True) {
      return Blocked("BootstrapInProgress");
    }
    if replicas > 1 {
      var healthy, k := 0, 0;
      while k < |pods|
        invariant 0 <= k <= |pods|
        invariant healthy > 0 ==> HasHealthyReplica(pods, health, master)
        invariant healthy == 0 ==> !HasHealthyReplica(pods[..k], health, master)
        invariant healthy >= 0
      {
        var p := pods[k];
        assert pods[..k + 1] == pods[..k] + [p];
        if p.name != master && p.role == Replica && HealthyFor(p, health) {
          assert p in pods;
          healthy := healthy + 1;
        }
        k := k + 1;
      }
      assert pods[..k] == pods;
      if healthy == 0 {
        return Blocked("NoHealthyReplicas");
      }
    }
    return Clear;
  }

  // ---- execution ----

  /** Nothing is terminating and every pod outside the plan is ready. */
  predicate Undisturbed(pods: seq<Pod>, plan: Plan) {
    forall i :: 0 <= i < |pods| ==> !pods[i].terminating && (pods[i].name in plan.names || pods[i].ready)
  }

  ghost predicate OtherHealthy(pods: seq<Pod>, health: map<string, Health>, name: string) {
    exists p :: p in pods && p.name != name && HealthyFor(p, health)
  }

  /** The planned pod may be evicted now. */
  ghost predicate Evictable(spec: ClusterSpec, plan: Plan, pods: PodList, health: map<string, Health>,
                            component: Component, name: string)
  {
    HasPod(pods, name) &&
    var pod := FindPod(pods, name).value;
    && (HasForPod(plan, name, TlsHash) || |pods| <= 1 || OtherHealthy(pods, health, name))
    && !(pod.role == Master && (spec.redisReplicas > 1 || spec.mode == SentinelMode))
    && !(Ordinal(name) == 0 && Count(pods, IsReady()) <= 1 && spec.redisReplicas > 1 && component != SentinelComponent)
  }

  datatype GetOutcome = Got | Missing | GetFailed

  datatype EvictOutcome = EvictDone | EvictRejected | EvictError

  /** How the API server answers Execute's calls. */
  datatype EvictEnv = EvictEnv(get: GetOutcome, evict: EvictOutcome, deleteOk: bool)

  datatype ExecResult = Nothing | Evicted(pod: string) | Rejected(pod: string) | ExecFailed(pod: string)

  /** Position k of the plan holds the first pod that may be evicted. */
  ghost predicate FirstEvictable(
    spec: ClusterSpec, plan: Plan, pods: PodList, health: map<string, Health>, component: Component, k: int)
  {
    && 0 <= k < |plan.names|
    && Evictable(spec, plan, pods, health, component, plan.names[k])
    && forall i :: 0 <= i < k ==> !Evictable(spec, plan, pods, health, component, plan.names[i])
  }

  method SeekOtherHealthy(pods: seq<Pod>, health: map<string, Health>, name: string) returns (found: bool)
    ensures found <==> OtherHealthy(pods, health, name)
  {
    var others, k := 0, 0;
    while k < |pods|
      invariant 0 <= k <= |pods| && others >= 0
      invariant others > 0 ==> OtherHealthy(pods, health, name)
      invariant others == 0 ==> !OtherHealthy(pods[..k], health, name)
    {
      assert pods[..k + 1] == pods[..k] + [pods[k]];
      if pods[k].name != name && HealthyFor(pods[k], health) {
        assert pods[k] in pods;
        others := others + 1;
      }
      k := k + 1;
    }
    assert pods[..k] == pods;
    return others > 0;
  }

  /** The loops before the first candidate: None when something is disturbed, else the ready count. */
  method ReadyUnlessDisturbed(pods: PodList, plan: Plan) returns (ready: Option<nat>)
    ensures ready.Some? <==> Undisturbed(pods, plan)
    ensures ready.Some? ==> ready.value == Count(pods, IsReady())
  {
    var k := 0;
    while k < |pods|
      invariant 0 <= k <= |pods|
      invariant forall i :: 0 <= i < k ==> !pods[i].terminating
    {
      if pods[k].terminating {
        return None;
      }
      k := k + 1;
    }
    var n: nat := 0;
    k := 0;
    while k < |pods|
      invariant 0 <= k <= |pods|
      invariant n == Count(pods[..k], IsReady())
      invariant forall i :: 0 <= i < k ==> pods[i].name in plan.names || pods[i].ready
    {
      CountStep(pods, k, IsReady());
      if pods[k].ready {
        n := n + 1;
      }
      if pods[k].name !in plan.names && !pods[k].ready {
        return None;
      }
      k := k + 1;
    }
    assert pods[..k] == pods;
    return Some(n);
  }

  method CanEvict(
    spec: ClusterSpec, plan: Plan, pods: PodList, health: map<string, Health>, component: Component, ready: nat,
    name: string)
    returns (may: bool)
    requires ready == Count(pods, IsReady())
    ensures may <==> Evictable(spec, plan, pods, health, component, name)
  {
    var pod := FindPod(pods, name);
    if pod.None? {
      return false;
    }
    if !HasForPod(plan, name, TlsHash) && |pods| > 1 {
      var safe := SeekOtherHealthy(pods, health, name);
      if !safe {
        return false;
      }
    }
    if pod.value.role == Master && (spec.redisReplicas > 1 || spec.mode == SentinelMode) {
      return false;
    }
    return !(Ordinal(name) == 0 && ready <= 1 && spec.redisReplicas > 1 && component != SentinelComponent);
  }

  /** What becomes of the chosen pod. A Sentinel pod that is not ready is deleted when its eviction is refused. */
  function EvictionResult(name: string, podReady: bool, component: Component, env: EvictEnv): ExecResult {
    if !env.get.Got? then ExecFailed(name)
    else match env.evict
      case EvictDone => Evicted(name)
      case EvictError => ExecFailed(name)
      case EvictRejected =>
        if component == SentinelComponent && !podReady then if env.deleteOk then Evicted(name) else ExecFailed(name)
        else Rejected(name)
  }

  /** What Execute may answer: nothing exactly when something is disturbed or no planned pod may go, else the
      fate of the first pod in plan order that may. */
  ghost predicate ExecSpec(
    spec: ClusterSpec, plan: Plan, pods: PodList, health: map<string, Health>, component: Component, env: EvictEnv,
    r: ExecResult)
  {
    if r.Nothing? then
      !Undisturbed(pods, plan) ||
      forall i :: 0 <= i < |plan.names| ==> !Evictable(spec, plan, pods, health, component, plan.names[i])
    else
      && Undisturbed(pods, plan)
      && (exists k :: FirstEvictable(spec, plan, pods, health, component, k) && plan.names[k] == r.pod)
      && HasPod(pods, r.pod)
      && r == EvictionResult(r.pod, FindPod(pods, r.pod).value.ready, component, env)
  }

  lemma FirstIsAnswer(
    spec: ClusterSpec, plan: Plan, pods: PodList, health: map<string, Health>, component: Component, env: EvictEnv,
    k: nat)
    requires Undisturbed(pods, plan) && FirstEvictable(spec, plan, pods, health, component, k)
    ensures ExecSpec(spec, plan, pods, health, component, env,
              EvictionResult(plan.names[k], FindPod(pods, plan.names[k]).value.ready, component, env))
  {
    assert EvictionResult(plan.names[k], FindPod(pods, plan.names[k]).value.ready, component, env).pod == plan.names[k];
  }

  /** Execute: at most one pod is touched, the first evictable one in plan order, and none at all while
      something is disturbed. */
  method Execute(
    spec: ClusterSpec, plan: Plan, pods: PodList, health: map<string, Health>, component: Component, env: EvictEnv)
    returns (r: ExecResult)
    ensures ExecSpec(spec, plan, pods, health, component, env, r)
  {
    if plan.names == [] {
      return Nothing;
    }
    var ready := ReadyUnlessDisturbed(pods, plan);
    if ready.None? {
      return Nothing;
    }
    var k := 0;
    while k < |plan.names|
      invariant 0 <= k <= |plan.names|
      invariant forall i :: 0 <= i < k ==> !Evictable(spec, plan, pods, health, component, plan.names[i])
    {
      var may := CanEvict(spec, plan, pods, health, component, ready.value, plan.names[k]);
      if may {
        FirstIsAnswer(spec, plan, pods, health, component, env, k);
        return EvictionResult(plan.names[k], FindPod(pods, plan.names[k]).value.ready, component, env);
      }
      k := k + 1;
    }
    return Nothing;
  }
}
