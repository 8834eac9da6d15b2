/** Status computation and the health gate (ops/status/status.go). */
module Status {
  import opened Base
  import opened Network
  import opened Spec
  import opened Topology

  datatype CondType =
    | Reconciled | Available | SentinelQuorum | ReplicationHealthy | FailoverInProgress | DisruptionsPaused
    | UpgradeInProgress | BootstrapInProgress | ExternalImport | StorageCleanup | RuntimeConfigApplied

  datatype CondStatus = True | False | StatusUnknown

  /** A message before rendering: the format string and what it is given, or a replication message with
      the roles source appended where it is not there yet. */
  datatype Message =
    | Text(format: string, args: seq<string>)
    | WithSource(base: Message, source: string, reason: string)
    | WithIssues(base: Message, issues: seq<Issue>)

  datatype Issue = MasterIssue(name: string, health: Health) | ReplicaIssue(name: string, health: Health) | NoReplicas

  datatype ConditionState = ConditionState(status: CondStatus, reason: string, message: Message)

  datatype Condition = Condition(typ: CondType, state: ConditionState, since: int, generation: int)

  datatype PodRoleStatus = PodRoleStatus(
    name: string, role: Role, ready: bool, health: Health, lag: Option<int>, since: Option<int>)

  datatype ClusterStatus = ClusterStatus(
    masterPod: string, replicas: int, rolesSource: string, readyReplicas: int, roles: seq<PodRoleStatus>,
    conditions: seq<Condition>, allowDisruptions: bool, externalImport: Option<ImportRecord>)

  /** What the earlier phases observed. */
  datatype ClusterState = ClusterState(
    master: string, pods: seq<Pod>, roles: map<string, Role>, sentinels: seq<Pod>,
    health: map<string, Health>, lags: map<string, int>, rolesSource: string, rolesReason: string,
    runtimeConfig: Option<ConditionState>, overrides: map<CondType, ConditionState>,
    externalImport: Option<ImportRecord>)

  // ---- roles ----

  function Lookup<V>(m: map<string, V>, key: string, missing: V): V {
    if key in m then m[key] else missing
  }

  function RoleOf(st: ClusterState, p: Pod): Role {
    var r := Lookup(st.roles, p.name, Unset);
    if r != Unset then r else if st.master != "" && p.name == st.master then Master else Replica
  }

  function HealthOf(st: ClusterState, p: Pod): Health {
    var h := Lookup(st.health, p.name, Unknown);
    if h != Unknown then h else if p.ready then Healthy else Offline
  }

  function LagFor(st: ClusterState, p: Pod): Option<int> {
    if p.name in st.lags then Some(st.lags[p.name]) else None
  }

  /** The previous entry of a name; a later duplicate wins. */
  function Previous(roles: seq<PodRoleStatus>, name: string): Option<PodRoleStatus> {
    if roles == [] then None
    else if roles[|roles| - 1].name == name then Some(roles[|roles| - 1])
    else Previous(roles[..|roles| - 1], name)
  }

  /** One entry. A change of role or readiness stamps the entry; a change of health or lag alone leaves it
      without a transition time. */
  function RoleEntry(st: ClusterState, p: Pod, role: Role, previous: seq<PodRoleStatus>, now: int): PodRoleStatus {
    var entry := PodRoleStatus(p.name, role, p.ready, HealthOf(st, p), LagFor(st, p), None);
    var prev := Previous(previous, p.name);
    if prev.Some? && prev.value.role == role && prev.value.ready == p.ready then
      if prev.value.health == entry.health && prev.value.lag == entry.lag then entry.(since := prev.value.since)
      else entry
    else entry.(since := Some(now))
  }

  function EntryAt(st: ClusterState, i: nat, previous: seq<PodRoleStatus>, now: int): PodRoleStatus
    requires i < |st.pods| + |st.sentinels|
  {
    if i < |st.pods| then RoleEntry(st, st.pods[i], RoleOf(st, st.pods[i]), previous, now)
    else RoleEntry(st, st.sentinels[i - |st.pods|], SentinelRole, previous, now)
  }

  function RolesOf(st: ClusterState, previous: seq<PodRoleStatus>, now: int): (roles: seq<PodRoleStatus>) {
    seq(|st.pods| + |st.sentinels|, i requires 0 <= i < |st.pods| + |st.sentinels| => EntryAt(st, i, previous, now))
  }

  function IsMasterPod(st: ClusterState): Pod -> bool {
    (p: Pod) => RoleOf(st, p) == Master
  }

  function MasterCount(st: ClusterState): nat {
    Count(st.pods, IsMasterPod(st))
  }

  /** The last pod in the master role, whose readiness and health ComputeStatus keeps. */
  function LastMaster(st: ClusterState, pods: seq<Pod>): Option<Pod> {
    if pods == [] then None
    else if RoleOf(st, pods[|pods| - 1]) == Master then Some(pods[|pods| - 1])
    else LastMaster(st, pods[..|pods| - 1])
  }

  function MasterReady(st: ClusterState): bool {
    var m := LastMaster(st, st.pods);
    m.Some? && m.value.ready
  }

  function MasterHealth(st: ClusterState): Health {
    var m := LastMaster(st, st.pods);
    if m.Some? then HealthOf(st, m.value) else Healthy
  }

  // ---- conditions ----

  function Augment(m: Message, st: ClusterState): Message {
    if st.rolesSource == "" then m else WithSource(m, st.rolesSource, st.rolesReason)
  }

  function AvailableState(st: ClusterState): ConditionState {
    if st.pods == [] then
      ConditionState(StatusUnknown, "NoPods", Augment(Text("redis pods have not been created yet", []), st))
    else if st.master == "" then ConditionState(False, "MasterUnknown", Text("master pod undetermined", []))
    else if MasterCount(st) != 1 then
      ConditionState(False, "MasterElection", Text("observed %d master candidates", [Decimal(MasterCount(st))]))
    else if !MasterReady(st) then
      ConditionState(False, "MasterNotReady", Text("master pod %s is not Ready", [st.master]))
    else ConditionState(True, "MasterReady", Text("master pod %s is ready", [st.master]))
  }

  function Lives(): Pod -> bool {
    (p: Pod) => !p.terminating
  }

  function SentinelState(spec: ClusterSpec, st: ClusterState): ConditionState {
    if spec.mode != SentinelMode then
      ConditionState(True, "SentinelNotRequired", Text("sentinel quorum not required in Standalone mode", []))
    else
      var expected := SentinelDesiredCount(spec);
      var observed := Count(st.sentinels, Lives());
      var ready := Count(st.sentinels, LivesReady());
      var quorum := expected / 2 + 1;
      if observed < expected then
        ConditionState(False, "InsufficientSentinels",
                       Text("observed %d/%d sentinel pods", [Decimal(observed), Decimal(expected)]))
      else if ready < quorum then
        ConditionState(False, "SentinelQuorumNotReady",
                       Text("ready sentinel pods %d, quorum %d", [Decimal(ready), Decimal(quorum)]))
      else
        ConditionState(True, "SentinelQuorumAchieved",
                       Text("ready sentinel pods %d/%d", [Decimal(ready), Decimal(expected)]))
  }

  predicate IsReplicaPod(st: ClusterState, p: Pod) {
    Lookup(st.roles, p.name, Unset) == Replica
  }

  function ReplicaHealth(st: ClusterState, p: Pod): Health {
    var h := Lookup(st.health, p.name, Unknown);
    if h == Unknown then Offline else h
  }

  function HealthyReplica(st: ClusterState): Pod -> bool {
    (p: Pod) => IsReplicaPod(st, p) && ReplicaHealth(st, p) == Healthy
  }

  function UnhealthyReplica(st: ClusterState): Pod -> bool {
    (p: Pod) => IsReplicaPod(st, p) && ReplicaHealth(st, p) != Healthy
  }

  function AnyReplica(st: ClusterState): Pod -> bool {
    (p: Pod) => IsReplicaPod(st, p)
  }

  function HealthyMembers(st: ClusterState): nat {
    (if st.master != "" && MasterHealth(st) == Healthy then 1 else 0) + Count(st.pods, HealthyReplica(st))
  }

  /** One issue per unhealthy replica, in list order. */
  function ReplicaIssues(st: ClusterState, pods: seq<Pod>): seq<Issue> {
    if pods == [] then []
    else
      var rest := ReplicaIssues(st, pods[..|pods| - 1]);
      var p := pods[|pods| - 1];
      if UnhealthyReplica(st)(p) then rest + [ReplicaIssue(p.name, ReplicaHealth(st, p))] else rest
  }

  function MasterIssues(st: ClusterState, masterHealth: Health): seq<Issue> {
    if st.master != "" && masterHealth != Healthy then [MasterIssue(st.master, masterHealth)] else []
  }

  function Issues(spec: ClusterSpec, st: ClusterState): seq<Issue> {
    MasterIssues(st, MasterHealth(st)) + ReplicaIssues(st, st.pods) +
    if Count(st.pods, AnyReplica(st)) == 0 && spec.mode != Standalone then [NoReplicas] else []
  }

  /** The verdict on the counts, given the issues found. */
  function ReplicationVerdict(spec: ClusterSpec, st: ClusterState, healthy: nat, issues: seq<Issue>): ConditionState {
    if healthy < RequiredMembers(spec) then
      var m := Text("healthy members %d below safety threshold %d", [Decimal(healthy), Decimal(RequiredMembers(spec))]);
      ConditionState(False, "InsufficientHealthyMembers", Augment(WithIssues(m, issues), st))
    else if issues != [] then ConditionState(False, "ReplicaUnhealthy", Augment(WithIssues(Text("", []), issues), st))
    else ConditionState(True, "ReplicationAligned", Augment(Text("%d healthy members", [Decimal(healthy)]), st))
  }

  function ReplicationState(spec: ClusterSpec, st: ClusterState): ConditionState {
    if st.pods == [] then ConditionState(StatusUnknown, "NoPods", Text("redis pods have not been created yet", []))
    else ReplicationVerdict(spec, st, HealthyMembers(st), Issues(spec, st))
  }

  function FailoverState(masters: nat): ConditionState {
    if masters == 1 then ConditionState(False, "Stable", Text("single master observed", []))
    else if masters == 0 then ConditionState(True, "NoMaster", Text("master election in progress", []))
    else ConditionState(True, "MultipleMasters", Text("observed %d masters", [Decimal(masters)]))
  }

  function StorageState(spec: ClusterSpec): ConditionState {
    if !spec.persistent then
      ConditionState(True, "EphemeralStorage", Text("Ephemeral storage configured; no PVC cleanup required", []))
    else if spec.cleanupOnDelete then
      ConditionState(True, "CleanupEnabled", Text("PVCs will be deleted when the cluster is removed", []))
    else ConditionState(True, "RetentionPolicy", Text("PVC cleanup disabled; resources retained after deletion", []))
  }

  function DefaultState(spec: ClusterSpec, st: ClusterState, typ: CondType): ConditionState {
    match typ
    case Reconciled => ConditionState(True, "Success", Text("Reconcile completed", []))
    case Available => AvailableState(st)
    case SentinelQuorum => SentinelState(spec, st)
    case ReplicationHealthy => ReplicationState(spec, st)
    case FailoverInProgress => FailoverState(MasterCount(st))
    case DisruptionsPaused => ConditionState(False, "DisruptionsAllowed", Text("no disruption pause requested", []))
    case UpgradeInProgress => ConditionState(False, "Idle", Text("no upgrade in progress", []))
    case BootstrapInProgress => ConditionState(False, "Idle", Text("bootstrap complete", []))
    case ExternalImport => ConditionState(True, "Disabled", Text("external import not configured", []))
    case StorageCleanup => StorageState(spec)
    case RuntimeConfigApplied =>
      if st.runtimeConfig.Some? then st.runtimeConfig.value else ConditionState(StatusUnknown, "", Text("", []))
  }

  function StateFor(spec: ClusterSpec, st: ClusterState, typ: CondType): ConditionState {
    if typ != RuntimeConfigApplied && typ in st.overrides then st.overrides[typ] else DefaultState(spec, st, typ)
  }

  /** The order in which ComputeStatus builds the conditions. */
  const ORDER: seq<CondType> := [
    Reconciled, Available, SentinelQuorum, ReplicationHealthy, FailoverInProgress,
    DisruptionsPaused, UpgradeInProgress, BootstrapInProgress, ExternalImport, StorageCleanup]

  /** The previous condition of a type; a later duplicate wins. */
  function PreviousCond(conds: seq<Condition>, typ: CondType): (c: Option<Condition>)
    ensures c.Some? ==> c.value.typ == typ
  {
    if conds == [] then None
    else if conds[|conds| - 1].typ == typ then Some(conds[|conds| - 1])
    else PreviousCond(conds[..|conds| - 1], typ)
  }

  function BuildCondition(typ: CondType, state: ConditionState, previous: seq<Condition>, generation: int,
                          now: int): Condition
  {
    var prev := PreviousCond(previous, typ);
    var kept := prev.Some? && prev.value.state.status == state.status && prev.value.state.reason == state.reason;
    Condition(typ, state, if kept then prev.value.since else now, generation)
  }

  function States(spec: ClusterSpec, st: ClusterState): CondType -> ConditionState {
    (typ: CondType) => StateFor(spec, st, typ)
  }

  /** The runtime-config condition is rebuilt when there is a result, else carried over untouched. */
  function RuntimeTail(states: CondType -> ConditionState, rebuilt: bool, previous: seq<Condition>, generation: int,
                       now: int): seq<Condition>
  {
    if rebuilt then [BuildCondition(RuntimeConfigApplied, states(RuntimeConfigApplied), previous, generation, now)]
    else
      var prev := PreviousCond(previous, RuntimeConfigApplied);
      if prev.Some? then [prev.value] else []
  }

  function BuildAll(states: CondType -> ConditionState, rebuilt: bool, previous: seq<Condition>, generation: int,
                    now: int): seq<Condition>
  {
    seq(|ORDER|, i requires 0 <= i < |ORDER| => BuildCondition(ORDER[i], states(ORDER[i]), previous, generation, now)) +
    RuntimeTail(states, rebuilt, previous, generation, now)
  }

  function ConditionsOf(spec: ClusterSpec, st: ClusterState, previous: seq<Condition>, now: int): seq<Condition> {
    BuildAll(States(spec, st), st.runtimeConfig.Some?, previous, spec.generation, now)
  }

  predicate Satisfied(spec: ClusterSpec, st: ClusterState, typ: CondType, want: CondStatus) {
    StateFor(spec, st, typ).status == want
  }

  predicate GateOpen(spec: ClusterSpec, st: ClusterState) {
    && Satisfied(spec, st, Available, True)
    && Satisfied(spec, st, SentinelQuorum, True)
    && Satisfied(spec, st, ReplicationHealthy, True)
    && Satisfied(spec, st, FailoverInProgress, False)
    && Satisfied(spec, st, DisruptionsPaused, False)
    && Satisfied(spec, st, UpgradeInProgress, False)
    && Satisfied(spec, st, BootstrapInProgress, False)
    && Satisfied(spec, st, ExternalImport, True)
  }

  /** The status ComputeStatus returns, given the status the cluster had. */
  function StatusOf(spec: ClusterSpec, st: ClusterState, previous: ClusterStatus, now: int): ClusterStatus {
    ClusterStatus(
      st.master, spec.redisReplicas, st.rolesSource, Count(st.pods, IsReady()), RolesOf(st, previous.roles, now),
      ConditionsOf(spec, st, previous.conditions, now), GateOpen(spec, st), st.externalImport)
  }

  // ---- computing it again changes nothing ----

  predicate DistinctEntries(roles: seq<PodRoleStatus>) {
    forall i, j :: 0 <= i < j < |roles| ==> roles[i].name != roles[j].name
  }

  lemma {:induction false} PreviousAt(roles: seq<PodRoleStatus>, i: nat)
    requires DistinctEntries(roles) && i < |roles|
    ensures Previous(roles, roles[i].name) == Some(roles[i])
  {
    if i < |roles| - 1 {
      PreviousAt(roles[..|roles| - 1], i);
    }
  }

  predicate DistinctConditions(conds: seq<Condition>) {
    forall i, j :: 0 <= i < j < |conds| ==> conds[i].typ != conds[j].typ
  }

  lemma {:induction false} PreviousCondAt(conds: seq<Condition>, i: nat)
    requires DistinctConditions(conds) && i < |conds|
    ensures PreviousCond(conds, conds[i].typ) == Some(conds[i])
  {
    if i < |conds| - 1 {
      PreviousCondAt(conds[..|conds| - 1], i);
    }
  }

  lemma {:induction false} PreviousCondNone(conds: seq<Condition>, typ: CondType)
    requires forall i :: 0 <= i < |conds| ==> conds[i].typ != typ
    ensures PreviousCond(conds, typ) == None
  {
    if conds != [] {
      PreviousCondNone(conds[..|conds| - 1], typ);
    }
  }

  lemma OrderDistinct()
    ensures forall i, j :: 0 <= i < j < |ORDER| ==> ORDER[i] != ORDER[j]
    ensures RuntimeConfigApplied !in ORDER
  {
  }

  lemma BuiltTypes(states: CondType -> ConditionState, rebuilt: bool, previous: seq<Condition>, generation: int,
                   now: int)
    ensures
      var conds := BuildAll(states, rebuilt, previous, generation, now);
      DistinctConditions(conds) && forall i :: 0 <= i < |conds| ==>
        conds[i].typ == if i < |ORDER| then ORDER[i] else RuntimeConfigApplied
  {
    var conds := BuildAll(states, rebuilt, previous, generation, now);
    OrderDistinct();
    forall i | 0 <= i < |conds| ensures conds[i].typ == if i < |ORDER| then ORDER[i] else RuntimeConfigApplied {
    }
  }

  lemma BuildAllStable(
    states: CondType -> ConditionState, rebuilt: bool, previous: seq<Condition>, generation: int, now: int, later: int)
    ensures
      var conds := BuildAll(states, rebuilt, previous, generation, now);
      BuildAll(states, rebuilt, conds, generation, later) == conds
  {
    var conds := BuildAll(states, rebuilt, previous, generation, now);
    var again := BuildAll(states, rebuilt, conds, generation, later);
    BuiltTypes(states, rebuilt, previous, generation, now);
    forall i | 0 <= i < |ORDER| ensures again[i] == conds[i] {
      PreviousCondAt(conds, i);
    }
    if |conds| > |ORDER| {
      PreviousCondAt(conds, |ORDER|);
    } else {
      OrderDistinct();
      PreviousCondNone(conds, RuntimeConfigApplied);
    }
    assert RuntimeTail(states, rebuilt, conds, generation, later)
        == RuntimeTail(states, rebuilt, previous, generation, now);
    assert again == conds;
  }

  lemma EntryStable(
    st: ClusterState, p: Pod, role: Role, previous: seq<PodRoleStatus>, now: int, roles: seq<PodRoleStatus>, later: int)
    requires Previous(roles, p.name) == Some(RoleEntry(st, p, role, previous, now))
    ensures RoleEntry(st, p, role, roles, later) == RoleEntry(st, p, role, previous, now)
  {
  }

  lemma RolesDistinct(st: ClusterState, previous: seq<PodRoleStatus>, now: int)
    requires DistinctNames(st.pods + st.sentinels)
    ensures DistinctEntries(RolesOf(st, previous, now))
  {
    var all := st.pods + st.sentinels;
    var roles := RolesOf(st, previous, now);
    forall i | 0 <= i < |roles| ensures roles[i].name == all[i].name {
      assert roles[i] == EntryAt(st, i, previous, now);
    }
    forall i, j | 0 <= i < j < |roles| ensures roles[i].name != roles[j].name {
      assert all[i].name != all[j].name;
    }
  }

  lemma EntryAtStable(st: ClusterState, i: nat, previous: seq<PodRoleStatus>, now: int, roles: seq<PodRoleStatus>,
                      later: int)
    requires i < |st.pods| + |st.sentinels|
    requires Previous(roles, EntryAt(st, i, previous, now).name) == Some(EntryAt(st, i, previous, now))
    ensures EntryAt(st, i, roles, later) == EntryAt(st, i, previous, now)
  {
    if i < |st.pods| {
      EntryStable(st, st.pods[i], RoleOf(st, st.pods[i]), previous, now, roles, later);
    } else {
      EntryStable(st, st.sentinels[i - |st.pods|], SentinelRole, previous, now, roles, later);
    }
  }

  lemma RolesStable(st: ClusterState, previous: seq<PodRoleStatus>, now: int, later: int)
    requires DistinctNames(st.pods + st.sentinels)
    ensures RolesOf(st, RolesOf(st, previous, now), later) == RolesOf(st, previous, now)
  {
    var roles := RolesOf(st, previous, now);
    RolesDistinct(st, previous, now);
    forall i | 0 <= i < |roles| ensures EntryAt(st, i, roles, later) == EntryAt(st, i, previous, now) {
      PreviousAt(roles, i);
      EntryAtStable(st, i, previous, now, roles, later);
    }
  }

  /** Status is a fixpoint: computed again from the status just computed, at any later time, it is the same
      in every field, so a settled cluster causes no status write. */
  lemma StatusFixpoint(spec: ClusterSpec, st: ClusterState, previous: ClusterStatus, now: int, later: int)
    requires DistinctNames(st.pods + st.sentinels)
    ensures
      var status := StatusOf(spec, st, previous, now);
      StatusOf(spec, st, status, later) == status
  {
    RolesStable(st, previous.roles, now, later);
    BuildAllStable(States(spec, st), st.runtimeConfig.Some?, previous.conditions, spec.generation, now, later);
  }

  /** The entry found for a name is at or behind any entry of that name. */
  lemma {:induction false} PreviousBehind(roles: seq<PodRoleStatus>, k: nat) returns (m: nat)
    requires k < |roles|
    ensures k <= m < |roles| && Previous(roles, roles[k].name) == Some(roles[m])
  {
    var n := |roles| - 1;
    if roles[n].name == roles[k].name {
      m := n;
    } else {
      m := PreviousBehind(roles[..n], k);
    }
  }

  /** The hypothesis of distinct names, which one namespace guarantees, is needed for that: the entry of any Redis
      pod that shared its name with a Sentinel pod would be stamped anew at every computation, because the entry
      found for it is the Sentinel's. */
  lemma SharedNameChurns(
      spec: ClusterSpec, st: ClusterState, previous: ClusterStatus, i: nat, j: nat, now: int, later: int)
    requires i < |st.pods| && j < |st.sentinels| && st.pods[i].name == st.sentinels[j].name
    requires RoleOf(st, st.pods[i]) != SentinelRole
    ensures StatusOf(spec, st, StatusOf(spec, st, previous, now), later).roles[i].since == Some(later)
  {
    SentinelEntryFound(st, previous.roles, j, now);
    assert RolesOf(st, RolesOf(st, previous.roles, now), later)[i]
        == EntryAt(st, i, RolesOf(st, previous.roles, now), later);
  }

  /** The entry found for a Sentinel pod's name is a Sentinel's. */
  lemma SentinelEntryFound(st: ClusterState, previous: seq<PodRoleStatus>, j: nat, now: int)
    requires j < |st.sentinels|
    ensures var found := Previous(RolesOf(st, previous, now), st.sentinels[j].name);
            found.Some? && found.value.role == SentinelRole
  {
    var roles := RolesOf(st, previous, now);
    var k := |st.pods| + j;
    assert roles[k] == EntryAt(st, k, previous, now);
    var m := PreviousBehind(roles, k);
    assert roles[m] == EntryAt(st, m, previous, now);
  }

  // ---- the loops that compute it ----

  /** The loop over the Sentinel pods. */
  method AddSentinelRoles(st: ClusterState, redis: seq<PodRoleStatus>, previous: seq<PodRoleStatus>, now: int)
    returns (roles: seq<PodRoleStatus>)
    requires |redis| == |st.pods| && forall i :: 0 <= i < |redis| ==> redis[i] == EntryAt(st, i, previous, now)
    ensures roles == RolesOf(st, previous, now)
  {
    roles := redis;
    var k := 0;
    while k < |st.sentinels|
      invariant 0 <= k <= |st.sentinels| && |roles| == |st.pods| + k
      invariant forall i :: 0 <= i < |st.pods| + k ==> roles[i] == EntryAt(st, i, previous, now)
    {
      roles := roles + [RoleEntry(st, st.sentinels[k], SentinelRole, previous, now)];
      k := k + 1;
    }
  }

  /** The loop over the Redis pods, then the one over the Sentinel pods. */
  method ComputeRoles(st: ClusterState, previous: seq<PodRoleStatus>, now: int)
    returns (roles: seq<PodRoleStatus>, ready: nat, masters: nat, masterReady: bool, masterHealth: Health)
    ensures roles == RolesOf(st, previous, now)
    ensures ready == Count(st.pods, IsReady()) && masters == MasterCount(st)
    ensures masterReady == MasterReady(st) && masterHealth == MasterHealth(st)
  {
    roles, ready, masters, masterReady, masterHealth := [], 0, 0, false, Healthy;
    var k := 0;
    while k < |st.pods|
      invariant 0 <= k <= |st.pods| && |roles| == k
      invariant forall i :: 0 <= i < k ==> roles[i] == EntryAt(st, i, previous, now)
      invariant ready == Count(st.pods[..k], IsReady()) && masters == Count(st.pods[..k], IsMasterPod(st))
      invariant var m := LastMaster(st, st.pods[..k]);
        if m.Some? then masterReady == m.value.ready && masterHealth == HealthOf(st, m.value)
        else !masterReady && masterHealth == Healthy
    {
      var p := st.pods[k];
      var role := RoleOf(st, p);
      assert st.pods[..k + 1][..k] == st.pods[..k];
      roles := roles + [RoleEntry(st, p, role, previous, now)];
      if p.ready {
        ready := ready + 1;
      }
      if role == Master {
        masters, masterReady, masterHealth := masters + 1, p.ready, HealthOf(st, p);
      }
      k := k + 1;
    }
    assert st.pods[..k] == st.pods;
    roles := AddSentinelRoles(st, roles, previous, now);
  }

  method ComputeSentinelCondition(spec: ClusterSpec, st: ClusterState) returns (state: ConditionState)
    ensures state == SentinelState(spec, st)
  {
    if spec.mode != SentinelMode {
      return SentinelState(spec, st);
    }
    var expected := SentinelDesiredCount(spec);
    var observed, ready, k := 0, 0, 0;
    while k < |st.sentinels|
      invariant 0 <= k <= |st.sentinels|
      invariant observed == Count(st.sentinels[..k], Lives())
      invariant ready == Count(st.sentinels[..k], LivesReady())
    {
      CountStep(st.sentinels, k, Lives());
      CountStep(st.sentinels, k, LivesReady());
      if !st.sentinels[k].terminating {
        observed := observed + 1;
        if st.sentinels[k].ready {
          ready := ready + 1;
        }
      }
      k := k + 1;
    }
    assert st.sentinels[..k] == st.sentinels;
    var quorum := expected / 2 + 1;
    if observed < expected {
      return ConditionState(
        False, "InsufficientSentinels", Text("observed %d/%d sentinel pods", [Decimal(observed), Decimal(expected)]));
    }
    if ready < quorum {
      return ConditionState(
        False, "SentinelQuorumNotReady", Text("ready sentinel pods %d, quorum %d", [Decimal(ready), Decimal(quorum)]));
    }
    return ConditionState(
      True, "SentinelQuorumAchieved", Text("ready sentinel pods %d/%d", [Decimal(ready), Decimal(expected)]));
  }

  /** The loop over the replicas. */
  method SurveyReplicas(st: ClusterState) returns (healthy: nat, replicas: nat, issues: seq<Issue>)
    ensures healthy == Count(st.pods, HealthyReplica(st))
    ensures replicas == Count(st.pods, AnyReplica(st))
    ensures issues == ReplicaIssues(st, st.pods)
  {
    healthy, replicas, issues := 0, 0, [];
    var k := 0;
    while k < |st.pods|
      invariant 0 <= k <= |st.pods|
      invariant healthy == Count(st.pods[..k], HealthyReplica(st))
      invariant replicas == Count(st.pods[..k], AnyReplica(st))
      invariant issues == ReplicaIssues(st, st.pods[..k])
    {
      var p := st.pods[k];
      CountStep(st.pods, k, HealthyReplica(st));
      CountStep(st.pods, k, AnyReplica(st));
      assert st.pods[..k + 1][..k] == st.pods[..k];
      if IsReplicaPod(st, p) {
        replicas := replicas + 1;
        if ReplicaHealth(st, p) == Healthy {
          healthy := healthy + 1;
        } else {
          issues := issues + [ReplicaIssue(p.name, ReplicaHealth(st, p))];
        }
      }
      k := k + 1;
    }
    assert st.pods[..k] == st.pods;
  }

  method ComputeReplicationCondition(spec: ClusterSpec, st: ClusterState, masterHealth: Health)
    returns (state: ConditionState)
    requires masterHealth == MasterHealth(st)
    ensures state == ReplicationState(spec, st)
  {
    if st.pods == [] {
      return ConditionState(StatusUnknown, "NoPods", Text("redis pods have not been created yet", []));
    }
    var members, issues := 0, MasterIssues(st, masterHealth);
    if st.master != "" && masterHealth == Healthy {
      members := 1;
    }
    var healthy, replicas, found := SurveyReplicas(st);
    members, issues := members + healthy, issues + found;
    if replicas == 0 && spec.mode != Standalone {
      issues := issues + [NoReplicas];
    }
    assert issues == Issues(spec, st);
    return ReplicationVerdict(spec, st, members, issues);
  }

  function Override(st: ClusterState, typ: CondType, computed: ConditionState): ConditionState {
    if typ in st.overrides then st.overrides[typ] else computed
  }

  /** ComputeStatus as the source runs it. */
  method ComputeStatus(spec: ClusterSpec, st: ClusterState, previous: ClusterStatus, now: int)
    returns (status: ClusterStatus)
    ensures status == StatusOf(spec, st, previous, now)
  {
    var roles, ready, masters, masterReady, masterHealth := ComputeRoles(st, previous.roles, now);
    var sentinel := ComputeSentinelCondition(spec, st);
    var replication := ComputeReplicationCondition(spec, st, masterHealth);
    var conds := BuildConditions(spec, st, sentinel, replication, previous.conditions, now);
    conds := conds + RuntimeTail(States(spec, st), st.runtimeConfig.Some?, previous.conditions, spec.generation, now);
    assert conds == ConditionsOf(spec, st, previous.conditions, now);
    status := ClusterStatus(
      st.master, spec.redisReplicas, st.rolesSource, ready, roles, conds, GateOpen(spec, st), st.externalImport);
  }

  /** The ten conditions built one after the other. */
  method BuildEach(states: CondType -> ConditionState, previous: seq<Condition>, generation: int, now: int)
    returns (conds: seq<Condition>)
    ensures BuiltFrom(conds, states, previous, generation, now)
  {
    conds := [];
    var k := 0;
    while k < |ORDER|
      invariant 0 <= k <= |ORDER| && |conds| == k
      invariant forall i :: 0 <= i < k ==>
          conds[i] == BuildCondition(ORDER[i], states(ORDER[i]), previous, generation, now)
    {
      conds := conds + [BuildCondition(ORDER[k], states(ORDER[k]), previous, generation, now)];
      k := k + 1;
    }
  }

  /** What the loops computed, with the phases' overrides on top. */
  function ComputedState(spec: ClusterSpec, st: ClusterState, sentinel: ConditionState, replication: ConditionState,
                         typ: CondType): ConditionState
  {
    Override(st, typ,
      if typ == SentinelQuorum then sentinel
      else if typ == ReplicationHealthy then replication
      else DefaultState(spec, st, typ))
  }

  lemma ComputedIsState(spec: ClusterSpec, st: ClusterState, typ: CondType)
    requires typ != RuntimeConfigApplied
    ensures ComputedState(spec, st, SentinelState(spec, st), ReplicationState(spec, st), typ) == StateFor(spec, st, typ)
  {
    var sentinel, replication := SentinelState(spec, st), ReplicationState(spec, st);
    var computed :=
      if typ == SentinelQuorum then sentinel
      else if typ == ReplicationHealthy then replication
      else DefaultState(spec, st, typ);
    assert computed == DefaultState(spec, st, typ);
    assert Override(st, typ, computed) == StateFor(spec, st, typ);
  }

  /** Condition lists built from states that agree are the same. */
  ghost predicate BuiltFrom(conds: seq<Condition>, states: CondType -> ConditionState, previous: seq<Condition>,
                            generation: int, now: int)
  {
    |conds| == |ORDER| &&
    forall i :: 0 <= i < |ORDER| ==> conds[i] == BuildCondition(ORDER[i], states(ORDER[i]), previous, generation, now)
  }

  lemma BuiltAlike(conds: seq<Condition>, f: CondType -> ConditionState, g: CondType -> ConditionState,
                   previous: seq<Condition>, generation: int, now: int)
    requires BuiltFrom(conds, f, previous, generation, now)
    requires forall typ :: typ != RuntimeConfigApplied ==> f(typ) == g(typ)
    ensures BuiltFrom(conds, g, previous, generation, now)
  {
    OrderDistinct();
    forall i | 0 <= i < |ORDER| ensures f(ORDER[i]) == g(ORDER[i]) {
      assert ORDER[i] in ORDER;
    }
  }

  method BuildConditions(
    spec: ClusterSpec, st: ClusterState, sentinel: ConditionState, replication: ConditionState,
    previous: seq<Condition>, now: int)
    returns (conds: seq<Condition>)
    requires sentinel == SentinelState(spec, st) && replication == ReplicationState(spec, st)
    ensures BuiltFrom(conds, States(spec, st), previous, spec.generation, now)
  {
    var states := (typ: CondType) => ComputedState(spec, st, sentinel, replication, typ);
    conds := BuildEach(states, previous, spec.generation, now);
    forall typ: CondType | typ != RuntimeConfigApplied ensures states(typ) == States(spec, st)(typ) {
      ComputedIsState(spec, st, typ);
    }
    BuiltAlike(conds, states, States(spec, st), previous, spec.generation, now);
  }

  // ---- what an open gate means ----

  /** The conditions no phase of the operator overrides. */
  predicate ComputedOnly(st: ClusterState) {
    && Available !in st.overrides && ReplicationHealthy !in st.overrides
    && FailoverInProgress !in st.overrides && UpgradeInProgress !in st.overrides
  }

  /** Exactly one pod has the master role, and it is ready and healthy. */
  ghost predicate OneReadyMaster(st: ClusterState) {
    exists k :: 0 <= k < |st.pods| && SoleMaster(st, k) && st.pods[k].ready && HealthOf(st, st.pods[k]) == Healthy
  }

  ghost predicate SoleMaster(st: ClusterState, k: nat)
    requires k < |st.pods|
  {
    forall i :: 0 <= i < |st.pods| ==> (RoleOf(st, st.pods[i]) == Master <==> i == k)
  }

  ghost predicate ReplicasHealthy(st: ClusterState) {
    forall p :: p in st.pods && IsReplicaPod(st, p) ==> ReplicaHealth(st, p) == Healthy
  }

  /** The part of the gate that the phases' overrides decide. */
  predicate NothingPaused(spec: ClusterSpec, st: ClusterState) {
    && StateFor(spec, st, SentinelQuorum).status == True
    && StateFor(spec, st, DisruptionsPaused).status == False
    && StateFor(spec, st, BootstrapInProgress).status == False
    && StateFor(spec, st, ExternalImport).status == True
  }

  lemma LastMasterIs(st: ClusterState, pods: seq<Pod>, k: nat)
    requires k < |pods| && forall i :: 0 <= i < |pods| ==> (RoleOf(st, pods[i]) == Master <==> i == k)
    ensures LastMaster(st, pods) == Some(pods[k])
  {
    if k < |pods| - 1 {
      LastMasterIs(st, pods[..|pods| - 1], k);
    }
  }

  lemma {:induction false} CountSole(st: ClusterState, pods: seq<Pod>, k: nat)
    requires k < |pods| && forall i :: 0 <= i < |pods| ==> (RoleOf(st, pods[i]) == Master <==> i == k)
    ensures Count(pods, IsMasterPod(st)) == 1
  {
    if k < |pods| - 1 {
      CountSole(st, pods[..|pods| - 1], k);
    } else {
      CountZero(pods[..|pods| - 1], IsMasterPod(st));
    }
  }

  lemma AvailableIff(st: ClusterState)
    ensures AvailableState(st).status == True ==> MasterCount(st) == 1
    ensures AvailableState(st).status == True && MasterHealth(st) == Healthy <==> st.master != "" && OneReadyMaster(st)
  {
    if MasterCount(st) == 1 {
      var k := CountOne(st.pods, IsMasterPod(st));
      assert SoleMaster(st, k);
      LastMasterIs(st, st.pods, k);
      if OneReadyMaster(st) {
        var j :| 0 <= j < |st.pods| && SoleMaster(st, j) && st.pods[j].ready && HealthOf(st, st.pods[j]) == Healthy;
        assert RoleOf(st, st.pods[j]) == Master;
      }
    } else if OneReadyMaster(st) {
      var k :| 0 <= k < |st.pods| && SoleMaster(st, k);
      CountSole(st, st.pods, k);
    }
  }

  lemma {:induction false} NoReplicaIssues(st: ClusterState, pods: seq<Pod>)
    ensures ReplicaIssues(st, pods) == [] <==> forall i :: 0 <= i < |pods| ==> !UnhealthyReplica(st)(pods[i])
  {
    if pods != [] {
      NoReplicaIssues(st, pods[..|pods| - 1]);
      assert forall i :: 0 <= i < |pods| - 1 ==> pods[..|pods| - 1][i] == pods[i];
    }
  }

  lemma ReplicationIff(spec: ClusterSpec, st: ClusterState)
    requires st.master != "" && st.pods != []
    ensures ReplicationState(spec, st).status == True <==>
              && MasterHealth(st) == Healthy
              && ReplicasHealthy(st)
              && HealthyMembers(st) >= RequiredMembers(spec)
              && (spec.mode != Standalone ==> exists p :: p in st.pods && IsReplicaPod(st, p))
  {
    NoReplicaIssues(st, st.pods);
    CountZero(st.pods, AnyReplica(st));
    assert ReplicaIssues(st, st.pods) == [] <==> ReplicasHealthy(st) by {
      forall i | 0 <= i < |st.pods| ensures st.pods[i] in st.pods {}
      if ReplicaIssues(st, st.pods) == [] {
        forall p | p in st.pods && IsReplicaPod(st, p) ensures ReplicaHealth(st, p) == Healthy {
          var i :| 0 <= i < |st.pods| && st.pods[i] == p;
          assert !UnhealthyReplica(st)(st.pods[i]);
        }
      }
    }
    assert Count(st.pods, AnyReplica(st)) == 0 <==> !exists p :: p in st.pods && IsReplicaPod(st, p) by {
      if p :| p in st.pods && IsReplicaPod(st, p) {
        var i :| 0 <= i < |st.pods| && st.pods[i] == p;
        assert AnyReplica(st)(st.pods[i]);
      }
    }
  }

  /** A condition no phase overrides shows its computed state. */
  lemma NotOverridden(spec: ClusterSpec, st: ClusterState, typ: CondType)
    requires typ !in st.overrides || typ == RuntimeConfigApplied
    ensures StateFor(spec, st, typ) == DefaultState(spec, st, typ)
  {
  }

  lemma GateParts(spec: ClusterSpec, st: ClusterState)
    requires ComputedOnly(st)
    ensures GateOpen(spec, st) <==>
              NothingPaused(spec, st) && AvailableState(st).status == True &&
              ReplicationState(spec, st).status == True && FailoverState(MasterCount(st)).status == False
  {
    NotOverridden(spec, st, Available);
    NotOverridden(spec, st, ReplicationHealthy);
    NotOverridden(spec, st, FailoverInProgress);
    NotOverridden(spec, st, UpgradeInProgress);
  }

  /** The gate is open exactly when nothing is paused, one master is ready and healthy, no replica is
      unhealthy, and enough members are healthy. */
  lemma GateMeaning(spec: ClusterSpec, st: ClusterState)
    requires ComputedOnly(st)
    ensures GateOpen(spec, st) <==>
              && NothingPaused(spec, st)
              && st.master != "" && OneReadyMaster(st) && ReplicasHealthy(st)
              && HealthyMembers(st) >= RequiredMembers(spec)
              && (spec.mode != Standalone ==> exists p :: p in st.pods && IsReplicaPod(st, p))
  {
    GateParts(spec, st);
    AvailableIff(st);
    if st.master != "" && st.pods != [] {
      ReplicationIff(spec, st);
      assert AvailableState(st).status == True ==> FailoverState(MasterCount(st)).status == False;
    }
  }
}
