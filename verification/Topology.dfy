/** Topology alignment (replication/replication.go): one master, everyone else following it. */
module Topology {
  import opened Base
  import opened Network
  import opened Redis
  import opened Ordering
  import opened MasterCache

  datatype Source = NoSource | SentinelSource | ProbeSource | ForcedSource | CacheSource

  datatype EnsureResult = EnsureResult(
    changed: bool, master: string, roles: map<string, Role>, infos: map<string, ReplicationInfo>,
    drift: seq<string>, pending: seq<string>, source: Source, reason: string)

  /** How one pod answers during one alignment pass. */
  datatype PodEnv = PodEnv(clientOk: bool, authOk: bool, infoOk: bool, tries: seq<CallOutcome>, polls: seq<Poll>)

  type Env = string -> PodEnv

  /** Whom the pods of a pass are to follow. */
  datatype Target = Target(name: string, host: string, port: int, pods: PodList)

  function TargetFor(c: Cluster, pods: PodList, name: string, port: int): (t: Target)
    ensures t.host != "" && t.name == name && t.port == port && t.pods == pods
  {
    var pod := FindPod(pods, name);
    var ip := if pod.Some? then pod.value.ip else "";
    Target(name, if ip != "" then ip else PodDNSName(c, name), port, pods)
  }

  predicate ReplicaAligned(info: ReplicationInfo) {
    IsReplica(info) && info.masterHost != "" && LinkUp(info.link) && !info.syncing
  }

  /** The node is a replica of the target, whatever its link does. */
  predicate PointsAt(info: ReplicationInfo, t: Target) {
    && IsReplica(info)
    && HostMatchesMaster(info.masterHost, t.name, t.host, t.pods)
    && (info.masterPort == 0 || info.masterPort == t.port)
  }

  /** Nothing needs to be sent to this replica. */
  predicate Settled(info: ReplicationInfo, t: Target) {
    PointsAt(info, t) && ReplicaAligned(info)
  }

  predicate IsMaster(info: ReplicationInfo) {
    info.role == "master"
  }

  function ByName(p: Pod, q: Pod): bool {
    Less(p.name, q.name)
  }

  function SortedPodsByName(pods: seq<Pod>): seq<Pod> {
    SortBy(pods, ByName)
  }

  // ---- sorting keeps the list a list of distinct pods ----

  lemma {:induction false} OccursOnce(pods: seq<Pod>, p: Pod)
    requires DistinctNames(pods)
    ensures multiset(pods)[p] <= 1
  {
    if pods != [] {
      var n := |pods| - 1;
      assert pods == pods[..n] + [pods[n]];
      OccursOnce(pods[..n], p);
      if p == pods[n] { assert p !in pods[..n]; }
    }
  }

  lemma SortedDistinct(pods: PodList)
    ensures DistinctNames(SortedPodsByName(pods))
    ensures forall p :: p in pods <==> p in SortedPodsByName(pods)
  {
    var r := SortedPodsByName(pods);
    forall p ensures p in pods <==> p in r { SameElement(pods, r, p); }
    forall i, j | 0 <= i < j < |r| ensures r[i].name != r[j].name {
      assert r[i] in r && r[j] in r;
      OccursOnce(pods, r[i]);
      TwiceIfRepeated(r, i, j);
    }
  }

  lemma NameOrderWeak(pods: PodList)
    ensures WeakOrderOn(pods, ByName)
  {
    forall x | x in pods ensures !ByName(x, x) { LessIrreflexive(x.name); }
    forall x, y | x in pods && y in pods && ByName(x, y) ensures !ByName(y, x) {
      if ByName(y, x) { LessTransitive(x.name, y.name, x.name); LessIrreflexive(x.name); }
    }
    forall x, y, z | x in pods && y in pods && z in pods && !ByName(x, y) && !ByName(y, z) ensures !ByName(x, z) {
      NotLessTransitive(x.name, y.name, z.name);
    }
  }

  lemma NotLessTransitive(x: string, y: string, z: string)
    requires !Less(x, y) && !Less(y, z)
    ensures !Less(x, z)
  {
    LessConnected(x, y);
    LessConnected(y, z);
    if Less(x, z) {
      if x == y || y == z {
      } else {
        LessTransitive(z, y, x);
        LessTransitive(x, z, x);
        LessIrreflexive(x);
      }
    }
  }

  /** The first pod of the sorted list is the one whose name precedes all others. */
  lemma FirstIsLeast(pods: PodList)
    requires pods != []
    ensures SortedPodsByName(pods)[0] in pods
    ensures forall p :: p in pods && p.name != SortedPodsByName(pods)[0].name ==>
              Less(SortedPodsByName(pods)[0].name, p.name)
  {
    var r := SortedPodsByName(pods);
    SortedDistinct(pods);
    NameOrderWeak(pods);
    SortBySorted(pods, ByName);
    assert r[0] in r;
    forall p | p in pods && p.name != r[0].name ensures Less(r[0].name, p.name) {
      var j :| 0 <= j < |r| && r[j] == p;
      assert !ByName(r[j], r[0]);
      LessConnected(r[0].name, p.name);
    }
  }

  // ---- one pod at a time ----

  /** The poll answers and shows the replica aligned. */
  predicate ShowsAligned(node: ReplicationInfo, poll: Poll) {
    poll.PollSees? && ReplicaAligned(Progress(node, poll))
  }

  /** waitForReplicaSync: polls until the replica is aligned; `polls` ends at the deadline or when the
      context is cancelled. */
  method WaitForReplicaSync(fleet: Fleet, name: string, polls: seq<Poll>) returns (info: ReplicationInfo, ok: bool)
    requires name in fleet.nodes
    modifies fleet
    ensures fleet.log == old(fleet.log)
    ensures OnlyChanges(old(fleet.nodes), fleet.nodes, name)
    ensures SameUpstream(fleet.nodes[name], old(fleet.nodes)[name])
    ensures ok <==> exists i :: 0 <= i < |polls| && ShowsAligned(old(fleet.nodes)[name], polls[i])
    ensures ok ==> info == fleet.nodes[name] && ReplicaAligned(info)
    ensures info == NO_INFO || SameUpstream(info, old(fleet.nodes)[name])
  {
    info, ok := NO_INFO, false;
    var i := 0;
    while i < |polls|
      invariant 0 <= i <= |polls|
      invariant fleet.log == old(fleet.log)
      invariant OnlyChanges(old(fleet.nodes), fleet.nodes, name)
      invariant SameUpstream(fleet.nodes[name], old(fleet.nodes)[name])
      invariant forall k :: 0 <= k < i ==> !ShowsAligned(old(fleet.nodes)[name], polls[k])
      invariant info == NO_INFO || SameUpstream(info, old(fleet.nodes)[name])
    {
      assert ShowsAligned(fleet.nodes[name], polls[i]) <==> ShowsAligned(old(fleet.nodes)[name], polls[i]);
      if polls[i].PollSees? {
        fleet.nodes := fleet.nodes[name := Progress(fleet.nodes[name], polls[i])];
        info := fleet.nodes[name];
        if ReplicaAligned(info) {
          return info, true;
        }
      }
      i := i + 1;
    }
  }

  /** The master's turn: promote it unless INFO says, or fails to say, that it is master already. */
  method AlignMaster(fleet: Fleet, name: string, env: PodEnv)
    returns (err: bool, commanded: bool, info: ReplicationInfo)
    requires name in fleet.nodes
    modifies fleet
    ensures OnlyChanges(old(fleet.nodes), fleet.nodes, name)
    ensures err <==>
              !env.clientOk || !env.authOk || (env.infoOk && !IsMaster(old(fleet.nodes)[name]) && !Lands(env.tries))
    ensures !err ==> info.role == "master"
    ensures !err ==> (commanded <==> env.infoOk && !IsMaster(old(fleet.nodes)[name]))
    ensures !err ==> (IsMaster(fleet.nodes[name]) <==> env.infoOk || IsMaster(old(fleet.nodes)[name]))
    ensures !commanded ==> fleet.nodes == old(fleet.nodes) || err
    ensures !err && !commanded ==> fleet.log == old(fleet.log)
    ensures commanded ==> |old(fleet.log)| < |fleet.log|
    ensures Resent(old(fleet.log), fleet.log, NoOne(name))
  {
    err, commanded, info := true, false, NO_INFO;
    if !env.clientOk || !env.authOk {
      return;
    }
    info := if env.infoOk then fleet.nodes[name] else NO_INFO.(role := "master");
    if info.role != "master" {
      var ok := fleet.Retry(NoOne(name), env.tries);
      if !ok {
        return;
      }
      commanded := true;
      info := info.(role := "master", masterHost := "");
    }
    err := false;
  }

  /** A replica's turn: REPLICAOF unless INFO shows it settled already. */
  method AlignReplica(fleet: Fleet, name: string, t: Target, env: PodEnv)
    returns (err: bool, commanded: bool, waiting: bool, info: ReplicationInfo)
    requires name in fleet.nodes && t.host != ""
    modifies fleet
    ensures OnlyChanges(old(fleet.nodes), fleet.nodes, name)
    ensures err <==>
              !env.clientOk || !env.authOk || (!(env.infoOk && Settled(old(fleet.nodes)[name], t)) && !Lands(env.tries))
    ensures !err ==> info.role != ""
    ensures !err ==> (commanded <==> !(env.infoOk && Settled(old(fleet.nodes)[name], t)))
    ensures !err ==> PointsAt(fleet.nodes[name], t)
    ensures !err && !waiting ==> Settled(fleet.nodes[name], t) && info == fleet.nodes[name]
    ensures !err && !commanded ==> fleet.log == old(fleet.log)
    ensures commanded ==> |old(fleet.log)| < |fleet.log|
    ensures waiting ==> commanded
    ensures Resent(old(fleet.log), fleet.log, ReplicaOf(name, t.host, t.port))
  {
    err, commanded, waiting, info := true, false, false, NO_INFO;
    if !env.clientOk || !env.authOk {
      return;
    }
    if env.infoOk {
      info := fleet.nodes[name];
    }
    if !(env.infoOk && Settled(info, t)) {
      var ok := fleet.Retry(ReplicaOf(name, t.host, t.port), env.tries);
      if !ok {
        return;
      }
      commanded := true;
      assert Lower("replica") == Lower(fleet.nodes[name].role);
      var synced;
      info, synced := WaitForReplicaSync(fleet, name, env.polls);
      waiting := !synced;
    }
    if info.role == "" {
      info := info.(role := "replica");
    }
    err := false;
  }

  // ---- the whole pass ----

  /** The pods whose turn sends no command, judged from INFO before the pass. */
  predicate QuietPod(nodes: map<string, ReplicationInfo>, p: Pod, t: Target, env: Env) {
    p.name in nodes &&
    if p.name == t.name then !env(p.name).infoOk || IsMaster(nodes[p.name])
    else env(p.name).infoOk && Settled(nodes[p.name], t)
  }

  /** The pods whose turn ends in an error, judged likewise: no client, no login, or a command that is due and
      reports success in none of its three tries. */
  predicate PodFails(nodes: map<string, ReplicationInfo>, p: Pod, t: Target, env: Env) {
    var e := env(p.name);
    !e.clientOk || !e.authOk || (!QuietPod(nodes, p, t, env) && !Lands(e.tries))
  }

  ghost predicate QuietPass(nodes: map<string, ReplicationInfo>, t: Target, env: Env) {
    forall p :: p in t.pods ==> QuietPod(nodes, p, t, env)
  }

  function RoleIn(name: string, master: string): Role {
    if name == master then Master else Replica
  }

  /** The commands the pass sent to one pod are its own kind only. */
  predicate CommandFor(command: Command, t: Target) {
    if command.pod == t.name then command == NoOne(t.name) else command == ReplicaOf(command.pod, t.host, t.port)
  }

  function CommandOf(p: Pod, t: Target): Command {
    if p.name == t.name then NoOne(p.name) else ReplicaOf(p.name, t.host, t.port)
  }

  /** What a pod looks like after its turn: the target is master unless its INFO failed while it was none,
      any other pod follows the target. */
  predicate TurnDone(
    before: map<string, ReplicationInfo>, after: map<string, ReplicationInfo>, p: Pod, t: Target, env: Env)
  {
    p.name in before && p.name in after &&
    if p.name == t.name then IsMaster(after[p.name]) <==> env(p.name).infoOk || IsMaster(before[p.name])
    else PointsAt(after[p.name], t)
  }

  method AlignPod(fleet: Fleet, p: Pod, t: Target, env: Env)
    returns (err: bool, commanded: bool, waiting: bool, info: ReplicationInfo)
    requires p.name in fleet.nodes && t.host != ""
    modifies fleet
    ensures OnlyChanges(old(fleet.nodes), fleet.nodes, p.name)
    ensures Resent(old(fleet.log), fleet.log, CommandOf(p, t))
    ensures err <==> PodFails(old(fleet.nodes), p, t, env)
    ensures !err ==> TurnDone(old(fleet.nodes), fleet.nodes, p, t, env) && info.role != ""
    ensures !err ==> (commanded <==> fleet.log != old(fleet.log))
    ensures !err ==> (commanded <==> !QuietPod(old(fleet.nodes), p, t, env))
  {
    waiting := false;
    if p.name == t.name {
      err, commanded, info := AlignMaster(fleet, p.name, env(p.name));
    } else {
      err, commanded, waiting, info := AlignReplica(fleet, p.name, t, env(p.name));
    }
  }

  function Record(res: EnsureResult, p: Pod, t: Target, commanded: bool, waiting: bool,
                  info: ReplicationInfo): EnsureResult
  {
    res.(changed := res.changed || commanded,
         drift := if commanded then res.drift + [p.name] else res.drift,
         pending := if waiting then res.pending + [p.name] else res.pending,
         roles := res.roles[p.name := RoleIn(p.name, t.name)],
         infos := res.infos[p.name := info])
  }

  /** The roles and infos of a result cover exactly these names. */
  ghost predicate CoversNames(res: EnsureResult, names: set<string>, t: Target) {
    && res.master == t.name
    && res.roles.Keys == res.infos.Keys == names
    && (forall n :: n in res.roles ==> res.roles[n] == RoleIn(n, t.name))
    && (forall n :: n in res.infos ==> res.infos[n].role != "")
    && (res.changed <==> res.drift != [])
  }

  /** The roles and infos of a result cover exactly the visited pods. */
  ghost predicate Covers(res: EnsureResult, visited: seq<Pod>, t: Target) {
    CoversNames(res, Names(visited), t)
  }

  lemma RecordCoversName(
    res: EnsureResult, names: set<string>, p: Pod, t: Target, commanded: bool, waiting: bool, info: ReplicationInfo)
    requires CoversNames(res, names, t) && info.role != ""
    ensures CoversNames(Record(res, p, t, commanded, waiting, info), names + {p.name}, t)
  {
    var next := Record(res, p, t, commanded, waiting, info);
    assert next.roles.Keys == res.roles.Keys + {p.name} && next.infos.Keys == res.infos.Keys + {p.name};
  }

  lemma RecordCovers(
    res: EnsureResult, order: seq<Pod>, k: nat, t: Target, commanded: bool, waiting: bool, info: ReplicationInfo)
    requires k < |order| && Covers(res, order[..k], t) && info.role != ""
    ensures Covers(Record(res, order[k], t, commanded, waiting, info), order[..k + 1], t)
  {
    NamesTake(order, k);
    RecordCoversName(res, Names(order[..k]), order[k], t, commanded, waiting, info);
  }

  /** The commands of a pass: each to a listed pod, and each the one that pod is due. */
  predicate Sent(before: seq<Command>, after: seq<Command>, t: Target) {
    before <= after &&
    forall i :: |before| <= i < |after| ==> after[i].pod in Names(t.pods) && CommandFor(after[i], t)
  }

  lemma SentStep(start: seq<Command>, before: seq<Command>, after: seq<Command>, p: Pod, t: Target)
    requires Sent(start, before, t) && p in t.pods
    requires Resent(before, after, CommandOf(p, t))
    ensures Sent(start, after, t)
  {
    assert p.name in Names(t.pods);
    forall i | |start| <= i < |after| ensures after[i].pod in Names(t.pods) && CommandFor(after[i], t) {
      if i < |before| { assert after[i] == before[i]; }
    }
  }

  /** The nodes part of the loop: unvisited nodes are as before, visited pods have had their turn. */
  ghost predicate Visited(
    start: map<string, ReplicationInfo>, now: map<string, ReplicationInfo>, order: seq<Pod>, k: nat, t: Target,
    env: Env)
    requires k <= |order|
  {
    && now.Keys == start.Keys
    && (forall n :: n in now && (forall i :: 0 <= i < k ==> order[i].name != n) ==> now[n] == start[n])
    && (forall i :: 0 <= i < k ==> TurnDone(start, now, order[i], t, env))
  }

  lemma VisitStep(
    start: map<string, ReplicationInfo>, before: map<string, ReplicationInfo>, after: map<string, ReplicationInfo>,
    order: seq<Pod>, k: nat, t: Target, env: Env)
    requires k < |order| && DistinctNames(order)
    requires Visited(start, before, order, k, t, env)
    requires OnlyChanges(before, after, order[k].name)
    requires TurnDone(before, after, order[k], t, env)
    ensures Visited(start, after, order, k + 1, t, env)
  {
    assert before[order[k].name] == start[order[k].name];
    forall i | 0 <= i < k + 1 ensures TurnDone(start, after, order[i], t, env) {
      if i < k { assert TurnDone(start, before, order[i], t, env); }
    }
    forall n | n in after && (forall i :: 0 <= i < k + 1 ==> order[i].name != n) ensures after[n] == start[n] {
      assert n != order[k].name;
    }
  }

  /** A pod that has not had its turn is as it was. */
  lemma Unvisited(
    start: map<string, ReplicationInfo>, now: map<string, ReplicationInfo>, order: seq<Pod>, k: nat, t: Target,
    env: Env)
    requires k < |order| && DistinctNames(order) && order[k].name in now
    requires Visited(start, now, order, k, t, env)
    ensures order[k].name in start && now[order[k].name] == start[order[k].name]
    ensures PodFails(now, order[k], t, env) <==> PodFails(start, order[k], t, env)
  {
    assert QuietPod(now, order[k], t, env) <==> QuietPod(start, order[k], t, env);
  }

  /** Some of the first k pods needed a command. */
  ghost predicate Disturbed(start: map<string, ReplicationInfo>, order: seq<Pod>, k: nat, t: Target, env: Env)
    requires k <= |order|
  {
    exists i :: 0 <= i < k && !QuietPod(start, order[i], t, env)
  }

  lemma DisturbedStep(
    start: map<string, ReplicationInfo>, before: map<string, ReplicationInfo>, order: seq<Pod>, k: nat, t: Target,
    env: Env)
    requires k < |order| && order[k].name in start && order[k].name in before
    requires before[order[k].name] == start[order[k].name]
    ensures Disturbed(start, order, k + 1, t, env) <==>
            Disturbed(start, order, k, t, env) || !QuietPod(before, order[k], t, env)
  {
    assert QuietPod(before, order[k], t, env) <==> QuietPod(start, order[k], t, env);
  }

  /** What the result says after the first k pods; `disturbed` tells whether one of them needed a command. */
  ghost predicate Reported(
    startLog: seq<Command>, log: seq<Command>, order: seq<Pod>, k: nat, t: Target, disturbed: bool, res: EnsureResult)
    requires k <= |order|
  {
    && Sent(startLog, log, t)
    && Covers(res, order[..k], t)
    && (res.changed <==> log != startLog)
    && (res.changed <==> disturbed)
  }

  /** A log that only grows is new exactly when one of its parts is. */
  lemma LogGrows<T>(start: seq<T>, middle: seq<T>, end: seq<T>)
    requires start <= middle <= end
    ensures end != start <==> middle != start || end != middle
  {
    assert |start| <= |middle| <= |end|;
    assert |end| == |middle| ==> end == end[..|middle|] == middle;
    assert |middle| == |start| ==> middle == middle[..|start|] == start;
  }

  lemma ReportStep(
    startLog: seq<Command>, logBefore: seq<Command>, log: seq<Command>, order: seq<Pod>, k: nat, t: Target,
    disturbed: bool, res: EnsureResult, next: EnsureResult, commanded: bool)
    requires k < |order| && Reported(startLog, logBefore, order, k, t, disturbed, res)
    requires Sent(startLog, log, t) && Covers(next, order[..k + 1], t)
    requires logBefore <= log && (commanded <==> log != logBefore) && next.changed == (res.changed || commanded)
    ensures Reported(startLog, log, order, k + 1, t, disturbed || commanded, next)
  {
    LogGrows(startLog, logBefore, log);
  }

  /** The loop of ensureWithMaster over the sorted pods. */
  method AlignAll(fleet: Fleet, order: PodList, t: Target, env: Env) returns (res: EnsureResult, err: bool)
    requires t.host != ""
    requires forall p :: p in order ==> p in t.pods && p.name in fleet.nodes
    modifies fleet
    ensures fleet.nodes.Keys == old(fleet.nodes.Keys)
    ensures forall n :: n in fleet.nodes && (forall i :: 0 <= i < |order| ==> order[i].name != n) ==>
      fleet.nodes[n] == old(fleet.nodes)[n]
    ensures Sent(old(fleet.log), fleet.log, t)
    ensures res.master == t.name
    ensures err <==> exists i :: 0 <= i < |order| && PodFails(old(fleet.nodes), order[i], t, env)
    ensures !err ==> Covers(res, order, t)
    ensures !err ==> forall i :: 0 <= i < |order| ==> TurnDone(old(fleet.nodes), fleet.nodes, order[i], t, env)
    ensures !err ==> (res.changed <==> fleet.log != old(fleet.log))
    ensures !err ==> (res.changed <==> Disturbed(old(fleet.nodes), order, |order|, t, env))
  {
    res := EnsureResult(false, t.name, map[], map[], [], [], NoSource, "");
    err := false;
    ghost var start, startLog, disturbed := fleet.nodes, fleet.log, false;
    var k := 0;
    while k < |order|
      invariant 0 <= k <= |order|
      invariant Visited(start, fleet.nodes, order, k, t, env)
      invariant forall i :: 0 <= i < k ==> !PodFails(start, order[i], t, env)
      invariant disturbed <==> Disturbed(start, order, k, t, env)
      invariant Reported(startLog, fleet.log, order, k, t, disturbed, res)
    {
      var p := order[k];
      ghost var nodesBefore, logBefore := fleet.nodes, fleet.log;
      assert p in order;
      Unvisited(start, fleet.nodes, order, k, t, env);
      var commanded, waiting, info;
      err, commanded, waiting, info := AlignPod(fleet, p, t, env);
      SentStep(startLog, logBefore, fleet.log, p, t);
      if err {
        return;
      }
      VisitStep(start, nodesBefore, fleet.nodes, order, k, t, env);
      DisturbedStep(start, nodesBefore, order, k, t, env);
      RecordCovers(res, order, k, t, commanded, waiting, info);
      var next := Record(res, p, t, commanded, waiting, info);
      ReportStep(startLog, logBefore, fleet.log, order, k, t, disturbed, res, next, commanded);
      disturbed := disturbed || commanded;
      res := next;
      k := k + 1;
    }
    assert order[..k] == order;
  }

  function ChosenName(pods: PodList, masterName: string): string
    requires pods != []
  {
    if masterName == "" then SortedPodsByName(pods)[0].name else masterName
  }

  /** A pass is quiet exactly when none of its pods, in whatever order, needs a command. */
  lemma QuietUnlessDisturbed(nodes: map<string, ReplicationInfo>, order: seq<Pod>, t: Target, env: Env)
    requires forall p :: p in t.pods <==> p in order
    ensures QuietPass(nodes, t, env) <==> !Disturbed(nodes, order, |order|, t, env)
  {
    if QuietPass(nodes, t, env) {
      forall i | 0 <= i < |order| ensures QuietPod(nodes, order[i], t, env) { assert order[i] in order; }
    } else {
      var p :| p in t.pods && !QuietPod(nodes, p, t, env);
      var i :| 0 <= i < |order| && order[i] == p;
    }
  }

  /** Some pod's turn ends in an error. */
  ghost predicate PassFails(nodes: map<string, ReplicationInfo>, t: Target, env: Env) {
    exists p :: p in t.pods && PodFails(nodes, p, t, env)
  }

  lemma FailsInAnyOrder(nodes: map<string, ReplicationInfo>, order: seq<Pod>, t: Target, env: Env)
    requires forall p :: p in t.pods <==> p in order
    ensures PassFails(nodes, t, env) <==> exists i :: 0 <= i < |order| && PodFails(nodes, order[i], t, env)
  {
    if PassFails(nodes, t, env) {
      var p :| p in t.pods && PodFails(nodes, p, t, env);
      var i :| 0 <= i < |order| && order[i] == p;
    }
    if exists i :: 0 <= i < |order| && PodFails(nodes, order[i], t, env) {
      var i :| 0 <= i < |order| && PodFails(nodes, order[i], t, env);
      assert order[i] in t.pods;
    }
  }

  /** ensureWithMaster. It succeeds exactly when no pod's turn fails. On success exactly the chosen pod is told to be
      master and everyone else follows it; the chosen pod really is master unless its INFO failed while it was none. */
  method EnsureWithMaster(fleet: Fleet, c: Cluster, pods: PodList, masterName: string, port: int, env: Env)
    returns (res: EnsureResult, err: bool)
    requires Names(pods) <= fleet.nodes.Keys
    modifies fleet
    ensures pods == [] ==> err && fleet.nodes == old(fleet.nodes) && fleet.log == old(fleet.log)
    ensures pods != [] ==> res.master == ChosenName(pods, masterName)
    ensures fleet.nodes.Keys == old(fleet.nodes.Keys)
    ensures forall n :: n in fleet.nodes && n !in Names(pods) ==> fleet.nodes[n] == old(fleet.nodes)[n]
    ensures pods != [] ==> Sent(old(fleet.log), fleet.log, TargetFor(c, pods, res.master, port))
    ensures pods != [] ==> (err <==> PassFails(old(fleet.nodes), TargetFor(c, pods, res.master, port), env))
    ensures !err ==> PassDone(old(fleet.nodes), fleet.nodes, TargetFor(c, pods, res.master, port), env)
    ensures !err ==> Covers(res, pods, TargetFor(c, pods, res.master, port))
    ensures !err ==> (res.changed <==> fleet.log != old(fleet.log))
    ensures !err ==> (res.changed <==> !QuietPass(old(fleet.nodes), TargetFor(c, pods, res.master, port), env))
  {
    if pods == [] {
      return EnsureResult(false, masterName, map[], map[], [], [], NoSource, ""), true;
    }
    var t := TargetFor(c, pods, ChosenName(pods, masterName), port);
    var order := SortedPodsByName(pods);
    SortedDistinct(pods);
    forall p | p in order ensures p in pods && p.name in fleet.nodes { assert p.name in Names(pods); }
    res, err := AlignAll(fleet, order, t, env);
    SameNames(pods, order);
    forall n | n in fleet.nodes && n !in Names(pods) ensures fleet.nodes[n] == old(fleet.nodes)[n] {
      assert forall i :: 0 <= i < |order| ==> order[i].name in Names(order);
    }
    QuietUnlessDisturbed(old(fleet.nodes), order, t, env);
    FailsInAnyOrder(old(fleet.nodes), order, t, env);
    assert !err ==> PassDone(old(fleet.nodes), fleet.nodes, t, env);
  }

  /** Every pod of the list has had its turn. */
  ghost predicate PassDone(
    before: map<string, ReplicationInfo>, after: map<string, ReplicationInfo>, t: Target, env: Env)
  {
    forall p :: p in t.pods ==> TurnDone(before, after, p, t, env)
  }

  lemma NamesSnoc(pods: seq<Pod>, p: Pod)
    ensures Names(pods + [p]) == Names(pods) + {p.name}
  {
    forall n ensures n in Names(pods + [p]) <==> n in Names(pods) + {p.name} {
      if n in Names(pods) { var q :| q in pods && q.name == n; assert q in pods + [p]; }
      assert p in pods + [p];
    }
  }

  lemma NamesTake(order: seq<Pod>, k: nat)
    requires k < |order|
    ensures Names(order[..k + 1]) == Names(order[..k]) + {order[k].name}
  {
    assert order[..k + 1] == order[..k] + [order[k]];
    NamesSnoc(order[..k], order[k]);
  }

  lemma SameNames(pods: seq<Pod>, order: seq<Pod>)
    requires forall p :: p in pods <==> p in order
    ensures Names(pods) == Names(order)
  {
  }

  // ---- what a finished pass means ----

  lemma ReplicaIsNotMaster(info: ReplicationInfo)
    requires IsReplica(info)
    ensures !IsMaster(info)
  {
    assert |Lower(info.role)| == |info.role| && |Lower("replica")| == 7;
  }

  /** After a pass without error the chosen pod is the only master among the listed ones exactly when its
      INFO answered or it was master before; a failed INFO is taken for "already master". */
  lemma OneMasterIff(before: map<string, ReplicationInfo>, after: map<string, ReplicationInfo>, t: Target, env: Env)
    requires PassDone(before, after, t, env) && HasPod(t.pods, t.name)
    ensures
      (forall p :: p in t.pods ==> p.name in after && (IsMaster(after[p.name]) <==> p.name == t.name)) <==>
      t.name in before && (env(t.name).infoOk || IsMaster(before[t.name]))
  {
    var i :| 0 <= i < |t.pods| && t.pods[i].name == t.name;
    assert TurnDone(before, after, t.pods[i], t, env);
    forall p | p in t.pods && p.name != t.name ensures p.name in after && !IsMaster(after[p.name]) {
      assert TurnDone(before, after, p, t, env);
      ReplicaIsNotMaster(after[p.name]);
    }
  }

  /** The failing case: wherever the chosen pod is no master and only its INFO fails, its turn succeeds, and after
      the pass no listed pod is master. */
  lemma FailedInfoLeavesNoMaster(before: map<string, ReplicationInfo>, after: map<string, ReplicationInfo>, t: Target,
                                 env: Env, m: nat)
    requires m < |t.pods| && t.pods[m].name == t.name && t.name in before && !IsMaster(before[t.name])
    requires env(t.name).clientOk && env(t.name).authOk && !env(t.name).infoOk
    ensures !PodFails(before, t.pods[m], t, env)
    ensures PassDone(before, after, t, env) ==> forall p :: p in t.pods ==> !IsMaster(after[p.name])
  {
    if PassDone(before, after, t, env) {
      forall p | p in t.pods ensures !IsMaster(after[p.name]) {
        assert TurnDone(before, after, p, t, env);
        if p.name != t.name {
          ReplicaIsNotMaster(after[p.name]);
        }
      }
    }
  }

  /** On such an input, when no other pod's turn fails, ensureWithMaster reports success and the chosen pod as master
      while no listed pod is one. */
  method PassWithoutMaster(fleet: Fleet, c: Cluster, pods: PodList, m: nat, port: int, env: Env)
    returns (res: EnsureResult, err: bool)
    requires Names(pods) <= fleet.nodes.Keys && m < |pods| && pods[m].name != ""
    requires pods[m].name in fleet.nodes && !IsMaster(fleet.nodes[pods[m].name])
    requires env(pods[m].name).clientOk && env(pods[m].name).authOk && !env(pods[m].name).infoOk
    requires forall i :: 0 <= i < |pods| && i != m ==>
               !PodFails(fleet.nodes, pods[i], TargetFor(c, pods, pods[m].name, port), env)
    modifies fleet
    ensures !err && res.master == pods[m].name && res.master in res.roles && res.roles[res.master] == Master
    ensures forall p :: p in pods ==> p.name in fleet.nodes && !IsMaster(fleet.nodes[p.name])
  {
    ghost var before, t := fleet.nodes, TargetFor(c, pods, pods[m].name, port);
    res, err := EnsureWithMaster(fleet, c, pods, pods[m].name, port, env);
    FailedInfoLeavesNoMaster(before, fleet.nodes, t, env, m);
    assert pods[m] in pods;
    forall p | p in pods ensures !PodFails(before, p, t, env) {
      var i :| 0 <= i < |pods| && pods[i] == p;
    }
  }

  /** The host really names the pod: by its name, its address, or the first label of a DNS name. */
  predicate Addresses(host: string, pod: Pod) {
    || host == pod.name
    || (pod.ip != "" && host == pod.ip)
    || (var i := FirstIndex(host, '.'); i > 0 && host[..i] == pod.name)
  }

  lemma MatchFirstLabel(pods: seq<Pod>, host: string, name: string)
    requires MatchPodByHost(pods, host) == name && name != ""
    ensures FirstIndex(host, '.') > 0 && host[..FirstIndex(host, '.')] == name
  {
  }

  /** A pod that points at the target follows that very pod, provided the address it was given leads
      there: the target has an IP, or a name that survives DNS. */
  lemma PointsAtAddresses(c: Cluster, pods: PodList, name: string, port: int, info: ReplicationInfo)
    requires HasPod(pods, name) && name != "" && Reachable(c, FindPod(pods, name).value)
    requires PointsAt(info, TargetFor(c, pods, name, port))
    ensures Addresses(info.masterHost, FindPod(pods, name).value)
  {
    var t := TargetFor(c, pods, name, port);
    var pod := FindPod(pods, name).value;
    var host := info.masterHost;
    if host == t.host && pod.ip == "" {
      DNSNameMapsBack(c, pods, name);
      MatchFirstLabel(pods, host, name);
    } else if host != t.host && host != name {
      MatchFirstLabel(pods, host, name);
    }
  }

  /** The nodes later on: everyone still follows whom it followed, and the links are up. */
  ghost predicate LinksUp(
    after: map<string, ReplicationInfo>, later: map<string, ReplicationInfo>, pods: seq<Pod>, master: string)
  {
    forall p :: p in pods ==>
      p.name in after && p.name in later && SameUpstream(later[p.name], after[p.name]) &&
      (p.name != master ==> LinkUp(later[p.name].link) && !later[p.name].syncing)
  }

  /** The same pods seen again; an address that was unknown may have become known. */
  predicate SeenAgain(pods: PodList, again: PodList) {
    |pods| == |again| &&
    forall i :: 0 <= i < |pods| ==>
      again[i].name == pods[i].name && (pods[i].ip == "" || pods[i].ip == again[i].ip)
  }

  lemma SameMatches(pods: PodList, again: PodList, host: string)
    requires SeenAgain(pods, again)
    ensures MatchPodByHost(pods, host) == MatchPodByHost(again, host)
  {
    forall name ensures HasPod(pods, name) <==> HasPod(again, name) {
      if i :| 0 <= i < |pods| && pods[i].name == name { assert again[i].name == name; }
      if i :| 0 <= i < |again| && again[i].name == name { assert pods[i].name == name; }
    }
  }

  /** The address others are given for the pod leads there: its IP is known, or its name survives DNS. */
  predicate Reachable(c: Cluster, p: Pod) {
    p.ip != "" || (NoDot(c.name) && CanonicalName(c, p.name))
  }

  lemma StillPointsAt(c: Cluster, pods: PodList, again: PodList, m: nat, port: int, info: ReplicationInfo)
    requires SeenAgain(pods, again) && m < |pods| && Reachable(c, pods[m])
    requires PointsAt(info, TargetFor(c, pods, pods[m].name, port))
    ensures PointsAt(info, TargetFor(c, again, pods[m].name, port))
  {
    var name := pods[m].name;
    FindPodAt(pods, m);
    FindPodAt(again, m);
    SameMatches(pods, again, info.masterHost);
    var t := TargetFor(c, pods, name, port);
    if info.masterHost == t.host && pods[m].ip == "" {
      assert HasPod(again, name) by { assert again[m].name == name; }
      DNSNameMapsBack(c, again, name);
    }
  }

  /** A second pass to the same master sends nothing once the links are up, even if the master's address
      became known only in between: its DNS name maps back to the same pod. */
  lemma SecondPassQuiet(
    c: Cluster, pods: PodList, again: PodList, m: nat, port: int,
    before: map<string, ReplicationInfo>, after: map<string, ReplicationInfo>, later: map<string, ReplicationInfo>,
    env: Env, envAgain: Env)
    requires SeenAgain(pods, again) && m < |pods| && Reachable(c, pods[m])
    requires PassDone(before, after, TargetFor(c, pods, pods[m].name, port), env)
    requires env(pods[m].name).infoOk
    requires LinksUp(after, later, pods, pods[m].name)
    requires forall p :: p in pods ==> envAgain(p.name).infoOk
    ensures QuietPass(later, TargetFor(c, again, pods[m].name, port), envAgain)
  {
    var name := pods[m].name;
    var t := TargetFor(c, pods, name, port);
    var t2 := TargetFor(c, again, name, port);
    forall q | q in again ensures QuietPod(later, q, t2, envAgain) {
      var i :| 0 <= i < |again| && again[i] == q;
      var p := pods[i];
      assert p in pods && p.name == q.name;
      assert TurnDone(before, after, p, t, env);
      if q.name != name {
        assert PointsAt(later[q.name], t);
        StillPointsAt(c, pods, again, m, port, later[q.name]);
      }
    }
  }
}
