/** Where the master comes from (EnsureTopology): cache, forced choice, Sentinel, or probing the pods. */
module TopologySources {
  import opened Base
  import opened Network
  import opened Redis
  import opened Ordering
  import opened MasterCache
  import opened Topology

  lemma StringOrderWeak(names: seq<string>)
    ensures WeakOrderOn(names, Less)
  {
    forall x | x in names ensures !Less(x, x) { LessIrreflexive(x); }
    forall x, y | x in names && y in names && Less(x, y) ensures !Less(y, x) {
      if Less(y, x) { LessTransitive(x, y, x); LessIrreflexive(x); }
    }
    forall x, y, z | x in names && y in names && z in names && !Less(x, y) && !Less(y, z) ensures !Less(x, z) {
      NotLessTransitive(x, y, z);
    }
  }

  /** name is a member of names that precedes all others. */
  ghost predicate IsLeast(name: string, names: set<string>) {
    name in names && forall n :: n in names && n != name ==> Less(name, n)
  }

  ghost function MasterNames(nodes: map<string, ReplicationInfo>, pods: seq<Pod>): set<string> {
    set p | p in pods && p.name in nodes && IsMaster(nodes[p.name]) :: p.name
  }

  /** The first of the sorted names is the least of them. */
  lemma SortedHeadIsLeast(names: seq<string>, all: set<string>)
    requires names != [] && forall n :: n in names <==> n in all
    ensures IsLeast(SortBy(names, Less)[0], all)
  {
    StringOrderWeak(names);
    SortBySorted(names, Less);
    var sorted := SortBy(names, Less);
    SameElement(names, sorted, sorted[0]);
    forall n | n in all && n != sorted[0] ensures Less(sorted[0], n) {
      SameElement(names, sorted, n);
      var j :| 0 <= j < |sorted| && sorted[j] == n;
      LessConnected(sorted[0], n);
    }
  }

  /** Asks every pod for its role, in the given order. */
  method AskRoles(fleet: Fleet, order: PodList, roleOk: string -> bool)
    returns (masters: seq<string>, roles: map<string, Role>, ok: bool)
    requires forall i :: 0 <= i < |order| ==> order[i].name in fleet.nodes
    ensures ok <==> forall i :: 0 <= i < |order| ==> roleOk(order[i].name)
    ensures ok ==> forall n :: n in masters ==> n in MasterNames(fleet.nodes, order)
    ensures ok ==> forall i :: 0 <= i < |order| ==> RoleRecorded(fleet.nodes, order[i].name, masters, roles)
  {
    masters, roles, ok := [], map[], true;
    var k := 0;
    while k < |order|
      invariant 0 <= k <= |order|
      invariant forall i :: 0 <= i < k ==> roleOk(order[i].name)
      invariant forall n :: n in masters ==> n in MasterNames(fleet.nodes, order)
      invariant forall i :: 0 <= i < k ==> RoleRecorded(fleet.nodes, order[i].name, masters, roles)
    {
      var p := order[k];
      if !roleOk(p.name) {
        return [], map[], false;
      }
      if fleet.nodes[p.name].role == "master" {
        assert p in order;
        roles := roles[p.name := Master];
        masters := masters + [p.name];
      } else {
        roles := roles[p.name := Replica];
      }
      k := k + 1;
    }
  }

  predicate RoleRecorded(
    nodes: map<string, ReplicationInfo>, name: string, masters: seq<string>, roles: map<string, Role>)
  {
    name in nodes && name in roles &&
    roles[name] == (if IsMaster(nodes[name]) then Master else Replica) && (IsMaster(nodes[name]) ==> name in masters)
  }

  /** The least-named pod that reports master, or the least-named pod when none does. */
  ghost predicate ProbeNames(nodes: map<string, ReplicationInfo>, pods: seq<Pod>, master: string) {
    IsLeast(master, if MasterNames(nodes, pods) != {} then MasterNames(nodes, pods) else Names(pods))
  }

  /** Every pod's role is the one its node reports. */
  ghost predicate RolesTold(nodes: map<string, ReplicationInfo>, pods: seq<Pod>, roles: map<string, Role>) {
    forall p :: p in pods ==>
      p.name in roles && roles[p.name] == (if p.name in MasterNames(nodes, pods) then Master else Replica)
  }

  lemma ProbePicks(nodes: map<string, ReplicationInfo>, pods: PodList, masters: seq<string>)
    requires pods != [] && forall n :: n in masters <==> n in MasterNames(nodes, pods)
    ensures ProbeNames(
      nodes, pods, if masters == [] then SortedPodsByName(pods)[0].name else SortBy(masters, Less)[0])
  {
    if masters == [] {
      FirstIsLeast(pods);
    } else {
      assert masters[0] in MasterNames(nodes, pods);
      SortedHeadIsLeast(masters, MasterNames(nodes, pods));
    }
  }

  /** What was asked in name order holds of the list. */
  lemma AskedInAnyOrder(nodes: map<string, ReplicationInfo>, pods: PodList, order: PodList, roleOk: string -> bool,
                        roles: map<string, Role>)
    requires forall p :: p in pods <==> p in order
    ensures (forall i :: 0 <= i < |order| ==> roleOk(order[i].name)) <==> forall p :: p in pods ==> roleOk(p.name)
    ensures MasterNames(nodes, pods) == MasterNames(nodes, order)
    ensures RolesTold(nodes, order, roles) ==> RolesTold(nodes, pods, roles)
  {
    forall p | p in pods ensures exists i :: 0 <= i < |order| && order[i] == p { assert p in order; }
  }

  /** DetectRoles. */
  method DetectRoles(fleet: Fleet, pods: PodList, roleOk: string -> bool)
    returns (master: string, roles: map<string, Role>, ok: bool)
    requires Names(pods) <= fleet.nodes.Keys
    ensures ok <==> forall p :: p in pods ==> roleOk(p.name)
    ensures ok && pods == [] ==> master == ""
    ensures ok && pods != [] ==> ProbeNames(fleet.nodes, pods, master)
    ensures ok ==> RolesTold(fleet.nodes, pods, roles)
  {
    if pods == [] {
      return "", map[], true;
    }
    var order := SortedPodsByName(pods);
    SortedDistinct(pods);
    assert forall i :: 0 <= i < |order| ==> order[i] in pods && order[i].name in Names(pods);
    var masters;
    masters, roles, ok := AskRoles(fleet, order, roleOk);
    AskedInAnyOrder(fleet.nodes, pods, order, roleOk, roles);
    if !ok {
      return "", map[], false;
    }
    RecordedInList(fleet.nodes, order, masters, roles);
    ProbePicks(fleet.nodes, pods, masters);
    master := if masters == [] then order[0].name else SortBy(masters, Less)[0];
  }

  lemma RecordedInList(
    nodes: map<string, ReplicationInfo>, order: PodList, masters: seq<string>, roles: map<string, Role>)
    requires forall n :: n in masters ==> n in MasterNames(nodes, order)
    requires forall i :: 0 <= i < |order| ==> RoleRecorded(nodes, order[i].name, masters, roles)
    ensures forall n :: n in masters <==> n in MasterNames(nodes, order)
    ensures RolesTold(nodes, order, roles)
  {
    forall p | p in order
      ensures RoleRecorded(nodes, p.name, masters, roles)
      ensures p.name in MasterNames(nodes, order) <==> IsMaster(nodes[p.name])
    {
      var i :| 0 <= i < |order| && order[i] == p;
    }
  }

  /** A sentinel's answer to SENTINEL get-master-addr-by-name. */
  datatype SentinelReply = Unreachable | Address(host: string, port: nat)

  /** The pod a sentinel's host stands for: by first DNS label, else by IP; empty when none. */
  function PodForHost(pods: seq<Pod>, host: string): string {
    var name := MatchPodByHost(pods, host);
    if host == "" then "" else if name != "" then name else NameWithIP(pods, host)
  }

  function NameWithIP(pods: seq<Pod>, ip: string): (name: string)
    ensures name != "" ==> exists p :: p in pods && p.name == name && p.ip == ip
  {
    if pods == [] then "" else if pods[0].ip == ip then pods[0].name else NameWithIP(pods[1..], ip)
  }

  function Resolve(pods: seq<Pod>, reply: SentinelReply): string {
    if reply.Address? then PodForHost(pods, reply.host) else ""
  }

  /** Position i holds the first answer that stands for a listed pod. */
  predicate FirstAnswer(
    pods: seq<Pod>, order: seq<Pod>, replies: string -> SentinelReply, i: int, master: string, detail: SentinelReply)
  {
    && 0 <= i < |order|
    && detail == replies(order[i].name)
    && master == Resolve(pods, detail)
    && forall k :: 0 <= k < i ==> Resolve(pods, replies(order[k].name)) == ""
  }

  /** resolveMasterViaSentinel: the first sentinel, by name, whose answer stands for a listed pod. */
  method ResolveMasterViaSentinel(pods: PodList, sentinels: PodList, replies: string -> SentinelReply)
    returns (master: string, detail: SentinelReply)
    ensures master != "" ==> HasPod(pods, master)
    ensures master == "" <==> forall s :: s in sentinels ==> Resolve(pods, replies(s.name)) == ""
    ensures master != "" ==> exists i :: FirstAnswer(pods, SortedPodsByName(sentinels), replies, i, master, detail)
  {
    var order := SortedPodsByName(sentinels);
    SortedDistinct(sentinels);
    master, detail := "", Unreachable;
    var i := 0;
    while i < |order|
      invariant 0 <= i <= |order|
      invariant forall k :: 0 <= k < i ==> Resolve(pods, replies(order[k].name)) == ""
    {
      var name := Resolve(pods, replies(order[i].name));
      if name != "" {
        assert order[i] in sentinels;
        ResolveFindsPod(pods, replies(order[i].name));
        assert FirstAnswer(pods, order, replies, i, name, replies(order[i].name));
        return name, replies(order[i].name);
      }
      i := i + 1;
    }
  }

  lemma ResolveFindsPod(pods: seq<Pod>, reply: SentinelReply)
    ensures Resolve(pods, reply) != "" ==> HasPod(pods, Resolve(pods, reply))
  {
    if reply.Address? && MatchPodByHost(pods, reply.host) == "" && NameWithIP(pods, reply.host) != "" {
      var p :| p in pods && p.name == NameWithIP(pods, reply.host) && p.ip == reply.host;
      var i :| 0 <= i < |pods| && pods[i] == p;
    }
  }

  /** Everything EnsureTopology asks the outside world, per stage. */
  datatype Request = Request(
    cluster: Cluster, mode: Mode, pods: PodList, sentinels: PodList, sentinelSelector: map<string, string>,
    factory: bool, sentinelFactory: bool, tlsOk: bool, force: string, forceReason: string, port: int)

  datatype World = World(
    cachePass: Env, mainPass: Env, roleOk: string -> bool, replies: string -> SentinelReply, sentinelError: string,
    lookupAt: int, rememberAt: int)

  predicate SentinelReady(req: Request) {
    exists i :: 0 <= i < |req.sentinels| && req.sentinels[i].ready && req.sentinels[i].selector == req.sentinelSelector
  }

  predicate ArgumentsOk(req: Request) {
    req.factory && req.pods != [] && req.tlsOk
  }

  const FAILED := EnsureResult(false, "", map[], map[], [], [], NoSource, "")

  /** The nodes as a finished pass leaves them: everyone follows the target, and the target is master if
      its INFO answered. */
  ghost predicate Converged(nodes: map<string, ReplicationInfo>, t: Target, env: Env) {
    forall p :: p in t.pods ==>
      p.name in nodes &&
      if p.name == t.name then env(p.name).infoOk ==> IsMaster(nodes[p.name]) else PointsAt(nodes[p.name], t)
  }

  /** A result that tells the truth about the nodes. */
  ghost predicate Truthful(nodes: map<string, ReplicationInfo>, req: Request, res: EnsureResult, env: Env) {
    var t := TargetFor(req.cluster, req.pods, res.master, req.port);
    Covers(res, req.pods, t) && Converged(nodes, t, env)
  }

  predicate CacheHit(table: Table, key: Cluster, now: int) {
    key in table && now <= table[key].expires
  }

  /** One alignment pass labelled with its source. */
  method PassFrom(fleet: Fleet, req: Request, master: string, env: Env, source: Source, reason: string)
    returns (res: EnsureResult, err: bool)
    requires Names(req.pods) <= fleet.nodes.Keys && req.pods != []
    modifies fleet
    ensures fleet.nodes.Keys == old(fleet.nodes.Keys)
    ensures res.master == ChosenName(req.pods, master)
    ensures res.source == source && res.reason == reason
    ensures err <==> PassFails(old(fleet.nodes), TargetFor(req.cluster, req.pods, res.master, req.port), env)
    ensures !err ==> Truthful(fleet.nodes, req, res, env)
  {
    res, err := EnsureWithMaster(fleet, req.cluster, req.pods, master, req.port, env);
    res := res.(source := source, reason := reason);
    ghost var t := TargetFor(req.cluster, req.pods, res.master, req.port);
    if !err {
      forall p | p in t.pods ensures p.name in fleet.nodes {
        assert TurnDone(old(fleet.nodes), fleet.nodes, p, t, env);
      }
    }
  }

  /** The cached master is a listed pod and a pass to it succeeds. */
  ghost predicate CachedPassWorks(nodes: map<string, ReplicationInfo>, req: Request, master: string, env: Env) {
    && master != "" && HasPod(req.pods, master)
    && !PassFails(nodes, TargetFor(req.cluster, req.pods, master, req.port), env)
  }

  /** Sentinel is asked, and some answer stands for a listed pod. */
  predicate SentinelDecides(req: Request, w: World) {
    && req.mode == SentinelMode && req.sentinelFactory && SentinelReady(req)
    && exists s :: s in req.sentinels && Resolve(req.pods, w.replies(s.name)) != ""
  }

  /** Who names the master behind the cache. */
  function FreshSource(req: Request, w: World): Source {
    if req.force != "" then ForcedSource else if SentinelDecides(req, w) then SentinelSource else ProbeSource
  }

  /** The first answer, in the order of the sentinels' names, that stands for a listed pod. */
  ghost predicate SentinelNames(req: Request, w: World, master: string) {
    && master != ""
    && exists i, reply :: FirstAnswer(req.pods, SortedPodsByName(req.sentinels), w.replies, i, master, reply)
  }

  ghost predicate IsFreshMaster(nodes: map<string, ReplicationInfo>, req: Request, w: World, master: string) {
    match FreshSource(req, w)
    case ForcedSource => master == req.force
    case SentinelSource => SentinelNames(req, w, master)
    case _ => ProbeNames(nodes, req.pods, master)
  }

  lemma LeastUnique(a: string, b: string, names: set<string>)
    requires IsLeast(a, names) && IsLeast(b, names)
    ensures a == b
  {
    if a != b {
      LessTransitive(a, b, a);
      LessIrreflexive(a);
    }
  }

  lemma FreshMasterUnique(nodes: map<string, ReplicationInfo>, req: Request, w: World, a: string, b: string)
    requires IsFreshMaster(nodes, req, w, a) && IsFreshMaster(nodes, req, w, b)
    ensures a == b
  {
    if FreshSource(req, w) == ProbeSource {
      LeastUnique(a, b, if MasterNames(nodes, req.pods) != {} then MasterNames(nodes, req.pods) else Names(req.pods));
    }
  }

  /** The probe is needed and cannot ask every pod. */
  predicate ProbeBlocked(req: Request, w: World) {
    FreshSource(req, w) == ProbeSource && exists p :: p in req.pods && !w.roleOk(p.name)
  }

  /** Behind the cache: the probe is blocked, or the pass to the master named fails. */
  ghost predicate FreshFails(nodes: map<string, ReplicationInfo>, req: Request, w: World) {
    || ProbeBlocked(req, w)
    || exists master :: IsFreshMaster(nodes, req, w, master) &&
         PassFails(nodes, TargetFor(req.cluster, req.pods, master, req.port), w.mainPass)
  }

  /** The outcome behind the cache, as the nodes and the request determine it. */
  ghost predicate FreshOutcome(
    nodes: map<string, ReplicationInfo>, req: Request, w: World, source: Source, master: string, err: bool)
  {
    && source == FreshSource(req, w)
    && (err <==> FreshFails(nodes, req, w))
    && (!ProbeBlocked(req, w) ==> IsFreshMaster(nodes, req, w, master))
  }

  /** A pass to the master named settles the outcome. */
  lemma OutcomeOfPass(nodes: map<string, ReplicationInfo>, req: Request, w: World, master: string, err: bool)
    requires !ProbeBlocked(req, w) && IsFreshMaster(nodes, req, w, master)
    requires err <==> PassFails(nodes, TargetFor(req.cluster, req.pods, master, req.port), w.mainPass)
    ensures FreshOutcome(nodes, req, w, FreshSource(req, w), master, err)
  {
    if FreshFails(nodes, req, w) {
      var m :| IsFreshMaster(nodes, req, w, m) &&
        PassFails(nodes, TargetFor(req.cluster, req.pods, m, req.port), w.mainPass);
      FreshMasterUnique(nodes, req, w, master, m);
    }
  }

  /** The name a probe gives is not replaced by the default choice. */
  lemma ProbedIsChosen(nodes: map<string, ReplicationInfo>, pods: PodList, name: string)
    requires pods != [] && ProbeNames(nodes, pods, name)
    ensures ChosenName(pods, name) == name
  {
    assert name in Names(pods);
    if name == "" {
      FirstIsLeast(pods);
    }
  }

  /** The cache stage: a usable hit ends the call, anything else leaves no entry for the cluster. */
  method CacheStage(fleet: Fleet, cache: MasterAddressCache, req: Request, w: World)
    returns (res: EnsureResult, done: bool)
    requires cache.Valid() && Names(req.pods) <= fleet.nodes.Keys && req.pods != []
    modifies fleet, cache
    ensures cache.Valid() && fleet.nodes.Keys == old(fleet.nodes.Keys)
    ensures done ==> CacheHit(old(cache.entries), req.cluster, w.lookupAt) && res.source == CacheSource
    ensures done ==> res.master == old(cache.entries)[req.cluster].master && HasPod(req.pods, res.master)
    ensures done ==> Truthful(fleet.nodes, req, res, w.cachePass)
    ensures !done ==> req.cluster !in cache.entries
    ensures done <==>
              (CacheHit(old(cache.entries), req.cluster, w.lookupAt) &&
               CachedPassWorks(old(fleet.nodes), req, old(cache.entries)[req.cluster].master, w.cachePass))
    ensures !CacheHit(old(cache.entries), req.cluster, w.lookupAt) ==>
              !done && fleet.nodes == old(fleet.nodes) && fleet.log == old(fleet.log)
  {
    res, done := FAILED, false;
    var candidate, detail, hit := cache.Lookup(req.cluster, w.lookupAt);
    if !hit {
      return;
    }
    if candidate != "" && HasPod(req.pods, candidate) {
      var err;
      res, err := PassFrom(fleet, req, candidate, w.cachePass, CacheSource, detail);
      if !err {
        return res, true;
      }
    }
    cache.Invalidate(req.cluster);
  }

  predicate Holds(table: Table, key: Cluster, master: string) {
    master != "" ==> key in table && table[key].master == master
  }

  /** Stores a master, if there is a cache. */
  method RememberIn(cache: MasterAddressCache?, key: Cluster, master: string, reason: string, now: int)
    requires cache != null ==> cache.Valid()
    modifies cache
    ensures cache != null ==> cache.Valid() && Holds(cache.entries, key, master)
  {
    if cache != null {
      cache.Remember(key, master, reason, now);
    }
  }

  /** A pass whose master is remembered if it succeeds. */
  method PassAndRemember(
    fleet: Fleet, cache: MasterAddressCache?, req: Request, w: World, master: string, source: Source, reason: string)
    returns (res: EnsureResult, err: bool)
    requires cache != null ==> cache.Valid()
    requires Names(req.pods) <= fleet.nodes.Keys && req.pods != []
    modifies fleet, cache
    ensures cache != null ==> cache.Valid()
    ensures fleet.nodes.Keys == old(fleet.nodes.Keys)
    ensures cache != null ==> if err then cache.entries == old(cache.entries)
                              else Holds(cache.entries, req.cluster, res.master)
    ensures err <==> PassFails(old(fleet.nodes), TargetFor(req.cluster, req.pods, res.master, req.port), w.mainPass)
    ensures !err ==> Truthful(fleet.nodes, req, res, w.mainPass)
    ensures res.master == ChosenName(req.pods, master) && res.source == source && res.reason == reason
  {
    res, err := PassFrom(fleet, req, master, w.mainPass, source, reason);
    if !err {
      RememberIn(cache, req.cluster, res.master, res.reason, w.rememberAt);
    }
  }

  /** The Sentinel stage: it decides, or says why it did not. */
  method AskSentinel(req: Request, w: World) returns (master: string, detail: string, failure: string)
    ensures master != "" <==> SentinelDecides(req, w)
    ensures master != "" ==> SentinelNames(req, w, master) && HasPod(req.pods, master)
  {
    master, detail, failure := "", "", "";
    if req.mode == SentinelMode && req.sentinelFactory && req.sentinels != [] {
      if !SentinelReady(req) {
        failure := "no ready sentinel pods";
      } else {
        var reply;
        master, reply := ResolveMasterViaSentinel(req.pods, req.sentinels, w.replies);
        detail := if reply.Address? then reply.host + ":" + Decimal(reply.port) else "";
        failure := w.sentinelError;
      }
    }
  }

  /** ensureByProbe. */
  method EnsureByProbe(fleet: Fleet, cache: MasterAddressCache?, req: Request, w: World, failure: string)
    returns (res: EnsureResult, err: bool)
    requires cache != null ==> cache.Valid()
    requires Names(req.pods) <= fleet.nodes.Keys && req.pods != [] && FreshSource(req, w) == ProbeSource
    modifies fleet, cache
    ensures cache != null ==> cache.Valid()
    ensures fleet.nodes.Keys == old(fleet.nodes.Keys)
    ensures cache != null ==> if err then cache.entries == old(cache.entries)
                              else Holds(cache.entries, req.cluster, res.master)
    ensures FreshOutcome(old(fleet.nodes), req, w, res.source, res.master, err)
    ensures !err ==> Truthful(fleet.nodes, req, res, w.mainPass)
    ensures res.reason == failure
  {
    var master, _, ok := DetectRoles(fleet, req.pods, w.roleOk);
    if !ok {
      return FAILED.(source := ProbeSource, reason := failure), true;
    }
    ProbedIsChosen(fleet.nodes, req.pods, master);
    res, err := PassAndRemember(fleet, cache, req, w, master, ProbeSource, "");
    OutcomeOfPass(old(fleet.nodes), req, w, master, err);
    res := res.(reason := failure);
  }

  /** The stages behind the cache. Nothing is remembered unless the pass succeeded. */
  method FreshStage(fleet: Fleet, cache: MasterAddressCache?, req: Request, w: World)
    returns (res: EnsureResult, err: bool)
    requires cache != null ==> cache.Valid()
    requires Names(req.pods) <= fleet.nodes.Keys && req.pods != []
    modifies fleet, cache
    ensures cache != null ==> cache.Valid()
    ensures fleet.nodes.Keys == old(fleet.nodes.Keys)
    ensures cache != null ==> if err then cache.entries == old(cache.entries)
                              else Holds(cache.entries, req.cluster, res.master)
    ensures FreshOutcome(old(fleet.nodes), req, w, res.source, res.master, err)
    ensures !err ==> Truthful(fleet.nodes, req, res, w.mainPass)
    ensures req.force != "" ==> res.reason == req.forceReason
    ensures res.source == SentinelSource ==> HasPod(req.pods, res.master)
  {
    if req.force != "" {
      res, err := PassAndRemember(fleet, cache, req, w, req.force, ForcedSource, req.forceReason);
      OutcomeOfPass(old(fleet.nodes), req, w, res.master, err);
      return;
    }
    var master, detail, failure := AskSentinel(req, w);
    if master != "" {
      res, err := PassAndRemember(fleet, cache, req, w, master, SentinelSource, detail);
      OutcomeOfPass(old(fleet.nodes), req, w, res.master, err);
      return;
    }
    res, err := EnsureByProbe(fleet, cache, req, w, failure);
  }

  /** The cache settles the call: a live entry for a listed pod, and a pass to it that works. */
  ghost predicate CacheSettles(table: Table, nodes: map<string, ReplicationInfo>, req: Request, w: World) {
    CacheHit(table, req.cluster, w.lookupAt) && CachedPassWorks(nodes, req, table[req.cluster].master, w.cachePass)
  }

  /** EnsureTopology. `start` is the nodes as the stages behind the cache find them: a failed pass to a cached master
      may have changed them. Any error past the argument and TLS checks leaves no cache entry for the cluster. */
  method EnsureTopology(fleet: Fleet, cache: MasterAddressCache?, req: Request, w: World)
    returns (res: EnsureResult, err: bool, ghost start: map<string, ReplicationInfo>)
    requires cache != null ==> cache.Valid()
    requires Names(req.pods) <= fleet.nodes.Keys
    modifies fleet, cache
    ensures cache != null ==> cache.Valid()
    ensures fleet.nodes.Keys == old(fleet.nodes.Keys)
    ensures !ArgumentsOk(req) ==> err && fleet.log == old(fleet.log) && fleet.nodes == old(fleet.nodes)
    ensures !ArgumentsOk(req) && cache != null ==> cache.entries == old(cache.entries)
    ensures ArgumentsOk(req) && err && cache != null ==> req.cluster !in cache.entries
    ensures cache == null || !CacheHit(old(cache.entries), req.cluster, w.lookupAt) ==> start == old(fleet.nodes)
    ensures ArgumentsOk(req) && cache != null && CacheSettles(old(cache.entries), old(fleet.nodes), req, w) ==>
              !err && res.source == CacheSource && res.master == old(cache.entries)[req.cluster].master
    ensures ArgumentsOk(req) && (cache == null || !CacheSettles(old(cache.entries), old(fleet.nodes), req, w)) ==>
              FreshOutcome(start, req, w, res.source, res.master, err)
    ensures !err ==> Truthful(fleet.nodes, req, res, if res.source == CacheSource then w.cachePass else w.mainPass)
    ensures !err && cache != null && res.source != CacheSource ==> Holds(cache.entries, req.cluster, res.master)
  {
    start := fleet.nodes;
    if !ArgumentsOk(req) {
      return FAILED, true, start;
    }
    if cache != null {
      var done;
      res, done := CacheStage(fleet, cache, req, w);
      if done {
        return res, false, start;
      }
    }
    start := fleet.nodes;
    res, err := FreshStage(fleet, cache, req, w);
  }
}
