/** Role-label patching with an optimistic lock (reconcile/phases/labels.go, replication/labels.go). */
module RoleLabels {
  import opened Base
  import opened Topology

  const MAX_ATTEMPTS := 3

  /** A pod as the API server holds it. */
  datatype ServerPod = ServerPod(role: Role, version: nat)

  type Server = map<string, ServerPod>

  /** What others do to the server between two calls: touch a pod, which changes its version, or remove it.
      Nobody else writes role labels. */
  datatype Foreign = Touch(name: string) | Remove(name: string)

  /** How the transport treats a call: it gets through, or fails before or after taking effect. */
  datatype Transport = Through | LostBefore | LostAfter

  /** One attempt's surroundings. */
  datatype Attempt = Attempt(beforePatch: seq<Foreign>, patch: Transport, beforeGet: seq<Foreign>, getOk: bool)

  /** An attempt nobody interferes with. */
  predicate Undisturbed(a: Attempt) {
    a.beforePatch == [] && a.patch == Through && a.beforeGet == [] && a.getOk
  }

  /** Nobody interferes with any attempt of a turn, or of the phase. */
  ghost predicate PeacefulTurn(env: nat -> Attempt) {
    forall k :: Undisturbed(env(k))
  }

  ghost predicate Peaceful(env: (nat, nat) -> Attempt) {
    forall i, k :: Undisturbed(env(i, k))
  }

  function TurnOf(env: (nat, nat) -> Attempt, i: nat): nat -> Attempt {
    (k: nat) => env(i, k)
  }

  lemma PeacefulTurns(env: (nat, nat) -> Attempt, i: nat)
    requires Peaceful(env)
    ensures PeacefulTurn(TurnOf(env, i))
  {
    forall k ensures Undisturbed(TurnOf(env, i)(k)) {
      assert Undisturbed(env(i, k));
    }
  }

  /** How one pod's turn ends: nothing left to do, every attempt met a conflict, the pod is gone, or an error. */
  datatype Verdict = Settled | Exhausted | Vanished | Errored

  function ConflictBackoff(attempt: nat): nat {
    if attempt <= 1 then 2 else if attempt == 2 then 4 else 8
  }

  function Disturb(server: Server, actions: seq<Foreign>): Server {
    if actions == [] then server
    else
      var s := Disturb(server, actions[..|actions| - 1]);
      var a := actions[|actions| - 1];
      if a.name !in s then s
      else match a
        case Touch(name) => s[name := s[name].(version := s[name].version + 1)]
        case Remove(name) => s - {name}
  }

  /** The pods the server shows as master. */
  function Masters(server: Server): set<string> {
    set n | n in server && server[n].role == Master
  }

  /** Foreign actions leave every label alone, add no pod, and only raise versions. */
  predicate SameLabels(before: Server, after: Server) {
    && after.Keys <= before.Keys
    && forall n :: n in after ==> after[n].role == before[n].role && after[n].version >= before[n].version
  }

  lemma {:induction false} DisturbKeepsLabels(server: Server, actions: seq<Foreign>)
    ensures SameLabels(server, Disturb(server, actions))
  {
    if actions != [] {
      DisturbKeepsLabels(server, actions[..|actions| - 1]);
    }
  }

  /** From one server state to the other only pods left, and at most the label of `name` changed, to `role`. */
  predicate Moved(before: Server, after: Server, name: string, role: Role) {
    && after.Keys <= before.Keys
    && forall n :: n in after ==> after[n].role == before[n].role || (n == name && after[n].role == role)
  }

  predicate SameNamesAt(pods: seq<Pod>, others: seq<Pod>) {
    |pods| == |others| && forall i :: 0 <= i < |pods| ==> pods[i].name == others[i].name
  }

  /** Every snapshot from `k` on shows no master outside `allowed`. */
  predicate MastersWithin(snapshots: seq<Server>, k: nat, allowed: set<string>) {
    forall i :: k <= i < |snapshots| ==> Masters(snapshots[i]) <= allowed
  }

  /** Only pods left, and every label that changed became the one `master` calls for. */
  predicate Steered(before: Server, after: Server, master: string) {
    && after.Keys <= before.Keys
    && forall n :: n in after ==> after[n].role == before[n].role || after[n].role == RoleIn(n, master)
  }

  /** A pod's turn left it with the label `master` calls for, unless it is gone or its attempts ran out. */
  predicate Handled(server: Server, exhausted: set<string>, name: string, master: string) {
    name in server && name !in exhausted ==> server[name].role == RoleIn(name, master)
  }

  /** One pod's turn keeps what the turns before it achieved. */
  lemma TurnSteers(start: Server, before: Server, after: Server, name: string, master: string, gain: set<string>)
    requires Steered(start, before, master) && Masters(before) <= Masters(start) + gain
    requires Moved(before, after, name, RoleIn(name, master)) && (name == master ==> name in gain)
    ensures Steered(start, after, master) && Masters(after) <= Masters(start) + gain
  {
    forall n | n in Masters(after) ensures n in Masters(start) + gain {
      if n != name { assert n in Masters(before); }
    }
  }

  /** The server, and every snapshot from `k` on, show no master but the old ones and those of `gain`. */
  predicate Contained(
    start: Server, server: Server, snapshots: seq<Server>, k: nat, master: string, gain: set<string>)
  {
    && Steered(start, server, master) && Masters(server) <= Masters(start) + gain
    && MastersWithin(snapshots, k, Masters(start) + gain)
  }

  lemma StaysHandled(before: Server, after: Server, name: string, master: string, other: string,
                     tired: set<string>, exhausted: set<string>)
    requires Moved(before, after, name, RoleIn(name, master)) && tired <= exhausted
    requires Handled(before, tired, other, master)
    ensures Handled(after, exhausted, other, master)
  {
  }

  /** The copies still waiting for their turn, and those outside the list, are as they were. */
  predicate Untouched(pods: seq<Pod>, before: seq<Pod>, idxs: seq<nat>, k: nat) {
    && |pods| == |before|
    && (forall i :: 0 <= i < |pods| && i !in idxs ==> pods[i] == before[i])
    && (forall j :: k <= j < |idxs| && idxs[j] < |pods| ==> pods[idxs[j]] == before[idxs[j]])
  }

  /** At most the copy at i changed. */
  predicate OnlyCopy(pods: seq<Pod>, next: seq<Pod>, i: nat) {
    |next| == |pods| && forall k :: 0 <= k < |next| && k != i ==> next[k] == pods[k]
  }

  lemma UntouchedStep(pods: seq<Pod>, next: seq<Pod>, before: seq<Pod>, idxs: seq<nat>, k: nat)
    requires Ascending(idxs) && k < |idxs| && Untouched(pods, before, idxs, k) && OnlyCopy(pods, next, idxs[k])
    ensures Untouched(next, before, idxs, k + 1)
  {
    assert idxs[k] in idxs;
  }

  /** The first k turns of the list have been taken. */
  predicate TurnsTaken(
    idxs: seq<nat>, k: nat, wanted: seq<Pod>, server: Server, exhausted: set<string>, master: string)
  {
    forall j :: 0 <= j < k <= |idxs| ==> idxs[j] < |wanted| && Handled(server, exhausted, wanted[idxs[j]].name, master)
  }

  /** Whoever was handled still is. */
  ghost predicate HandledStays(
    before: Server, tired: set<string>, after: Server, exhausted: set<string>, master: string)
  {
    forall n :: Handled(before, tired, n, master) ==> Handled(after, exhausted, n, master)
  }

  /** How far the turns of a list have got. */
  predicate Progress(idxs: seq<nat>, k: nat, wanted: seq<Pod>, before: seq<Pod>, pods: seq<Pod>, server: Server,
                     exhausted: set<string>, master: string) {
    && SameNamesAt(wanted, pods) && Untouched(pods, before, idxs, k)
    && TurnsTaken(idxs, k, wanted, server, exhausted, master)
  }

  /** One more turn. */
  lemma ProgressStep(
      idxs: seq<nat>, k: nat, wanted: seq<Pod>, before: seq<Pod>, pods: seq<Pod>, server: Server, tired: set<string>,
      next: seq<Pod>, after: Server, exhausted: set<string>, master: string)
    requires Ascending(idxs) && k < |idxs| && idxs[k] < |wanted|
    requires Progress(idxs, k, wanted, before, pods, server, tired, master)
    requires SameNamesAt(next, pods) && OnlyCopy(pods, next, idxs[k])
    requires HandledStays(server, tired, after, exhausted, master)
    requires Handled(after, exhausted, wanted[idxs[k]].name, master)
    ensures Progress(idxs, k + 1, wanted, before, next, after, exhausted, master)
  {
    UntouchedStep(pods, next, before, idxs, k);
  }

  lemma UntouchedInTheEnd(pods: seq<Pod>, next: seq<Pod>, before: seq<Pod>, idxs: seq<nat>, k: nat)
    requires Ascending(idxs) && k < |idxs| && Untouched(pods, before, idxs, k) && OnlyCopy(pods, next, idxs[k])
    ensures Untouched(next, before, idxs, |idxs|)
  {
    UntouchedStep(pods, next, before, idxs, k);
  }

  /** Nobody interferes, and every pod is there. */
  ghost predicate Quiet(env: (nat, nat) -> Attempt, wanted: seq<Pod>, server: Server) {
    Peaceful(env) && AllOnServer(wanted, server)
  }

  /** Nobody ran out of attempts or went away. */
  predicate NoneLost(tired: set<string>, exhausted: set<string>, before: Server, after: Server) {
    exhausted == tired && before.Keys <= after.Keys
  }

  lemma QuietTurn(env: (nat, nat) -> Attempt, wanted: seq<Pod>, start: Server, server: Server, tired: set<string>,
                  exhausted: set<string>, i: nat)
    requires Quiet(env, wanted, start) && NoneLost(tired, exhausted, start, server) && i < |wanted|
    ensures PeacefulTurn(TurnOf(env, i)) && wanted[i].name in server
  {
    PeacefulTurns(env, i);
  }

  lemma AllTurnsTaken(idxs: seq<nat>, wanted: seq<Pod>, listed: seq<Pod>, due: Pod -> bool, server: Server,
                      exhausted: set<string>, master: string)
    requires SameNamesAt(wanted, listed)
    requires forall i :: 0 <= i < |listed| && due(listed[i]) ==> i in idxs
    requires TurnsTaken(idxs, |idxs|, wanted, server, exhausted, master)
    ensures HandledWhere(listed, due, server, exhausted, master)
  {
    forall i | 0 <= i < |listed| && due(listed[i]) ensures Handled(server, exhausted, listed[i].name, master) {
      var j :| 0 <= j < |idxs| && idxs[j] == i;
    }
  }

  /** Some copy shows the pod with the server's label. */
  predicate Seen(pods: seq<Pod>, server: Server, n: string)
    requires n in server
  {
    exists i :: 0 <= i < |pods| && pods[i].name == n && pods[i].role == server[n].role
  }

  /** The pods a list that is behind the server leaves out or shows with another label. */
  function Misseen(pods: seq<Pod>, server: Server): set<string> {
    set n | n in server && !Seen(pods, server, n)
  }

  /** A list that is up to date leaves none out. */
  lemma CurrentListSeesAll(pods: seq<Pod>, server: Server)
    requires forall n :: n in server ==> HasPod(pods, n)
    requires forall i :: 0 <= i < |pods| && pods[i].name in server ==> pods[i].role == server[pods[i].name].role
    ensures Misseen(pods, server) == {}
  {
    forall n | n in server ensures Seen(pods, server, n) {
      var i :| 0 <= i < |pods| && pods[i].name == n;
      assert pods[i].name in server;
    }
  }

  /** Every listed pod for which `due` holds has had its turn. */
  predicate HandledWhere(pods: seq<Pod>, due: Pod -> bool, server: Server, exhausted: set<string>, master: string) {
    forall i :: 0 <= i < |pods| && due(pods[i]) ==> Handled(server, exhausted, pods[i].name, master)
  }

  function ToDemote(master: string): Pod -> bool {
    (p: Pod) => p.role == Master && RoleIn(p.name, master) != Master
  }

  function ToRelabel(master: string): Pod -> bool {
    (p: Pod) => p.role != RoleIn(p.name, master) && !ToDemote(master)(p)
  }

  /** After the demotions nobody but the new master, the pods whose attempts ran out and the pods the list did not
      show rightly shows as master. */
  lemma DemotionsClear(pods: seq<Pod>, before: Server, after: Server, exhausted: set<string>, master: string)
    requires Steered(before, after, master)
    requires HandledWhere(pods, ToDemote(master), after, exhausted, master)
    ensures Masters(after) <= {master} + exhausted + Misseen(pods, before)
  {
    forall n | n in Masters(after) && n != master && n !in Misseen(pods, before) ensures n in exhausted {
      var i :| 0 <= i < |pods| && pods[i].name == n && pods[i].role == before[n].role;
      assert ToDemote(master)(pods[i]);
      assert Handled(after, exhausted, pods[i].name, master);
    }
  }

  /** After both lists every pod shown rightly whose attempts did not run out has its label. */
  lemma AllRelabelled(pods: seq<Pod>, before: Server, middle: Server, after: Server,
                      tired: set<string>, exhausted: set<string>, master: string)
    requires Steered(before, middle, master) && Steered(middle, after, master)
    requires HandledWhere(pods, ToDemote(master), middle, tired, master) && tired <= exhausted
    requires HandledWhere(pods, ToRelabel(master), after, exhausted, master)
    ensures forall n :: n in after && n !in exhausted && n !in Misseen(pods, before) ==>
              after[n].role == RoleIn(n, master)
  {
    forall n | n in after && n !in exhausted && n !in Misseen(pods, before) ensures after[n].role == RoleIn(n, master) {
      var i :| 0 <= i < |pods| && pods[i].name == n && pods[i].role == before[n].role;
      if ToDemote(master)(pods[i]) {
        assert Handled(middle, tired, pods[i].name, master);
      } else if ToRelabel(master)(pods[i]) {
        assert Handled(after, exhausted, pods[i].name, master);
      }
    }
  }

  lemma SubsetSize(a: set<string>, b: set<string>)
    requires a <= b
    ensures |a| <= |b|
  {
    assert b == a + (b - a);
  }

  /** Unless the demotion of an old master ran out of attempts, or the list did not show it as one, no snapshot shows
      more masters than the server had before, or one. */
  lemma NoExtraMaster(snapshots: seq<Server>, before: set<string>, master: string, missed: set<string>)
    requires Bracketed(snapshots, before, {master} + missed) && MastersWithin(snapshots, 0, before + {master})
    requires missed * before <= {master}
    ensures forall k :: 0 <= k < |snapshots| ==> |Masters(snapshots[k])| <= |before| || |Masters(snapshots[k])| <= 1
  {
    forall k | 0 <= k < |snapshots|
      ensures |Masters(snapshots[k])| <= |before| || |Masters(snapshots[k])| <= 1
    {
      if Masters(snapshots[k]) <= before {
        SubsetSize(Masters(snapshots[k]), before);
      } else {
        SubsetSize(Masters(snapshots[k]), {master});
      }
    }
  }

  /** No snapshot mixes: each shows only masters of the one set, or only masters of the other. */
  predicate Bracketed(snapshots: seq<Server>, before: set<string>, after: set<string>) {
    forall k :: 0 <= k < |snapshots| ==> Masters(snapshots[k]) <= before || Masters(snapshots[k]) <= after
  }

  /** Snapshots of the first list followed by snapshots of the second. */
  lemma JoinSnapshots(first: seq<Server>, all: seq<Server>, before: set<string>, middle: set<string>,
                      after: set<string>, master: string)
    requires first <= all && middle <= before && middle <= after
    requires MastersWithin(first, 0, before) && MastersWithin(all, |first|, middle + {master})
    requires master in after
    ensures Bracketed(all, before, after) && MastersWithin(all, 0, before + {master})
  {
    forall k | 0 <= k < |all|
      ensures Masters(all[k]) <= before + {master} && (Masters(all[k]) <= before || Masters(all[k]) <= after)
    {
      if k < |first| {
        assert all[k] == first[k];
      }
    }
  }

  predicate AllOnServer(pods: seq<Pod>, server: Server) {
    forall i :: 0 <= i < |pods| ==> pods[i].name in server
  }

  predicate Ascending(s: seq<nat>) {
    forall i, j :: 0 <= i < j < |s| ==> s[i] < s[j]
  }

  /** Indices to demote, and the other indices whose label differs. */
  method Classify(pods: seq<Pod>, wanted: seq<Pod>) returns (demote: seq<nat>, other: seq<nat>)
    requires |wanted| == |pods|
    ensures forall i :: i in demote <==> 0 <= i < |pods| && pods[i].role == Master && wanted[i].role != Master
    ensures forall i :: i in other <==>
              0 <= i < |pods| && pods[i].role != wanted[i].role && (pods[i].role != Master || wanted[i].role == Master)
    ensures Ascending(demote) && Ascending(other)
  {
    demote, other := [], [];
    for i := 0 to |pods|
      invariant Ascending(demote) && Ascending(other)
      invariant forall j :: j in demote <==> 0 <= j < i && pods[j].role == Master && wanted[j].role != Master
      invariant forall j :: j in other <==>
                  0 <= j < i && pods[j].role != wanted[j].role && (pods[j].role != Master || wanted[j].role == Master)
    {
      assert forall j :: 0 <= j < |demote| ==> demote[j] in demote;
      assert forall j :: 0 <= j < |other| ==> other[j] in other;
      if pods[i].role != wanted[i].role {
        if pods[i].role == Master && wanted[i].role != Master {
          demote := demote + [i];
        } else {
          other := other + [i];
        }
      }
    }
  }

  /** UpdatePodRoleLabels: the wanted label of every pod. */
  method UpdatePodRoleLabels(pods: PodList, master: string) returns (wanted: seq<Pod>)
    ensures |wanted| == |pods|
    ensures forall i :: 0 <= i < |pods| ==> wanted[i] == pods[i].(role := RoleIn(pods[i].name, master))
  {
    wanted := pods;
    var k := 0;
    while k < |wanted|
      invariant 0 <= k <= |wanted| == |pods|
      invariant forall i :: 0 <= i < k ==> wanted[i] == pods[i].(role := wanted[i].role)
      invariant forall i :: k <= i < |pods| ==> wanted[i] == pods[i]
    {
      if wanted[k].role == Master && wanted[k].name != master {
        wanted := wanted[k := wanted[k].(role := Replica)];
      }
      k := k + 1;
    }
    k := 0;
    while k < |wanted|
      invariant 0 <= k <= |wanted| == |pods|
      invariant forall i :: 0 <= i < |pods| ==> wanted[i] == pods[i].(role := wanted[i].role)
      invariant forall i :: 0 <= i < k ==> wanted[i].role == RoleIn(pods[i].name, master)
    {
      wanted := wanted[k := wanted[k].(role := RoleIn(wanted[k].name, master))];
      k := k + 1;
    }
  }

  /** The reconciler's copies and the server they are patched against. */
  class LabelPhase {
    var pods: seq<Pod>
    var server: Server
    var changes: nat
    /** The minimum requeue delays asked for. */
    var floors: seq<nat>
    /** The server as each patch of this phase left it. */
    var snapshots: seq<Server>
    /** Pods whose attempts ran out. */
    var exhausted: set<string>

    /** The copies may be behind the server: a copy of the current version shows the current label, an older one may
        show another. */
    ghost predicate Known()
      reads this
    {
      forall i :: 0 <= i < |pods| && pods[i].name in server ==>
        && pods[i].version <= server[pods[i].name].version
        && (pods[i].version == server[pods[i].name].version ==> pods[i].role == server[pods[i].name].role)
    }

    /** One copy shows the server's label. */
    ghost predicate Sees(i: nat)
      requires i < |pods|
      reads this
    {
      pods[i].name in server ==> pods[i].role == server[pods[i].name].role
    }

    ghost predicate Valid()
      reads this
    {
      && DistinctNames(pods)
      && (exhausted != {} ==> ConflictBackoff(MAX_ATTEMPTS) in floors)
    }

    constructor (pods: PodList, server: Server)
      ensures this.pods == pods && this.server == server
      ensures changes == 0 && floors == [] && snapshots == [] && exhausted == {}
    {
      this.pods, this.server, changes, floors, snapshots, exhausted := pods, server, 0, [], [], {};
    }

    /** Writes one copy. */
    method SetRole(i: nat, role: Role, version: nat)
      requires i < |pods| && Valid()
      modifies `pods
      ensures Valid() && SameNamesAt(pods, old(pods)) && pods[i].role == role && pods[i].version == version
      ensures forall k :: 0 <= k < |pods| && k != i ==> pods[k] == old(pods)[k]
    {
      pods := pods[i := pods[i].(role := role, version := version)];
    }

    /** The server takes the patch of one label. */
    method Land(i: nat, role: Role)
      requires i < |pods| && Valid() && pods[i].name in server
      modifies `server, `snapshots
      ensures Valid() && snapshots == old(snapshots) + [server]
      ensures server == old(server)[pods[i].name := ServerPod(role, old(server)[pods[i].name].version + 1)]
    {
      server := server[pods[i].name := ServerPod(role, server[pods[i].name].version + 1)];
      snapshots := snapshots + [server];
    }

    /** Others act on the server. */
    method Others(actions: seq<Foreign>)
      requires Valid() && Known()
      modifies `server
      ensures Valid() && Known() && SameLabels(old(server), server)
      ensures actions == [] ==> server == old(server)
    {
      DisturbKeepsLabels(server, actions);
      server := Disturb(server, actions);
    }

    /** One optimistic-lock patch of one label: it takes effect only if the copy's version is current.
        After a failure that is not a conflict the copy keeps the wanted label. */
    method Patch(i: nat, role: Role, a: Attempt) returns (conflict: bool, ok: bool)
      requires i < |pods| && Valid() && Known()
      modifies `pods, `server, `changes, `snapshots
      ensures Valid() && SameNamesAt(pods, old(pods))
      ensures conflict || ok ==> Known()
      ensures conflict ==> !ok && pods == old(pods) && snapshots == old(snapshots) && SameLabels(old(server), server)
      ensures ok ==> pods[i].role == role && pods[i].name in server && server[pods[i].name].role == role
      ensures forall k :: 0 <= k < |pods| && k != i ==> pods[k] == old(pods)[k]
      ensures Moved(old(server), server, pods[i].name, role)
      ensures snapshots == old(snapshots) || snapshots == old(snapshots) + [server]
      ensures ok ==> snapshots == old(snapshots) + [server]
      ensures changes == old(changes) + if ok then 1 else 0
      ensures Undisturbed(a) && pods[i].name in old(server) ==>
                old(server.Keys) <= server.Keys &&
                (ok <==> old(server)[pods[i].name].version == old(pods)[i].version) && conflict == !ok
    {
      Others(a.beforePatch);
      conflict, ok := false, false;
      if pods[i].name !in server || a.patch == LostBefore {
        SetRole(i, role, pods[i].version);
        return;
      }
      if server[pods[i].name].version != pods[i].version {
        conflict := true;
        return;
      }
      Land(i, role);
      if a.patch == LostAfter {
        SetRole(i, role, pods[i].version);
        return;
      }
      ok := true;
      changes := changes + 1;
      SetRole(i, role, server[pods[i].name].version);
    }

    /** Rereads one pod after a conflict. */
    method Refresh(i: nat, a: Attempt) returns (found: bool, ok: bool)
      requires i < |pods| && Valid() && Known()
      modifies `pods, `server
      ensures Valid() && Known() && SameNamesAt(pods, old(pods))
      ensures SameLabels(old(server), server)
      ensures forall k :: 0 <= k < |pods| && k != i ==> pods[k] == old(pods)[k]
      ensures ok && !found ==> pods[i].name !in server
      ensures ok ==> Sees(i)
      ensures Undisturbed(a) && pods[i].name in old(server) ==>
                ok && found && server == old(server) && pods[i].version == server[pods[i].name].version
    {
      var name := pods[i].name;
      Others(a.beforeGet);
      found, ok := false, a.getOk;
      if ok && name in server {
        found := true;
        SetRole(i, server[name].role, server[name].version);
      }
    }

    /** One attempt at a label that is not right yet; `again` asks for another one on a reread copy. */
    method AttemptOnce(i: nat, role: Role, attempt: nat, a: Attempt) returns (v: Verdict, again: bool)
      requires i < |pods| && 1 <= attempt <= MAX_ATTEMPTS && Valid() && Known()
      modifies this
      ensures Valid() && SameNamesAt(pods, old(pods)) && OnlyCopy(old(pods), pods, i)
      ensures again || v != Errored ==> Known()
      ensures again ==> attempt < MAX_ATTEMPTS && Sees(i) && SameLabels(old(server), server)
      ensures again || v != Settled ==> changes == old(changes)
      ensures again || v == Vanished || v == Exhausted ==> snapshots == old(snapshots)
      ensures Moved(old(server), server, pods[i].name, role)
      ensures !again && v == Settled ==>
                pods[i].name in server && server[pods[i].name].role == role &&
                changes == old(changes) + 1 && snapshots == old(snapshots) + [server]
      ensures !again && v == Vanished ==> pods[i].name !in server
      ensures exhausted == old(exhausted) + if !again && v == Exhausted then {pods[i].name} else {}
      ensures snapshots == old(snapshots) || snapshots == old(snapshots) + [server]
      ensures Undisturbed(a) && pods[i].name in old(server) && attempt < MAX_ATTEMPTS ==>
                old(server.Keys) <= server.Keys &&
                if again then pods[i].version == server[pods[i].name].version else v == Settled
      ensures Undisturbed(a) && pods[i].name in old(server) &&
              old(pods)[i].version == old(server)[pods[i].name].version ==>
                !again
    {
      again := false;
      var conflict, ok := Patch(i, role, a);
      if !ok && !conflict {
        return Errored, false;
      }
      if ok {
        return Settled, false;
      }
      floors := floors + [ConflictBackoff(attempt)];
      if attempt == MAX_ATTEMPTS {
        exhausted := exhausted + {pods[i].name};
        return Exhausted, false;
      }
      var found, read := Refresh(i, a);
      v, again := if !read then Errored else Vanished, read && found;
    }

    /** applyAt: up to three attempts at one label. */
    method ApplyAt(i: nat, role: Role, env: nat -> Attempt) returns (v: Verdict)
      requires i < |pods| && Valid() && Known()
      modifies this
      ensures Valid() && SameNamesAt(pods, old(pods))
      ensures v != Errored ==> Known()
      ensures Moved(old(server), server, pods[i].name, role)
      ensures forall k :: 0 <= k < |pods| && k != i ==> pods[k] == old(pods)[k]
      ensures v == Settled && old(pods)[i].role != role ==> pods[i].name in server ==> server[pods[i].name].role == role
      ensures v == Vanished ==> pods[i].name !in server
      ensures exhausted == old(exhausted) + if v == Exhausted then {pods[i].name} else {}
      ensures |old(snapshots)| <= |snapshots| <= |old(snapshots)| + 1 && snapshots[..|old(snapshots)|] == old(snapshots)
      ensures |snapshots| > |old(snapshots)| ==> Moved(old(server), snapshots[|old(snapshots)|], pods[i].name, role)
      ensures v != Errored ==> |snapshots| - changes == |old(snapshots)| - old(changes)
      ensures PeacefulTurn(env) && pods[i].name in old(server) ==> v == Settled && old(server.Keys) <= server.Keys
    {
      ghost var quiet := PeacefulTurn(env) && pods[i].name in server;
      var attempt := 1;
      while attempt <= MAX_ATTEMPTS
        invariant 1 <= attempt <= MAX_ATTEMPTS
        invariant Valid() && Known() && SameNamesAt(pods, old(pods))
        invariant forall k :: 0 <= k < |pods| && k != i ==> pods[k] == old(pods)[k]
        invariant if attempt == 1 then pods == old(pods) else Sees(i)
        invariant quiet ==>
                    old(server.Keys) <= server.Keys && attempt <= 2 &&
                    (attempt == 2 ==> pods[i].version == server[pods[i].name].version)
        invariant SameLabels(old(server), server)
        invariant exhausted == old(exhausted) && snapshots == old(snapshots) && changes == old(changes)
        decreases MAX_ATTEMPTS - attempt
      {
        if pods[i].role == role {
          return Settled;
        }
        var again;
        v, again := AttemptOnce(i, role, attempt, env(attempt));
        if !again {
          return;
        }
        attempt := attempt + 1;
      }
      v := Settled;
    }

    /** One pod's turn within a list. */
    method TakeTurn(i: nat, role: Role, master: string, gain: set<string>, env: nat -> Attempt,
                    ghost start: Server, ghost from: nat)
      returns (ok: bool)
      requires i < |pods| && Valid() && Known() && from <= |snapshots| && role == RoleIn(pods[i].name, master)
      requires Contained(start, server, snapshots, from, master, gain) && (pods[i].name == master ==> master in gain)
      modifies this
      ensures Valid() && SameNamesAt(pods, old(pods)) && Contained(start, server, snapshots, from, master, gain)
      ensures ok ==> Known() && |snapshots| - changes == |old(snapshots)| - old(changes)
      ensures ok && old(pods)[i].role != role ==> Handled(server, exhausted, pods[i].name, master)
      ensures OnlyCopy(old(pods), pods, i)
      ensures HandledStays(old(server), old(exhausted), server, exhausted, master)
      ensures old(exhausted) <= exhausted && old(snapshots) <= snapshots
      ensures PeacefulTurn(env) && pods[i].name in old(server) ==>
                ok && NoneLost(old(exhausted), exhausted, old(server), server)
    {
      ghost var before, tired, seen := server, exhausted, |snapshots|;
      var v := ApplyAt(i, role, env);
      TurnSteers(start, before, server, pods[i].name, master, gain);
      if |snapshots| > seen {
        TurnSteers(start, before, snapshots[seen], pods[i].name, master, gain);
      }
      forall n | Handled(before, tired, n, master) ensures Handled(server, exhausted, n, master) {
        StaysHandled(before, server, pods[i].name, master, n, tired, exhausted);
      }
      ok := v != Errored;
    }

    /** Runs the turns of a list of pods, stopping at the first error. Master is a wanted label only of pods
        in `gain`. */
    method ApplyAll(idxs: seq<nat>, wanted: seq<Pod>, master: string, gain: set<string>, env: (nat, nat) -> Attempt,
                    ghost listed: seq<Pod>, ghost due: Pod -> bool)
      returns (ok: bool)
      requires Valid() && Known() && SameNamesAt(wanted, pods) && SameNamesAt(wanted, listed)
      requires forall i :: 0 <= i < |listed| && due(listed[i]) ==> i in idxs
      requires forall i :: 0 <= i < |wanted| ==> wanted[i].role == RoleIn(wanted[i].name, master)
      requires forall i :: i in idxs ==> i < |wanted| && (wanted[i].name == master ==> master in gain)
      requires Ascending(idxs) && forall i :: i in idxs ==> pods[i].role != wanted[i].role
      modifies this
      ensures Valid() && SameNamesAt(wanted, pods)
      ensures ok ==> Known() && |snapshots| - changes == |old(snapshots)| - old(changes)
      ensures ok ==> HandledWhere(listed, due, server, exhausted, master)
      ensures Untouched(pods, old(pods), idxs, |idxs|)
      ensures Contained(old(server), server, snapshots, |old(snapshots)|, master, gain)
      ensures old(exhausted) <= exhausted && old(snapshots) <= snapshots
      ensures Quiet(env, wanted, old(server)) ==> ok && NoneLost(old(exhausted), exhausted, old(server), server)
    {
      for k := 0 to |idxs|
        invariant Valid() && Known() && |snapshots| - changes == |old(snapshots)| - old(changes)
        invariant Progress(idxs, k, wanted, old(pods), pods, server, exhausted, master)
        invariant Contained(old(server), server, snapshots, |old(snapshots)|, master, gain)
        invariant old(exhausted) <= exhausted && old(snapshots) <= snapshots
        invariant Quiet(env, wanted, old(server)) ==> NoneLost(old(exhausted), exhausted, old(server), server)
      {
        var i := idxs[k];
        assert i in idxs;
        ghost var copies, before, tired := pods, server, exhausted;
        if Quiet(env, wanted, old(server)) {
          QuietTurn(env, wanted, old(server), server, old(exhausted), exhausted, i);
        }
        assert pods[i] == old(pods)[i];
        var done := TakeTurn(i, wanted[i].role, master, gain, TurnOf(env, i), old(server), |old(snapshots)|);
        if !done {
          UntouchedInTheEnd(copies, pods, old(pods), idxs, k);
          return false;
        }
        ProgressStep(idxs, k, wanted, old(pods), copies, before, tired, pods, server, exhausted, master);
      }
      AllTurnsTaken(idxs, wanted, listed, due, server, exhausted, master);
      ok := true;
    }

    /** The Labels phase: demotions first, then everything else. The list it starts from may be behind the server. */
    method Labels(master: string, env: (nat, nat) -> Attempt) returns (ok: bool)
      requires Valid() && Known() && changes == 0 && snapshots == [] && exhausted == {}
      modifies this
      ensures Valid() && SameNamesAt(pods, old(pods))
      ensures Bracketed(snapshots, old(Masters(server)), {master} + (exhausted + old(Misseen(pods, server))))
      ensures MastersWithin(snapshots, 0, old(Masters(server)) + {master})
      ensures Steered(old(server), server, master)
      ensures ok && exhausted == {} ==>
                forall n :: n in server && n !in old(Misseen(pods, server)) ==> server[n].role == RoleIn(n, master)
      ensures ok ==> Known() && changes == |snapshots|
      ensures Peaceful(env) && AllOnServer(old(pods), old(server)) ==> ok && exhausted == {}
    {
      var wanted := UpdatePodRoleLabels(pods, master);
      var demote, other := Classify(pods, wanted);
      ghost var pods0, server0 := pods, server;
      ghost var missed := Misseen(pods0, server0);
      ok := ApplyAll(demote, wanted, master, {}, env, pods0, ToDemote(master));
      if ok {
        ghost var middle, tired, first := server, exhausted, snapshots;
        DemotionsClear(pods0, server0, middle, tired, master);
        ok := ApplyAll(other, wanted, master, {master}, env, pods0, ToRelabel(master));
        JoinSnapshots(first, snapshots, Masters(server0), Masters(middle), {master} + (exhausted + missed), master);
        if ok {
          AllRelabelled(pods0, server0, middle, server, tired, exhausted, master);
        }
      }
    }
  }
}
