/** The Redis nodes behind the pods, as the client interface (clients/types.go) lets the operator see and
    change them. A call is faithful when it returns no error; a call that fails may or may not have
    reached the node. */
module Redis {

  /** The fields of INFO replication the operator reads. */
  datatype ReplicationInfo = ReplicationInfo(
    role: string, masterHost: string, masterPort: int, link: string,
    lastIO: int, syncing: bool, masterOffset: int, replicaOffset: int)

  const NO_INFO := ReplicationInfo("", "", 0, "", 0, false, 0, 0)

  datatype Command = NoOne(pod: string) | ReplicaOf(pod: string, host: string, port: int)

  datatype CallOutcome = Done | FailedButApplied | FailedUnapplied

  /** One INFO poll while a replica syncs: an error, or the link state it reports. */
  datatype Poll =
    | PollFailed
    | PollSees(link: string, lastIO: int, syncing: bool, masterOffset: int, replicaOffset: int)

  function LowerChar(c: char): char {
    if 'A' <= c <= 'Z' then c + 32 as char else c
  }

  function Lower(s: string): string {
    seq(|s|, i requires 0 <= i < |s| => LowerChar(s[i]))
  }

  /** strings.EqualFold on ASCII text. */
  predicate EqualFold(a: string, b: string) {
    Lower(a) == Lower(b)
  }

  predicate IsReplica(info: ReplicationInfo) {
    EqualFold(info.role, "replica")
  }

  predicate LinkUp(link: string) {
    link == "" || EqualFold(link, "up") || EqualFold(link, "ok")
  }

  /** A node after REPLICAOF NO ONE. */
  function Promoted(info: ReplicationInfo): ReplicationInfo {
    info.(role := "master", masterHost := "", masterPort := 0, link := "", syncing := false)
  }

  /** A node after REPLICAOF host port; its link is not up yet. */
  function Attached(info: ReplicationInfo, host: string, port: int): ReplicationInfo {
    info.(role := "replica", masterHost := host, masterPort := port, link := "down")
  }

  function Effect(command: Command, info: ReplicationInfo): ReplicationInfo {
    match command
    case NoOne(_) => Promoted(info)
    case ReplicaOf(_, host, port) => Attached(info, host, port)
  }

  /** A poll shows the node with a new link state; whom it follows does not change. */
  function Progress(info: ReplicationInfo, poll: Poll): ReplicationInfo
    requires poll.PollSees?
  {
    info.(link := poll.link, lastIO := poll.lastIO, syncing := poll.syncing,
          masterOffset := poll.masterOffset, replicaOffset := poll.replicaOffset)
  }

  predicate SameUpstream(a: ReplicationInfo, b: ReplicationInfo) {
    a.role == b.role && a.masterHost == b.masterHost && a.masterPort == b.masterPort
  }

  const MAX_TRIES := 3

  /** One of the tries a retried call has reports success. */
  predicate Lands(tries: seq<CallOutcome>) {
    exists i :: 0 <= i < |tries| && i < MAX_TRIES && tries[i].Done?
  }

  predicate OnlyChanges(before: map<string, ReplicationInfo>, after: map<string, ReplicationInfo>, pod: string) {
    after.Keys == before.Keys && forall k :: k in after && k != pod ==> after[k] == before[k]
  }

  /** The later log is the earlier one followed by at most three copies of the command. */
  predicate Resent(before: seq<Command>, after: seq<Command>, command: Command) {
    && before <= after
    && |after| <= |before| + MAX_TRIES
    && forall i :: |before| <= i < |after| ==> after[i] == command
  }

  class Fleet {
    var nodes: map<string, ReplicationInfo>
    /** Every command sent, in order. */
    var log: seq<Command>

    /** Sends the command once. */
    method Send(command: Command, outcome: CallOutcome) returns (ok: bool)
      requires command.pod in nodes
      modifies this
      ensures ok <==> outcome.Done?
      ensures log == old(log) + [command]
      ensures OnlyChanges(old(nodes), nodes, command.pod)
      ensures outcome.FailedUnapplied? ==> nodes == old(nodes)
      ensures !outcome.FailedUnapplied? ==> nodes[command.pod] == Effect(command, old(nodes)[command.pod])
    {
      log := log + [command];
      if !outcome.FailedUnapplied? {
        nodes := nodes[command.pod := Effect(command, nodes[command.pod])];
      }
      return outcome.Done?;
    }

    /** runtime.Retry with three attempts; `outcomes` ends where the context is cancelled. */
    method Retry(command: Command, outcomes: seq<CallOutcome>) returns (ok: bool)
      requires command.pod in nodes
      modifies this
      ensures OnlyChanges(old(nodes), nodes, command.pod)
      ensures ok ==> nodes[command.pod] == Effect(command, old(nodes)[command.pod])
      ensures ok <==> Lands(outcomes)
      ensures Resent(old(log), log, command)
      ensures ok ==> |log| > |old(log)|
    {
      var attempt := 0;
      ok := false;
      ghost var before := nodes[command.pod];
      while attempt < MAX_TRIES && attempt < |outcomes|
        invariant 0 <= attempt <= MAX_TRIES && attempt <= |outcomes|
        invariant OnlyChanges(old(nodes), nodes, command.pod)
        invariant nodes[command.pod] == before || nodes[command.pod] == Effect(command, before)
        invariant forall i :: 0 <= i < attempt ==> !outcomes[i].Done?
        invariant Resent(old(log), log, command) && |log| == |old(log)| + attempt
      {
        ok := Send(command, outcomes[attempt]);
        assert Effect(command, Effect(command, before)) == Effect(command, before);
        attempt := attempt + 1;
        if ok {
          assert outcomes[attempt - 1].Done?;
          return;
        }
      }
    }
  }
}
