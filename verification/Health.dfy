/** Per-pod health (ops/health/health.go). */
module HealthCheck {
  import opened Base
  import opened Redis

  const MAX_INT32 := 0x7FFF_FFFF

  /** int32(n) for an int n. */
  function Truncate32(n: int): int {
    (n + 0x8000_0000) % 0x1_0000_0000 - 0x8000_0000
  }

  function OffsetLag(masterOffset: int, replicaOffset: int): (lag: Option<int>)
    ensures lag.Some? <==> 0 < replicaOffset < masterOffset
    ensures lag.Some? ==> 0 < lag.value <= MAX_INT32 && lag.value <= masterOffset - replicaOffset
    ensures lag.Some? ==> lag.value == masterOffset - replicaOffset || lag.value == MAX_INT32
  {
    if masterOffset <= 0 || replicaOffset <= 0 || masterOffset <= replicaOffset then None
    else if masterOffset - replicaOffset > MAX_INT32 then Some(MAX_INT32)
    else Some(masterOffset - replicaOffset)
  }

  /** The greater of the known lags. */
  function Later(a: Option<int>, b: Option<int>): Option<int> {
    if a.None? then b else if b.None? || b.value <= a.value then a else b
  }

  function LagOf(info: ReplicationInfo): Option<int> {
    Later(
      if info.lastIO > 0 then Some(Truncate32(info.lastIO)) else None,
      OffsetLag(info.masterOffset, info.replicaOffset))
  }

  /** EvaluatePodHealth. The lag threshold the source passes in decides nothing: any positive offset
      difference makes a replica lag. */
  function EvaluatePodHealth(role: Role, info: ReplicationInfo, ready: bool): (Health, Option<int>) {
    match role
    case SentinelRole => (if ready then Healthy else Offline, None)
    case Master => if info.role == "" && !ready then (Offline, None) else (Healthy, LagOf(info))
    case Replica =>
      if info.role == "" then (Offline, LagOf(info))
      else if !LinkUp(info.link) then (Desynced, LagOf(info))
      else
        var behind := OffsetLag(info.masterOffset, info.replicaOffset).Some?;
        (if info.syncing || behind then Lagging else Healthy, LagOf(info))
    case _ => (Offline, LagOf(info))
  }

  /** A replica counts as healthy exactly when it answered, its link is not known to be down, no sync runs, and
      its offset is not known to be behind; readiness and the lag threshold play no part. */
  lemma HealthyReplicaIff(info: ReplicationInfo, ready: bool)
    ensures EvaluatePodHealth(Replica, info, ready).0 == Healthy <==>
              && info.role != "" && LinkUp(info.link) && !info.syncing
              && (info.masterOffset > 0 && info.replicaOffset > 0 ==> info.masterOffset <= info.replicaOffset)
  {
  }
}
