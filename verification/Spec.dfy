/** The KeyValCluster spec fields the modelled phases read, with their defaults. */
module Spec {
  import opened Base
  import opened Network

  datatype HealthSpec = HealthSpec(lagMax: int, failoverTimeout: int, minReplicasForSafety: int)

  datatype ClusterSpec = ClusterSpec(
    cluster: Cluster, generation: int, mode: Mode, redisReplicas: int, sentinelCount: Option<int>,
    image: string, sentinelImage: Option<string>,
    limits: map<string, int>, requests: map<string, int>,
    sentinelLimits: map<string, int>, sentinelRequests: map<string, int>,
    metricsEnabled: bool, health: Option<HealthSpec>, persistent: bool, cleanupOnDelete: bool, redisPort: int)

  /** SettingsFor(cr).MinReplicasForSafety (ops/health/health.go). */
  function MinReplicasForSafety(spec: ClusterSpec): (n: int)
    ensures n >= 1
  {
    if spec.health.Some? && spec.health.value.minReplicasForSafety > 0 then spec.health.value.minReplicasForSafety
    else 2
  }

  /** The member count ComputeStatus asks for; Standalone needs only the master. */
  function RequiredMembers(spec: ClusterSpec): (n: int)
    ensures n >= 1
  {
    if spec.mode == Standalone then 1 else MinReplicasForSafety(spec)
  }

  /** How many Sentinels a configured count stands for. */
  function SentinelsWanted(count: Option<int>): (n: int)
    ensures n >= 1
  {
    if count.Some? && count.value > 0 then count.value else 3
  }

  function SentinelDesiredCount(spec: ClusterSpec): (n: int)
    ensures n >= 1
  {
    SentinelsWanted(spec.sentinelCount)
  }
}
