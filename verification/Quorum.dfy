/** Majorities and disruption budgets (reconcile/util.go, resources/configmap.go). */
module Quorum {
  import opened Base
  import opened Spec
  import SentinelReset

  /** The quorum the rendered sentinel.conf names. */
  function ConfigQuorum(spec: ClusterSpec): int {
    if spec.sentinelCount.Some? && spec.sentinelCount.value > 0 then spec.sentinelCount.value / 2 + 1 else 1
  }

  /** ComputeSentinelPDBMinAvailable. */
  function SentinelBudget(spec: ClusterSpec, allow: bool): int {
    if spec.mode != SentinelMode then 0
    else
      var desired := SentinelDesiredCount(spec);
      if !allow then desired
      else
        var quorum := desired / 2 + 1;
        if quorum > desired then desired else quorum
  }

  /** ComputeRedisPDBMinAvailable. */
  method RedisBudget(spec: ClusterSpec, allow: bool) returns (min: int)
    ensures !allow ==> min == if spec.redisReplicas < 0 then 0 else spec.redisReplicas
    ensures allow && spec.redisReplicas >= 1 ==> 0 <= min < spec.redisReplicas
    ensures allow && spec.redisReplicas >= 1 && min < MinReplicasForSafety(spec) ==> min == spec.redisReplicas - 1
    ensures allow ==> min <= MinReplicasForSafety(spec)
  {
    var desired := spec.redisReplicas;
    if desired < 0 {
      desired := 0;
    }
    if !allow {
      return desired;
    }
    var limit := desired - 1;
    if limit < 0 {
      limit := 0;
    }
    var safety := MinReplicasForSafety(spec);
    if safety > limit {
      safety := limit;
    }
    if spec.mode == Standalone {
      if desired <= 1 {
        return 0;
      }
      if safety < 1 {
        safety := 1;
      }
    }
    min := safety;
  }

  /** ResolvePDBMinAvailable; `previous` is the old budget when it was an integer. */
  function ResolvedBudget(previous: Option<int>, computed: int, preserve: bool): int {
    if preserve && previous.Some? && previous.value > computed then previous.value else computed
  }

  /** With the preserve annotation an allowed disruption can still be barred: exactly when the old budget asked
      for every replica. */
  lemma PreservedBudgetIff(previous: Option<int>, computed: int, preserve: bool, replicas: int)
    requires computed < replicas
    ensures ResolvedBudget(previous, computed, preserve) < replicas <==>
              !(preserve && previous.Some? && previous.value >= replicas)
  {
  }

  /** The phase's quorum target, the status condition and the budget are one majority of the desired count; the
      rendered configuration names the same one exactly when the count is set, as the API demands in Sentinel mode. */
  lemma OneQuorum(spec: ClusterSpec, look: SentinelReset.Look)
    requires spec.mode == SentinelMode && look.count == spec.sentinelCount
    ensures SentinelBudget(spec, true) == SentinelReset.Target(look) == SentinelDesiredCount(spec) / 2 + 1
    ensures ConfigQuorum(spec) == SentinelReset.Target(look) <==>
              spec.sentinelCount.Some? && spec.sentinelCount.value > 0
  {
  }

  /** Any two groups of Sentinels that can each reach the quorum share a member, so at most one side of a
      partition can act. */
  lemma MajoritiesMeet<T>(all: set<T>, a: set<T>, b: set<T>)
    requires a <= all && b <= all && |a| >= |all| / 2 + 1 && |b| >= |all| / 2 + 1
    ensures a * b != {}
  {
    assert |a + b| + |a * b| == |a| + |b|;
    assert all == (a + b) + (all - (a + b));
  }
}
