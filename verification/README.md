# A verified model of the keyval operator's decision protocol

The operator keeps a Redis or Valkey cluster on Kubernetes running: reconcile after reconcile it picks a master,
aligns the replicas, moves the role label, decides whether a disruption is safe, and restarts pods one at a time.
This project models that protocol in Dafny and proves what its steps and its whole runs keep.

The world is small. A pod has a name, an address, readiness, a deletion mark, a role label, a resource version,
two hashes and its containers; a Redis node has the fields of INFO replication; a cluster object has a status and
annotations. Every call to Kubernetes, Redis or Sentinel takes its outcome from a parameter: it is faithful when it
reports success, and a call that reports an error may or may not have taken effect. Clocks are parameters.
Source files that work by updating things are modelled by classes and methods with loops; comparisons, name
arithmetic and the state machines' decision functions are functions and lemmas.

| module | models |
|---|---|
| `Network`, `Int64`, `Ordering`, `Spec`, `Base` | names, ordinals, 64-bit words, Go's string order and sort, spec defaults, shared entities |
| `Redis`, `Topology`, `TopologySources`, `MasterCache` | nodes and commands, one alignment pass, the sources of a master, the address cache |
| `RoleLabels` | role labels patched under an optimistic lock |
| `HealthCheck`, `Status` | pod health, the status and the health gate |
| `Update`, `Reconcile`, `Runtime`, `RollingRun` | plan, guards, execution, one reconcile's disruption, the runtime phase, whole rolling updates |
| `ResetTracker`, `SentinelReset`, `Quorum` | the reset tracker in annotations, the Sentinel phase and its runs, majorities and budgets |
| `RuntimeConfig`, `Eviction`, `Importer`, `Freshness`, `Requeue` | config sync, eviction retries, external import, the bootstrap candidate, requeue hints |

Properties that turn out false of the code are kept as results: a concrete case or a whole failing family, and the
exact condition under which the property does hold.

- A pass without error leaves exactly one master if and only if the chosen pod's INFO answered or it was master
  already (`OneMasterIff`): a failed INFO is read as "already master", and such a pass still succeeds
  (`PassWithoutMaster`).
- A remembered master is found in the cache if and only if no later step took its entry (`PresentIff`): the delete of
  an expired entry can take a newer one (`LateDropLosesFreshEntry`).
- The eviction backoff is the doubled delay if and only if there is none to double or the attempt is at most 63
  (`BackoffIff`).
- A settled import record survives a reconcile if and only if no earlier phase aborted it (`SurvivesIff`); an
  aborted one turns a completed import into a failed one for good (`AbortUndoesCompletion`).
- Once the source of an import is removed, a node that follows it is detached if and only if its import is recorded as
  under way (`DetachedIff`): a timed-out import and one whose source changed in mid-sync leave their node attached
  (`TimedOutStaysAttached`, `ChangedStaysAttached`).
- The node an import promotes follows the source over a caught-up link if and only if it followed the source before
  the completing call (`CompletionSyncedIff`, `CompletesUnsynced`).
- A change of source during a sync leaves the record Pending, so the data already copied fails the new import
  (`SyncingStateIff`, `ChangedSourceFails`).
- A comment in the importer says a live follow may run indefinitely. It fails in a run if and only if some stretch of
  calls that reach the link without finding it caught up and the cluster ready outlasts the time limit
  (`LiveImportFailsIff`).
- A reset cooldown that has not run out survives a reconcile if and only if that reconcile has quorum
  (`CooldownSurvivesIff`).
- The freshness comparison is transitive on a list if and only if no name without an ordinal lies between two names
  that their ordinals order the other way round (`TransitiveIff`).
- After a sync has written the config hash, the pods run the wanted configuration if and only if every difference found
  is on a key whose value a node keeps (`SyncedIff`). A bare memory unit is not kept, because operator and node read it
  differently (`SizeKeptIff`, `OneGigabyteNotKept`): such a pod carries the hash, is not restarted, and every later sync
  applies the key again (`SyncsRepeat`).
- A DNS name built from a pod name maps back to it if and only if rebuilding the name from its ordinal gives the
  same name (`DNSNameMapsBack`).

## Model

| member | source | states |
|---|---|---|
| Network.ParseOrdinal | controllers/internal/core/network.go:49-62 | the digit loop reads the number behind the last dash, wrapping at 64 bits, and answers -1 for anything else |
| Network.OrdinalOfPodName | controllers/internal/core/network.go:49-62 | the ordinal of a StatefulSet pod name is the number the name was built from, for every 63-bit number |
| Network.MatchIsFirstLabel | controllers/internal/ops/replication/replication.go:573-583 | a host resolves to a pod if and only if the pod is listed and is the first label of the host's DNS name |
| Network.DNSNameMapsBack | controllers/internal/core/network.go:38-47 | where neither the cluster's nor the pod's name has a dot, the DNS name of a listed pod resolves to that pod if and only if the name is rebuilt unchanged from its ordinal |
| Network.StatefulSetNamesCanonical | controllers/internal/core/network.go:38-47 | every name of the form cluster-n is such a name |
| Network.LeadingZeroLost | controllers/internal/core/network.go:42-47 | no name with a leading zero in its ordinal is: its DNS name is that of the pod without the zero |
| MasterCache.MasterAddressCache.constructor | controllers/internal/ops/replication/master_cache.go:32-44 | a new cache is empty and within its capacity, with defaults for non-positive settings |
| MasterCache.MasterAddressCache.Lookup | controllers/internal/ops/replication/master_cache.go:47-69 | a hit is exactly an unexpired entry; a miss leaves no entry for the key and touches no other |
| MasterCache.MasterAddressCache.Remember | controllers/internal/ops/replication/master_cache.go:71-89 | the entry is stored with its expiry; at most one other entry makes room, and only when the table is full |
| MasterCache.MasterAddressCache.Invalidate | controllers/internal/ops/replication/master_cache.go:91-98 | exactly the key's entry goes |
| MasterCache.TableFollowsHistory | controllers/internal/ops/replication/master_cache.go:47-98 | in every interleaving, with a lookup split into its read and its delete, the table is within capacity and every entry is the last write to its key |
| MasterCache.HitsAreCurrent | controllers/internal/ops/replication/master_cache.go:47-98 | in every interleaving a hit returns the last master remembered for the key and not invalidated since, within its expiry |
| MasterCache.OtherKeysNeverAdd | controllers/internal/ops/replication/master_cache.go:71-98 | whatever other clusters do, no entry appears for a cluster that is not remembered |
| MasterCache.LateDropLosesFreshEntry | controllers/internal/ops/replication/master_cache.go:47-69 | for every time to live and capacity the delete of an expired entry can take a newer one with it |
| MasterCache.PresentIff | controllers/internal/ops/replication/master_cache.go:47-98 | in every interleaving a key is in the table if and only if its last write was a Remember and no later step took its entry as a victim or by a late delete |
| Redis.Fleet.Retry | controllers/internal/runtime/retry.go:34-100 | a command retried up to three times changes no other node, and took effect if it reports success |
| Topology.WaitForReplicaSync | controllers/internal/ops/replication/replication.go:432-472 | waiting polls the node without changing whom it follows, and succeeds exactly when a poll shows it aligned |
| Topology.AlignMaster | controllers/internal/ops/replication/replication.go:272-295 | the chosen pod's turn: promoted unless INFO failed or it already is master, only that node changes, and it errs exactly without a client or login or when a due promotion reports no success in three tries |
| Topology.AlignReplica | controllers/internal/ops/replication/replication.go:297-336 | any other pod's turn: it ends up following the target, is commanded exactly when it did not do so with a settled link, and errs exactly without a client or login or when a due command reports no success in three tries |
| Topology.AlignAll | controllers/internal/ops/replication/replication.go:257-340 | the loop gives every pod its turn in name order and errs exactly when some pod's turn does; the roles and infos cover exactly the pods visited; every command sent is the one its pod was due |
| Topology.EnsureWithMaster | controllers/internal/ops/replication/replication.go:237-342 | from any starting roles a pass succeeds exactly when no pod's turn errs; it then has every other pod follow the chosen one, touches no unlisted node, covers all pods in the roles map, and reports a change exactly when a command was sent, which is exactly when some pod was not yet aligned |
| Topology.OneMasterIff | controllers/internal/ops/replication/replication.go:272-295 | after such a pass exactly the chosen pod is master if and only if its INFO answered or it was master before |
| Topology.FailedInfoLeavesNoMaster | controllers/internal/ops/replication/replication.go:273-276 | wherever only the INFO of a chosen pod that is no master fails, its turn succeeds and no listed pod is master afterwards |
| Topology.PassWithoutMaster | controllers/internal/ops/replication/replication.go:237-342 | on such an input the whole pass reports success and the chosen pod as master |
| Topology.PointsAtAddresses | controllers/internal/ops/replication/replication.go:556-571 | a pod found aligned follows an address that really names the target pod |
| Topology.SecondPassQuiet | controllers/internal/ops/replication/replication.go:257-310 | a second pass to the same master sends no command once links are up, even if the master's IP only became known in between |
| TopologySources.DetectRoles | controllers/internal/ops/replication/replication.go:493-531 | the probe names the least master by name among the pods that report one, else the least pod, and asks every pod |
| TopologySources.ResolveMasterViaSentinel | controllers/internal/ops/replication/replication.go:344-381 | the answer of the first Sentinel that names a listed pod, by address or by host, decides |
| TopologySources.CacheStage | controllers/internal/ops/replication/replication.go:124-144 | the cache is asked first: a usable hit ends the call with that master; anything else leaves no entry for the cluster |
| TopologySources.FreshStage | controllers/internal/ops/replication/replication.go:146-197 | a forced master decides, else the first Sentinel answer by name that stands for a listed pod, if Sentinel mode, a client, a ready Sentinel and such an answer are there, else the probe's least master or least pod; it errs exactly when the probe is needed and cannot ask every pod or the pass to that master fails; the master is remembered exactly after success |
| TopologySources.EnsureTopology | controllers/internal/ops/replication/replication.go:88-197 | a usable cache entry settles the call; otherwise source, master and error are those of the stages behind the cache; any error past the argument and TLS checks leaves no cache entry for the cluster; a result without error is true of the nodes |
| TopologySources.FreshMasterUnique | controllers/internal/ops/replication/replication.go:146-197 | nodes, request and answers determine one master behind the cache |
| RoleLabels.UpdatePodRoleLabels | controllers/internal/ops/replication/labels.go:12-38 | the two loops want master for the chosen pod and replica for every other, changing nothing else of a pod |
| RoleLabels.Classify | controllers/internal/reconcile/phases/labels.go:44-59 | the demotions are exactly the pods labelled master that should not be; the other list is exactly the rest whose label differs |
| RoleLabels.LabelPhase.Patch | controllers/internal/reconcile/phases/labels.go:82-92 | a patch lands only on the version it was based on, changes at most that pod's label, and a conflict changes nothing |
| RoleLabels.LabelPhase.ApplyAt | controllers/internal/reconcile/phases/labels.go:63-118 | within three attempts the label is right, the pod is gone, the attempts ran out (and a minimum delay was asked for), or an error ends the phase; at most one patch lands; undisturbed, the label is right |
| RoleLabels.LabelPhase.ApplyAll | controllers/internal/reconcile/phases/labels.go:120-129 | a list's turns leave every pod on it labelled unless gone or out of attempts, and no intermediate state shows a master outside the allowed ones |
| RoleLabels.LabelPhase.Labels | controllers/internal/reconcile/phases/labels.go:20-138 | from a list that may be behind the server: at every intermediate patch the server shows either only old masters, or only the chosen one, pods whose attempts ran out and pods the list misshowed; without error or exhausted attempt every pod shown rightly has exactly its label; undisturbed, there is neither |
| RoleLabels.NoExtraMaster | controllers/internal/reconcile/phases/labels.go:44-129 | unless the demotion of an old master ran out of attempts or the list did not show it as one, no intermediate state shows more master labels than there were at the start, or one |
| RoleLabels.CurrentListSeesAll | controllers/internal/reconcile/phases/labels.go:44-58 | a list that is up to date misshows no pod |
| HealthCheck.OffsetLag | controllers/internal/ops/health/health.go:107-120 | a lag is reported exactly for positive offsets with the replica behind, and is their difference, capped at the largest 32-bit value |
| HealthCheck.HealthyReplicaIff | controllers/internal/ops/health/health.go:59-96 | a replica is healthy exactly when it answered, its link is not known to be down, no sync runs and its offset is not known to be behind; the threshold decides nothing |
| Status.ComputeRoles | controllers/internal/ops/status/status.go:51-157 | the loops give one entry per pod with the specified transition time, and the ready count, master count, and master's readiness and health |
| Status.ComputeReplicationCondition | controllers/internal/ops/status/status.go:340-385 | the loop's verdict is the specified one, from its first issue to its message |
| Status.ComputeStatus | controllers/internal/ops/status/status.go:51-291 | the imperative computation gives the specified status: roles, every condition with its transition time, and the gate |
| Status.StatusFixpoint | controllers/internal/ops/status/status.go:51-291 | for distinct pod names, computing the status again from the status just computed, at any later time, gives the same status in every field |
| Status.SharedNameChurns | controllers/internal/ops/status/status.go:51-157 | the hypothesis of distinct names, which a namespace guarantees, is needed: a Redis pod that shared its name with a Sentinel pod would get a new time at every computation |
| Status.AvailableIff | controllers/internal/ops/status/status.go:293-308 | Available with a healthy master holds exactly when a master is known, exactly one pod has the master role, and that pod is ready and healthy |
| Status.ReplicationIff | controllers/internal/ops/status/status.go:340-385 | with pods and a known master, ReplicationHealthy is true exactly when the master and every replica are healthy, a replica exists where one is needed, and enough members are healthy |
| Status.GateMeaning | controllers/internal/ops/status/status.go:280-291 | the gate is open if and only if nothing is paused, one master is ready and healthy, no replica is unhealthy, and the healthy members reach the safety threshold |
| Update.PlanUpdates | controllers/internal/ops/update/update.go:47-213 | the plan names exactly the pods with a reason to restart, each once, highest ordinal first, with exactly their reasons |
| Update.ReasonsIgnoreRole | controllers/internal/ops/update/update.go:47-213 | the role label is never a reason to restart |
| Update.EvaluateGuards | controllers/internal/ops/update/guards.go:35-114 | a plan is held back if and only if it is not empty, carries no TLS reason, and the gate is closed, a failover or bootstrap runs, or no healthy replica exists where replicas are wanted |
| Update.Execute | controllers/internal/ops/update/update.go:266-374 | at most one pod is asked to go: the first in plan order that may, and none while a pod terminates or an unplanned one is not ready |
| Reconcile.HasGoodSlave | controllers/controller.go:761-806 | a failover candidate is found exactly when some other pod is ready, answers, follows the current master and is healthy |
| Reconcile.TryEvictFormerMaster | controllers/controller.go:869-921 | the recorded former master is touched exactly when it is listed, not terminating, still found, and another pod is ready; a failed read or eviction is an error |
| Reconcile.RunSentinelPlan | controllers/controller.go:581-669 | in Sentinel mode the planned pods are visited lowest ordinal first, past their guard, by the same execution; at most one Sentinel pod and no Redis pod is touched |
| Reconcile.ReconcileUpdates | controllers/controller.go:328-669 | one reconcile asks for the disruption of at most one pod in total; a planned Redis pod goes only through a clear guard; the only pending master goes through failover instead; the former master on record is asked for exactly when a plan finds nothing to evict and it may go, is set by a successful failover and cleared by its own restart; without a Redis plan the Sentinel part runs |
| Reconcile.PlannedEvictionIsSafe | controllers/controller.go:399-571 | a planned Redis eviction under a plan without a TLS reason means one ready healthy master, no unhealthy replica, the safety threshold reached, nothing terminating, another healthy pod left, and not the labelled master |
| Runtime.SettleTopology | controllers/internal/reconcile/phases/runtime.go:67-102 | the bootstrap retry happens whenever the first call fails with no pod ready and a candidate is there; it acts on the forced candidate and not on a cached master, and errs exactly when the pass to it fails; without a retry source, master and error are those of the first call; without a factory or TLS configuration nothing changes |
| Runtime.ForcedOutcome | controllers/internal/ops/replication/replication.go:146-154 | with a forced master the call acts on it and errs exactly when the pass to it fails |
| Runtime.ResolveRoles | controllers/internal/reconcile/phases/runtime.go:67-155 | a failed topology step, a missing factory and a TLS error alike, yields the fallback roles and no INFO; a successful one roles and INFO for exactly the listed pods |
| Runtime.EvaluateHealth | controllers/internal/reconcile/phases/runtime.go:165-219 | the health map covers exactly the Redis pods with each pod's evaluated health |
| Runtime.TopologyFailureStopsEvictions | controllers/internal/reconcile/phases/runtime.go:103-155 | after a failed topology step with at least two pods a replica is Offline, the gate is closed, and without a TLS reason no Redis pod is touched in that reconcile |
| RollingRun.RollingReconcile | controllers/controller.go:399-571 | one reconcile on a steady cluster, with any answers, idles, moves the master when only it is left, whatever the failover reports, or restarts one stale pod that is not master; it asks for no former master; if nothing stands in its way it acts |
| RollingRun.RollingUpdate | controllers/internal/ops/update/update.go:266-374 | over any run a rolling update of d stale pods never restarts a pod labelled master, moves the master at most once even by failovers that report an error, has restarted exactly d pods when nothing is stale, and is done after d + 1 unhindered reconciles |
| RollingRun.FormerStays | controllers/controller.go:484-551 | a former master on record is still on record after any such run, and only a failover replaces it |
| RollingRun.RollAll | controllers/controller.go:399-571 | n reconciles in a row against any honest environment form such a run |
| Freshness.FresherConnected | controllers/internal/ops/bootstrap/freshness.go:155-178 | of two records of different pods one comes first |
| Freshness.FresherAsymmetric | controllers/internal/ops/bootstrap/freshness.go:155-178 | and not both |
| Freshness.FresherTransitive | controllers/internal/ops/bootstrap/freshness.go:155-178 | among names with ordinals the comparison is transitive, hence a strict total order |
| Freshness.MixedNamesExist | controllers/internal/ops/bootstrap/freshness.go:155-178 | under every name prefix three records of both kinds each come before the next |
| Freshness.TransitiveIff | controllers/internal/ops/bootstrap/freshness.go:155-178 | on any list the comparison is transitive if and only if no name without an ordinal straddles two names that their ordinals order the other way round |
| Freshness.SelectCandidate | controllers/internal/ops/bootstrap/freshness.go:78-106 | the candidate is the best record of the forced ones, else of those with data, else the seed, wherever the comparison is transitive on the records; none exactly when there is no record |
| Freshness.ChoiceIgnoresOrder | controllers/internal/ops/bootstrap/freshness.go:78-106 | the choice does not depend on the order of the list |
| Freshness.WinnerLeads | controllers/internal/ops/bootstrap/freshness.go:78-106 | a forced pod beats every unforced one, and no pod of the winner's class has a higher offset |
| ResetTracker.TrackerRoundTrip | controllers/internal/reconcile/sentinel_helpers.go:29-94 | reading after a write gives the tracker back, cut to whole seconds unless it was already stored, and no other annotation changes |
| ResetTracker.WholeTrackerRoundTrip | controllers/internal/reconcile/sentinel_helpers.go:29-94 | a tracker of whole seconds comes back exactly |
| ResetTracker.ClusterObject.Write | controllers/internal/reconcile/sentinel_helpers.go:53-94 | a successful write stores the tracker; a failed patch puts the old annotations back; an equal tracker needs no patch |
| SentinelReset.HasSentinelQuorum | controllers/internal/reconcile/sentinel_helpers.go:131-205 | there is quorum exactly when the target number of ready Sentinels confirm it and none fails to answer |
| SentinelReset.IssueSentinelReset | controllers/internal/reconcile/sentinel_helpers.go:208-233 | at most one RESET succeeds, the last one sent, on the least ready pod by name that accepts it; none exactly when nobody accepts |
| SentinelReset.Decide | controllers/internal/reconcile/phases/sentinel.go:87-294 | the branches implement the timed state machine: loss start, observation window, three attempts, cooldowns, and topology resets |
| SentinelReset.Sentinel | controllers/internal/reconcile/phases/sentinel.go:87-298 | one reconcile steps the tracker it read and stores the result if the write succeeds |
| SentinelReset.Watch | controllers/internal/reconcile/phases/sentinel.go:34-316 | repeated reconciles of one object with successful writes form a run |
| SentinelReset.LossCounted | controllers/internal/reconcile/phases/sentinel.go:179-268 | within one loss the attempts counter counts the rounds |
| SentinelReset.AtMostThreeRounds | controllers/internal/reconcile/phases/sentinel.go:179-268 | an unbroken stretch of reconciles without quorum has at most three reset rounds |
| SentinelReset.LossRoundsSpaced | controllers/internal/reconcile/phases/sentinel.go:225-268 | any two quorum-loss rounds of a run are at least thirty whole seconds apart |
| SentinelReset.TopologyRoundsSpaced | controllers/internal/reconcile/phases/sentinel.go:216-291 | while quorum lasts, a topology round follows another only after its cooldown: two minutes after a success, 45 seconds after a failure |
| SentinelReset.LossIgnoresCooldown | controllers/internal/reconcile/phases/sentinel.go:152-156 | across a quorum loss that spacing fails |
| SentinelReset.CooldownSurvivesIff | controllers/internal/reconcile/phases/sentinel.go:152-156 | a cooldown that has not run out survives a reconcile if and only if that reconcile has quorum |
| SentinelReset.LostWriteRepeatsRound | controllers/internal/reconcile/phases/sentinel.go:296-298 | without a successful write the next reconcile, however soon, repeats the round of a recorded loss if and only if it too finds no quorum and may reset |
| Quorum.RedisBudget | controllers/internal/reconcile/util.go:162-190 | the Redis budget is the replica count when disruptions are refused, and below it when they are allowed; it falls short of the safety threshold only by the one pod that may go |
| Quorum.PreservedBudgetIff | controllers/internal/reconcile/util.go:249-254 | a preserved budget bars an allowed disruption exactly when the old one asked for every replica |
| Quorum.OneQuorum | controllers/internal/reconcile/util.go:206-225 | quorum check, status and budget use one majority; the rendered configuration agrees if and only if the count is set, as the API demands in Sentinel mode |
| Quorum.MajoritiesMeet | controllers/internal/resources/configmap.go:96-99 | any two groups of that size share a member |
| RuntimeConfig.SurveyPod | controllers/internal/ops/runtimeconfig/runtime.go:132-176 | the pending changes of a pod are exactly its differences, all allowed; a restart is called for only by a difference that is not |
| RuntimeConfig.SurveyAll | controllers/internal/ops/runtimeconfig/runtime.go:129-180 | every pod is surveyed before any is changed, and the plan holds exactly the pods out of sync |
| RuntimeConfig.ConfigSync.ApplyPod | controllers/internal/ops/runtimeconfig/runtime.go:192-226 | in any order of its keys every pending change of a pod is sent and no other pod is touched; afterwards a key differs exactly if it did before and the node does not keep its value |
| RuntimeConfig.ConfigSync.PatchHashes | controllers/internal/ops/runtimeconfig/runtime.go:370-390 | success leaves the hash on every pod; an empty hash writes nothing; annotations change only on listed pods and only to the hash, and nothing else of a pod changes |
| RuntimeConfig.ConfigSync.ApplyRedisRuntime | controllers/internal/ops/runtimeconfig/runtime.go:80-241 | no CONFIG SET goes out unless every difference on every pod is allowed, each one sent is such a difference, and a hash is written only after all of them were sent, when the differences left are exactly those whose value the node does not keep; with no failing call the mode says exactly which case it was |
| RuntimeConfig.SyncedIff | controllers/internal/ops/runtimeconfig/runtime.go:192-230 | the pods a sync wrote the hash on are in sync if and only if every difference it found is on a key whose value the node keeps |
| RuntimeConfig.SizeKeptIff | controllers/internal/ops/runtimeconfig/runtime.go:414-452 | a whole memory size with a unit is kept if and only if it is zero or its unit is not a bare letter: the operator reads k, m and g as powers of 1024, a node as powers of 1000 |
| RuntimeConfig.OneGigabyteNotKept | controllers/internal/ops/runtimeconfig/runtime.go:438-446 | so a wanted maxmemory of 1g is not kept |
| RuntimeConfig.NextChanges | controllers/internal/ops/runtimeconfig/runtime.go:132-176 | with unchanged wishes the next sync sends a pod exactly the changes of this one whose key is not kept |
| RuntimeConfig.NextMode | controllers/internal/ops/runtimeconfig/runtime.go:129-241 | without failing calls it has nothing to do if and only if every difference is kept, and reports the same keys as applied otherwise |
| RuntimeConfig.SyncsRepeat | controllers/internal/ops/runtimeconfig/runtime.go:129-241 | however many syncs follow, each finds and leaves the same differences |
| RuntimeConfig.ConfigHashReasonIff | controllers/internal/ops/update/update.go:74-84 | planning gives a config-hash reason if and only if a hash is wanted and the pod's annotation is not it |
| RuntimeConfig.SyncedPodsNotPlanned | controllers/internal/ops/update/update.go:74-84 | after a successful sync no pod has that reason, in sync or not |
| Eviction.ApplyDefaults | controllers/internal/ops/eviction/eviction.go:264-282 | every field out of range is replaced, any settings become usable ones, and usable ones are kept |
| Eviction.DivisionTestExact | controllers/internal/ops/eviction/eviction.go:291-295 | on wrapping 64-bit words the division test catches exactly the products that overflow |
| Eviction.BackoffExact | controllers/internal/ops/eviction/eviction.go:284-300 | for every usable setting and attempts 1 to 63 the backoff is min(initial * 2^(attempt - 1), max) |
| Eviction.BackoffCollapses | controllers/internal/ops/eviction/eviction.go:291-299 | from attempt 64 on it is zero or negative |
| Eviction.BackoffIff | controllers/internal/ops/eviction/eviction.go:284-300 | it is the doubled delay if and only if there is none to double or the attempt is at most 63 |
| Eviction.BackoffGrows | controllers/internal/ops/eviction/eviction.go:284-300 | up to attempt 63 delays never decrease, starting at the initial one and staying under the maximum |
| Eviction.Evict | controllers/internal/ops/eviction/eviction.go:126-236 | at most the allowed number of calls; the first answer that is not retried decides, else the last; success means the pod was accepted or already gone; it is cancelled exactly when the context ends before a call or during a positive pause while every answer so far was one to retry |
| Importer.BootstrapPodLeast | controllers/internal/ops/importer/importer.go:535-543 | the bootstrap pod is a listed one of smallest ordinal |
| Importer.SnapshotReadiness | controllers/internal/ops/importer/importer.go:568-611 | ready means enough live ready Redis pods and, in Sentinel mode, Sentinel pods |
| Importer.ImportRun.Import | controllers/internal/ops/importer/importer.go:79-218 | the step-by-step updates of the status give the state machine's outcome, on every error path |
| Importer.ImportRun.Sync | controllers/internal/ops/importer/importer.go:220-295 | the same for the part behind the replication link |
| Importer.ImportRun.Finalize | controllers/internal/ops/importer/importer.go:297-375 | the same for a source that was removed |
| Importer.ExternalImport | controllers/internal/reconcile/phases/external_import.go:12-54 | the record the status phase stores, whether later phases run, and the node afterwards |
| Importer.SettledForever | controllers/internal/ops/importer/importer.go:103-193 | over any chain of calls Completed and Failed never change while address and mode stay the same and no earlier phase aborts |
| Importer.ProceedsOnlyCompleted | controllers/controller.go:190-209 | with a source, later phases run only when the import is completed |
| Importer.RemovedSourceProceeds | controllers/internal/ops/importer/importer.go:297-375 | without one they run only with no record left or a settled one, and a promotion is sent exactly for an import recorded as under way |
| Importer.DetachedIff | controllers/internal/ops/importer/importer.go:311-366 | of the nodes that follow a removed source, a call after which later phases run detaches exactly those whose import is recorded as under way |
| Importer.TimedOutStaysAttached | controllers/internal/ops/importer/importer.go:320-327 | a timed-out import leaves its node attached, and later phases run on it once the source is removed |
| Importer.ChangedStaysAttached | controllers/internal/ops/importer/importer.go:328-332 | so does a sync whose source was changed under way |
| Importer.SurvivesIff | controllers/internal/reconcile/phases/external_import.go:25-27 | a settled record survives a reconcile if and only if no earlier phase aborted it |
| Importer.AbortUndoesCompletion | controllers/internal/reconcile/phases/external_import.go:25-27 | after one aborted reconcile the imported data itself fails the import, and every later reconcile stays blocked |
| Importer.CompletionMeans | controllers/internal/ops/importer/importer.go:249-294 | an import completes only outside live mode, by promoting a node whose INFO showed a caught-up link |
| Importer.CompletesUnsynced | controllers/internal/ops/importer/importer.go:200-218 | a node that followed another master can complete in the call that first points it at the source |
| Importer.CompletionSyncedIff | controllers/internal/ops/importer/importer.go:200-218 | the node promoted follows the source over a caught-up link if and only if it followed the source before the call |
| Importer.SyncingStateIff | controllers/internal/ops/importer/importer.go:108-123 | a sync under way is recorded as in progress if and only if the source or mode did not change during one |
| Importer.ChangedSourceFails | controllers/internal/ops/importer/importer.go:159-173 | after such a change the data already copied fails the new import |
| Importer.FollowingNotFailed | controllers/internal/ops/importer/importer.go:234-247 | one call never fails a live import that follows its source |
| Importer.BrokenLinkTimesOut | controllers/internal/ops/importer/importer.go:220-247 | a link found behind, or a cluster not ready, puts it back under the time limit: a later call can fail it |
| Importer.LiveImportFailsIff | controllers/internal/ops/importer/importer.go:220-275 | over any run a live import that follows its source fails if and only if some stretch of calls that reach the link without finding it caught up and the cluster ready outlasts the time limit of its first call |
| Requeue.RequeueAccumulator.Set | controllers/internal/reconcile/util.go:47-57 | a positive candidate is taken into account whatever came before |
| Requeue.RequeueAccumulator.SetMin | controllers/internal/reconcile/util.go:60-70 | so is a positive floor |
| Requeue.Drive | controllers/internal/reconcile/util.go:41-81 | after any calls the result is the larger of the largest floor and the smallest candidate, or the floor without one |
| Requeue.OrderIrrelevant | controllers/internal/reconcile/util.go:41-81 | neither order nor repetition of the calls matters |
| Requeue.DriveResize | controllers/internal/ops/storage/storage.go:305-367 | after any waits and throttles the delay is the largest throttle, or without one the smallest wait |
| Requeue.ResizeDelayUnique | controllers/internal/ops/storage/storage.go:332-367 | that delay is determined by the sets of waits and throttles |

## Left out

- RollingRun.RollingUpdate: speaks of Redis pods in Sentinel mode, of evicted pods that come back up to date, and of resizes whose request goes with the restart; Sentinel plans are sized by the Redis replica count in the source and are covered only by the one-disruption bound, not by a run.
- Status.ComputeReplicationCondition: messages are kept before rendering, so the test whether a text already contains the source detail is part of the unrendered message.
- Reconcile.ReconcileUpdates: the scale-phase and update-blocked annotations are one success flag; their texts and requeue delays are not modelled.
- Reconcile.TryEvictFormerMaster: promises nothing about other terminating pods, because the source does not look at them.
- SentinelReset.Decide: the requeue hints, conditions, logs and metrics the phase also sets are not modelled.
- ResetTracker.TrackerRoundTrip: the RFC 3339 text of section 5.6 is an abstract codec that is faithful on whole seconds.
- RoleLabels.LabelPhase.Labels: other writers may touch or remove pods but write no role label, and a pod removed during the phase does not come back in it.
- RuntimeConfig.ConfigSync.ApplyRedisRuntime: trimming, the comparison form of a value and what a node prints back are abstract functions, fixed only for whole memory sizes in `SizeKeptIff`, where the node's units are those of the Redis configuration file; nobody else changes the configuration during a sync.
- Eviction.Evict: timeouts are an outcome of the call; metrics and callbacks are left out.
- Importer.ImportRun.Import: message texts, conditions and requeue delays of the import are left out; building the external configuration is one success flag with its host and port.
- ApplySentinelRuntime, `loadFreshnessRecords` and the PVC loop of `EnsureResize`: reading and patching of single objects around the folds modelled here.
- Writing the status (`UpdateStatus`) and its second-precision times: the model stops at the computed status.
- Texts are compared by ASCII case folding only.
- Resource builders, server-side apply trimming, services, topology spread, deep copies: field copying.
- Network clients, TLS, secrets and the AUTH fallback: outcomes of calls.
- Metrics, events, logging, profile selection, reports, start-up and leader election.
- The shell scripts embedded as strings, finalizer polling, PVC cleanup, and jitter.
