/** External import before normal reconciliation (ops/importer/importer.go, reconcile/phases/external_import.go). */
module Importer {
  import opened Base
  import opened Network
  import opened Ordering
  import opened Redis
  import opened Spec

  const MINUTE := 60 * SECOND
  const LIVE := "Live"
  const SNAPSHOT := "Snapshot"

  /** The external source of the spec; an empty mode means Snapshot. */
  datatype Source = Source(address: string, mode: string, abortIfData: Option<bool>, maxDuration: Option<int>)

  /** One call's surroundings: the cluster, its pods, the node behind the bootstrap pod, how every client call
      fares (None is an error), and the clock where the code reads it. INFO shows the node as it is. */
  datatype Call = Call(
    spec: ClusterSpec, source: Option<Source>, pods: seq<Pod>, sentinels: seq<Pod>,
    factory: bool, kube: bool, configOk: bool, host: string, port: int, clientOk: bool, dbSize: Option<int>,
    authOk: bool, node: ReplicationInfo, infoOk: bool, reachable: bool, attach: CallOutcome, promote: CallOutcome,
    startClock: int, checkClock: int, endClock: int)

  /** The record kept in the status, whether later phases must wait, whether an error is returned, the node
      afterwards, and the node as it was when a promotion that reported success was sent to it. */
  datatype Outcome = Outcome(
    record: Option<ImportRecord>, abort: bool, failed: bool, node: ReplicationInfo, promoted: Option<ReplicationInfo>)

  const NO_RECORD := ImportRecord(NoState, "", "", None, None)

  function Clone(record: Option<ImportRecord>): ImportRecord {
    if record.Some? then record.value else NO_RECORD
  }

  // ---- the pieces a call looks at ----

  function ByOrdinal(p: Pod, q: Pod): bool {
    Ordinal(p.name) < Ordinal(q.name)
  }

  function BootstrapPod(pods: seq<Pod>): Option<Pod> {
    if pods == [] then None else Some(SortBy(pods, ByOrdinal)[0])
  }

  /** The bootstrap pod is a listed one of smallest ordinal. */
  lemma BootstrapPodLeast(pods: seq<Pod>)
    requires pods != []
    ensures BootstrapPod(pods).Some? && BootstrapPod(pods).value in pods
    ensures forall p :: p in pods ==> Ordinal(BootstrapPod(pods).value.name) <= Ordinal(p.name)
  {
    var r := SortBy(pods, ByOrdinal);
    SortBySorted(pods, ByOrdinal);
    SameElement(pods, r, r[0]);
    forall p | p in pods ensures Ordinal(r[0].name) <= Ordinal(p.name) {
      SameElement(pods, r, p);
      var k :| 0 <= k < |r| && r[k] == p;
    }
  }

  function SyncMode(s: Source): string {
    if s.mode == "" then SNAPSHOT else s.mode
  }

  function GuardsData(s: Source): bool {
    if s.abortIfData.Some? then s.abortIfData.value else true
  }

  function MaxDuration(s: Source): int {
    if s.maxDuration.Some? && s.maxDuration.value > 0 then s.maxDuration.value else 30 * MINUTE
  }

  /** The spec names another source or mode than the record. */
  predicate Reset(s: Source, prev: ImportRecord) {
    prev.source != s.address || prev.mode != SyncMode(s)
  }

  predicate PodReachable(x: Call) {
    x.factory && x.kube && x.configOk && x.pods != [] && BootstrapPod(x.pods).value.ready && x.clientOk
  }

  predicate FollowsAt(node: ReplicationInfo, host: string, port: int) {
    EqualFold(node.masterHost, host) && node.masterPort == port
  }

  predicate FollowsSource(x: Call) {
    FollowsAt(x.node, x.host, x.port)
  }

  /** A node after a command: a call that fails may have reached it all the same. */
  function Tried(node: ReplicationInfo, effect: ReplicationInfo, outcome: CallOutcome): ReplicationInfo {
    if outcome.FailedUnapplied? then node else effect
  }

  function Distance(a: int, b: int): int {
    if a > b then a - b else b - a
  }

  predicate CaughtUp(info: ReplicationInfo) {
    Lower(info.link) == "up" && !info.syncing && Distance(info.masterOffset, info.replicaOffset) <= 1024
  }

  predicate ClusterReady(x: Call) {
    var want := if x.spec.redisReplicas <= 0 then |x.pods| else x.spec.redisReplicas;
    var count := x.spec.sentinelCount;
    var asked := if count.Some? && count.value > 0 then count.value else |x.sentinels|;
    && Count(x.pods, LivesReady()) >= want > 0
    && (x.spec.mode == SentinelMode && asked > 0 ==> Count(x.sentinels, LivesReady()) >= asked)
  }

  // ---- the state machine ----

  /** The record a call starts from: another source or mode, or no state yet, starts over. */
  function Opened(s: Source, prev: ImportRecord): ImportRecord {
    if Reset(s, prev) || prev.state == NoState then ImportRecord(Pending, s.address, SyncMode(s), None, None)
    else prev
  }

  /** Attaching works: the node already follows the source, or can be told to. */
  predicate CanAttach(x: Call) {
    x.authOk && x.infoOk && (FollowsSource(x) || (x.reachable && x.attach.Done?))
  }

  /** The node once it follows the source; a node told so just now has its link still down. */
  function Linked(x: Call): ReplicationInfo {
    if FollowsSource(x) then x.node else Attached(x.node, x.host, x.port)
  }

  /** The record once the node follows the source. A record that was already in progress keeps its state,
      whatever the start of the call made of it. */
  function Running(x: Call, prev: ImportRecord, entry: ImportRecord): ImportRecord {
    if prev.state != InProgress then entry.(state := InProgress, startedAt := Some(x.startClock))
    else if entry.startedAt.None? then entry.(startedAt := Some(x.startClock))
    else entry
  }

  /** The initial sync took too long; a live import that already follows is exempt. */
  predicate TimedOut(x: Call, s: Source, prev: ImportRecord, running: ImportRecord)
    requires running.startedAt.Some?
  {
    && x.checkClock - running.startedAt.value > MaxDuration(s)
    && !(SyncMode(s) == LIVE && !Reset(s, prev) && prev.state !in {NoState, Pending, InProgress})
  }

  function Waits(record: ImportRecord, node: ReplicationInfo): Outcome {
    Outcome(Some(record), true, false, node, None)
  }

  function Fails(record: ImportRecord, node: ReplicationInfo): Outcome {
    Outcome(Some(record), true, true, node, None)
  }

  /** REPLICAOF NO ONE, and the record it completes if it reports success. */
  function Promote(x: Call, record: ImportRecord, node: ReplicationInfo): (o: Outcome)
    ensures o.record.Some?
  {
    if x.promote.Done? then
      var completed := record.(state := Completed, lastSynced := Some(x.endClock));
      Outcome(Some(completed), false, false, Promoted(node), Some(node))
    else Fails(record, Tried(node, Promoted(node), x.promote))
  }

  /** A call that got as far as the replication link; `node` is the node now, the link is judged from INFO, which
      was read before the node was told to follow. */
  function Follow(x: Call, s: Source, prev: ImportRecord, running: ImportRecord, node: ReplicationInfo): (o: Outcome)
    requires running.startedAt.Some?
    ensures o.record.Some?
  {
    if TimedOut(x, s, prev, running) then Waits(running.(state := Failed), node)
    else if !CaughtUp(x.node) then Waits(running, node)
    else if SyncMode(s) == LIVE then
      Waits(if ClusterReady(x) then running.(state := Following, lastSynced := Some(x.endClock)) else running, node)
    else Promote(x, running, node)
  }

  /** What a call with a source does to the record and the node. */
  function Advance(x: Call, s: Source, prev: ImportRecord): (o: Outcome)
    ensures o.record.Some?
  {
    var entry := Opened(s, prev);
    if !x.factory || !x.kube then Fails(prev, x.node)
    else if !x.configOk then Fails(entry, x.node)
    else if x.pods == [] || !BootstrapPod(x.pods).value.ready then Waits(entry, x.node)
    else if !x.clientOk then Fails(entry, x.node)
    else if entry.state == Pending && GuardsData(s) && x.dbSize.None? then Fails(entry, x.node)
    else if entry.state == Pending && GuardsData(s) && x.dbSize.value > 0 then Waits(entry.(state := Failed), x.node)
    else Continue(x, s, prev, entry)
  }

  /** A pod that may be imported into: a settled import is left alone, any other follows the source. */
  function Continue(x: Call, s: Source, prev: ImportRecord, entry: ImportRecord): (o: Outcome)
    ensures o.record.Some?
  {
    if entry.state == Completed then Outcome(Some(entry), false, false, x.node, None)
    else if entry.state == Failed then Waits(entry, x.node)
    else if CanAttach(x) then Follow(x, s, prev, Running(x, prev, entry), Linked(x))
    else if x.authOk && x.infoOk && x.reachable then Fails(entry, Tried(x.node, Linked(x), x.attach))
    else Fails(entry, x.node)
  }

  /** What a call without a source does: an import recorded as under way is cut over. */
  function CutOver(x: Call, prev: ImportRecord): Outcome {
    match prev.state
    case NoState => Outcome(None, false, false, x.node, None)
    case Pending => Outcome(None, false, false, x.node, None)
    case Completed => Outcome(Some(prev), false, false, x.node, None)
    case Failed => Outcome(Some(prev), false, false, x.node, None)
    case _ =>
      if x.pods == [] then Waits(prev, x.node)
      else if !x.factory || !x.clientOk then Fails(prev, x.node)
      else Promote(x, prev, x.node)
  }

  /** snapshotReadiness. */
  method SnapshotReadiness(x: Call) returns (redisReady: bool, sentinelReady: bool)
    ensures redisReady && sentinelReady <==> ClusterReady(x)
  {
    var desired := x.spec.redisReplicas;
    if desired <= 0 {
      desired := |x.pods|;
    }
    var count := CountIf(x.pods, LivesReady());
    redisReady, sentinelReady := count >= desired && desired > 0, true;
    if x.spec.mode == SentinelMode {
      var want := 0;
      if x.spec.sentinelCount.Some? {
        want := x.spec.sentinelCount.value;
      }
      if want <= 0 {
        want := |x.sentinels|;
      }
      count := CountIf(x.sentinels, LivesReady());
      if want > 0 {
        sentinelReady := count >= want;
      }
    }
  }

  /** The status object a call works on. */
  class ImportRun {
    var record: ImportRecord
    /** The node behind the bootstrap pod. */
    var node: ReplicationInfo
    var promoted: Option<ReplicationInfo>

    constructor (record: Option<ImportRecord>, node: ReplicationInfo)
      ensures this.record == Clone(record) && this.node == node && promoted == None
    {
      this.record, this.node, promoted := Clone(record), node, None;
    }

    ghost function Result(abort: bool, failed: bool): Outcome
      reads this
    {
      Outcome(Some(record), abort, failed, node, promoted)
    }

    /** REPLICAOF NO ONE. */
    method SendNoOne(outcome: CallOutcome) returns (ok: bool)
      requires promoted == None
      modifies `node, `promoted
      ensures ok == outcome.Done?
      ensures node == Tried(old(node), Promoted(old(node)), outcome)
      ensures promoted == if ok then Some(old(node)) else None
    {
      ok := outcome.Done?;
      if ok {
        promoted := Some(node);
      }
      if !outcome.FailedUnapplied? {
        node := Promoted(node);
      }
    }

    /** The record at the start of a call. */
    method Open(s: Source, reset: bool)
      requires reset == Reset(s, record)
      modifies `record
      ensures record == Opened(s, old(record))
    {
      if reset {
        record := record.(state := NoState);
      }
      record := record.(source := s.address, mode := SyncMode(s));
      if record.state == NoState {
        record := record.(state := Pending, startedAt := None, lastSynced := None);
      }
    }

    /** Ensure with a source, up to the replication link. */
    method Import(x: Call, s: Source) returns (abort: bool, failed: bool)
      requires node == x.node && promoted == None
      modifies this
      ensures Result(abort, failed) == Advance(x, s, old(record))
    {
      ghost var prev := record;
      abort, failed := true, true;
      if !x.factory || !x.kube {
        return;
      }
      var prevState, reset := record.state, Reset(s, record);
      Open(s, reset);
      if !x.configOk {
        return;
      }
      var pod := BootstrapPod(x.pods);
      if pod.None? || !pod.value.ready {
        return true, false;
      }
      if !x.clientOk {
        return;
      }
      if record.state == Pending && GuardsData(s) {
        if x.dbSize.None? {
          return;
        }
        if x.dbSize.value > 0 {
          record := record.(state := Failed);
          return true, false;
        }
      }
      if record.state == Completed {
        return false, false;
      }
      if record.state == Failed {
        return true, false;
      }
      if !x.authOk || !x.infoOk {
        return;
      }
      if !FollowsSource(x) {
        if !x.reachable {
          return;
        }
        node := Tried(node, Attached(node, x.host, x.port), x.attach);
        if !x.attach.Done? {
          return;
        }
      }
      abort, failed := Sync(x, s, prevState, reset, prev);
    }

    /** The rest of Ensure, on a node that follows the source. */
    method Sync(x: Call, s: Source, prevState: ImportState, reset: bool, ghost prev: ImportRecord)
      returns (abort: bool, failed: bool)
      requires prevState == prev.state && reset == Reset(s, prev) && record == Opened(s, prev) && promoted == None
      modifies this
      ensures Result(abort, failed) == Follow(x, s, prev, Running(x, prev, old(record)), old(node))
    {
      abort, failed := true, false;
      if prevState != InProgress {
        record := record.(startedAt := Some(x.startClock), state := InProgress);
      }
      if record.startedAt.None? {
        record := record.(startedAt := Some(x.startClock));
      }
      var initialPhase := reset || prevState in {NoState, Pending, InProgress};
      if x.checkClock - record.startedAt.value > MaxDuration(s) {
        var skipTimeout := SyncMode(s) == LIVE && !initialPhase;
        if !skipTimeout {
          record := record.(state := Failed);
          return;
        }
      }
      var info := x.node;
      if Lower(info.link) != "up" || info.syncing || Distance(info.masterOffset, info.replicaOffset) > 1024 {
        return;
      }
      if SyncMode(s) == LIVE {
        var redisReady, sentinelReady := SnapshotReadiness(x);
        if redisReady && sentinelReady {
          record := record.(state := Following, lastSynced := Some(x.endClock));
        }
        return;
      }
      var ok := SendNoOne(x.promote);
      if !ok {
        return true, true;
      }
      record := record.(state := Completed, lastSynced := Some(x.endClock));
      abort := false;
    }

    /** finalizeImport: no source is asked for any more. */
    method Finalize(x: Call) returns (kept: bool, abort: bool, failed: bool)
      requires node == x.node && promoted == None
      modifies this
      ensures Outcome(if kept then Some(record) else None, abort, failed, node, promoted) == CutOver(x, old(record))
    {
      kept, abort, failed := true, false, false;
      if record.state == NoState || record.state == Pending {
        return false, false, false;
      }
      if record.state == Completed || record.state == Failed {
        return;
      }
      var pod := BootstrapPod(x.pods);
      if pod.None? {
        return true, true, false;
      }
      if !x.factory || !x.clientOk {
        return true, true, true;
      }
      var ok := SendNoOne(x.promote);
      if !ok {
        return true, true, true;
      }
      record := record.(state := Completed, lastSynced := Some(x.endClock));
    }
  }

  // ---- one reconcile's phase and the record it leaves in the status ----

  /** Ensure on a record: with or without a source. */
  function Step(x: Call, record: Option<ImportRecord>): Outcome {
    if x.source.Some? then Advance(x, x.source.value, Clone(record)) else CutOver(x, Clone(record))
  }

  /** The record the status phase stores after the import phase, and whether later phases run. An abort set
      before the phase makes it return without a record. */
  function Stored(x: Call, priorAbort: bool, record: Option<ImportRecord>): Option<ImportRecord> {
    if priorAbort then None else Step(x, record).record
  }

  predicate Proceeds(x: Call, priorAbort: bool, record: Option<ImportRecord>) {
    !priorAbort && !Step(x, record).abort && !Step(x, record).failed
  }

  /** The import phase and the status phase after it. */
  method ExternalImport(x: Call, priorAbort: bool, record: Option<ImportRecord>)
    returns (stored: Option<ImportRecord>, proceeds: bool, node: ReplicationInfo)
    ensures stored == Stored(x, priorAbort, record) && proceeds == Proceeds(x, priorAbort, record)
    ensures node == if priorAbort then x.node else Step(x, record).node
  {
    if priorAbort {
      return None, false, x.node;
    }
    var work := new ImportRun(record, x.node);
    var kept, abort, failed := true, true, true;
    match x.source {
      case Some(s) => abort, failed := work.Import(x, s);
      case None => kept, abort, failed := work.Finalize(x);
    }
    stored, proceeds, node := if kept then Some(work.record) else None, !abort && !failed, work.node;
  }

  predicate Settled(record: Option<ImportRecord>) {
    record.Some? && record.value.state in {Completed, Failed}
  }

  /** The call asks for the import the record is about. */
  predicate SameImport(x: Call, record: Option<ImportRecord>) {
    x.source.Some? && record.Some? && !Reset(x.source.value, record.value)
  }

  /** A settled record of the same import is left alone, field by field. */
  lemma SettledKept(x: Call, record: Option<ImportRecord>)
    requires Settled(record) && SameImport(x, record)
    ensures Step(x, record).record == record
  {
  }

  /** With a source, later phases run only once the import is completed, and an error always holds them back. */
  lemma ProceedsOnlyCompleted(x: Call, priorAbort: bool, record: Option<ImportRecord>)
    requires x.source.Some? && Proceeds(x, priorAbort, record)
    ensures Stored(x, priorAbort, record).Some? && Stored(x, priorAbort, record).value.state == Completed
  {
    AdvanceProceeds(x, x.source.value, Clone(record));
  }

  lemma AdvanceProceeds(x: Call, s: Source, prev: ImportRecord)
    requires !Advance(x, s, prev).abort
    ensures Advance(x, s, prev).record.value.state == Completed
  {
    if GetsThrough(x, s, prev) {
      Through(x, s, prev);
    } else {
      Held(x, s, prev);
    }
  }

  /** Once the source is gone later phases run only with no record left, or a settled one; a promotion is sent
      exactly for an import recorded as under way. */
  lemma RemovedSourceProceeds(x: Call, record: Option<ImportRecord>)
    requires x.source.None? && Proceeds(x, false, record)
    ensures Stored(x, false, record).None? || Settled(Stored(x, false, record))
    ensures Step(x, record).promoted.Some? <==> Clone(record).state in {InProgress, Following}
  {
  }

  /** It does not follow that no node is left behind a removed source: of the nodes that follow one, a call after
      which later phases run detaches exactly those whose import is recorded as under way. */
  lemma DetachedIff(x: Call, record: Option<ImportRecord>, host: string, port: int)
    requires x.source.None? && Proceeds(x, false, record)
    requires host != "" && FollowsAt(x.node, host, port)
    ensures !FollowsAt(Step(x, record).node, host, port) <==> Clone(record).state in {InProgress, Following}
  {
    assert |Lower("")| == 0 < |Lower(host)|;
  }

  /** A timed-out import leaves its node attached and its record Failed: once the source is removed, later phases
      run on a node that still follows it. */
  lemma TimedOutStaysAttached(x: Call, y: Call, s: Source, prev: ImportRecord)
    requires GetsThrough(x, s, prev) && TimedOut(x, s, prev, Running(x, prev, Opened(s, prev))) && x.host != ""
    requires y.source.None? && SameUpstream(y.node, Advance(x, s, prev).node)
    ensures Advance(x, s, prev).record.value.state == Failed
    ensures Proceeds(y, false, Advance(x, s, prev).record)
    ensures FollowsAt(Step(y, Advance(x, s, prev).record).node, x.host, x.port)
  {
    Through(x, s, prev);
    LinkedFollows(x);
    DetachedIff(y, Advance(x, s, prev).record, x.host, x.port);
  }

  /** So does a sync whose source was changed under way: its record is Pending. */
  lemma ChangedStaysAttached(x: Call, y: Call, s: Source, prev: ImportRecord)
    requires StillSyncing(x, s, prev) && Reset(s, prev) && prev.state == InProgress && x.host != ""
    requires y.source.None? && SameUpstream(y.node, Advance(x, s, prev).node)
    ensures Advance(x, s, prev).record.value.state == Pending
    ensures Proceeds(y, false, Advance(x, s, prev).record)
    ensures FollowsAt(Step(y, Advance(x, s, prev).record).node, x.host, x.port)
  {
    Through(x, s, prev);
    SyncingStateIff(x, s, prev);
    LinkedFollows(x);
    DetachedIff(y, Advance(x, s, prev).record, x.host, x.port);
  }

  lemma LinkedFollows(x: Call)
    ensures FollowsAt(Linked(x), x.host, x.port)
  {
  }

  // ---- runs ----

  /** One reconcile: its call, whether an earlier phase had aborted, and the record it found. */
  datatype Turn = Turn(x: Call, priorAbort: bool, record: Option<ImportRecord>)

  /** Each reconcile finds the record the one before stored. */
  predicate IsRun(ts: seq<Turn>) {
    forall i :: 0 < i < |ts| ==> ts[i].record == Stored(ts[i - 1].x, ts[i - 1].priorAbort, ts[i - 1].record)
  }

  /** Completed and Failed never change while the same import is asked for and no earlier phase aborts. */
  lemma {:induction false} SettledForever(ts: seq<Turn>, i: nat, j: nat)
    requires IsRun(ts) && i <= j < |ts| && Settled(ts[i].record)
    requires forall k :: i <= k < j ==> SameImport(ts[k].x, ts[i].record) && !ts[k].priorAbort
    ensures ts[j].record == ts[i].record
    decreases j
  {
    if i < j {
      SettledForever(ts, i, j - 1);
      SettledKept(ts[j - 1].x, ts[j - 1].record);
    }
  }

  /** A settled record of the same import survives a reconcile exactly when no earlier phase aborted it. */
  lemma SurvivesIff(x: Call, priorAbort: bool, record: Option<ImportRecord>)
    requires Settled(record) && SameImport(x, record)
    ensures Stored(x, priorAbort, record) == record <==> !priorAbort
  {
    SettledKept(x, record);
  }

  /** A pod that holds data makes an import without a record fail. */
  lemma ForgottenImportFails(x: Call)
    requires x.source.Some? && GuardsData(x.source.value) && PodReachable(x) && x.dbSize.Some? && x.dbSize.value > 0
    ensures Settled(Stored(x, false, None)) && Stored(x, false, None).value.state == Failed
    ensures SameImport(x, Stored(x, false, None)) && !Proceeds(x, false, None)
  {
  }

  /** So one aborted reconcile turns a completed import into a failed one for good: the record is erased, and
      the imported data itself then stops every later reconcile that asks for the same import. */
  lemma AbortUndoesCompletion(ts: seq<Turn>, j: nat)
    requires IsRun(ts) && 2 <= j < |ts| && ts[0].priorAbort
    requires forall k :: 1 <= k < |ts| ==> ts[k].x.source == ts[1].x.source && !ts[k].priorAbort
    requires ts[1].x.source.Some? && GuardsData(ts[1].x.source.value) && PodReachable(ts[1].x)
    requires ts[1].x.dbSize.Some? && ts[1].x.dbSize.value > 0
    ensures ts[j].record.Some? && ts[j].record.value.state == Failed && !Proceeds(ts[j].x, false, ts[j].record)
  {
    ErasedThenFails(ts);
    forall k | 2 <= k <= j ensures SameImport(ts[k].x, ts[2].record) {
      assert ts[k].x.source == ts[1].x.source;
    }
    SettledForever(ts, 2, j);
    FailedHolds(ts[j].x, ts[j].record);
  }

  lemma ErasedThenFails(ts: seq<Turn>)
    requires IsRun(ts) && 2 < |ts| && ts[0].priorAbort && !ts[1].priorAbort
    requires ts[1].x.source.Some? && GuardsData(ts[1].x.source.value) && PodReachable(ts[1].x)
    requires ts[1].x.dbSize.Some? && ts[1].x.dbSize.value > 0
    ensures Settled(ts[2].record) && ts[2].record.value.state == Failed && SameImport(ts[1].x, ts[2].record)
  {
    assert ts[1].record == Stored(ts[0].x, ts[0].priorAbort, ts[0].record);
    assert ts[2].record == Stored(ts[1].x, ts[1].priorAbort, ts[1].record);
    ForgottenImportFails(ts[1].x);
  }

  /** A failed import holds later phases back. */
  lemma FailedHolds(x: Call, record: Option<ImportRecord>)
    requires SameImport(x, record) && record.value.state == Failed
    ensures !Proceeds(x, false, record)
  {
  }

  // ---- what the states mean ----

  /** A call that gets as far as the replication link. */
  predicate GetsThrough(x: Call, s: Source, prev: ImportRecord) {
    && PodReachable(x) && CanAttach(x) && Opened(s, prev).state !in {Completed, Failed}
    && (Opened(s, prev).state == Pending && GuardsData(s) ==> x.dbSize.Some? && x.dbSize.value <= 0)
  }

  lemma Through(x: Call, s: Source, prev: ImportRecord)
    requires GetsThrough(x, s, prev)
    ensures Advance(x, s, prev) == Follow(x, s, prev, Running(x, prev, Opened(s, prev)), Linked(x))
  {
  }

  /** Any other call promotes no node, moves the record at most to Failed over data it found, and lets later phases
      run only when all was done before. */
  lemma Held(x: Call, s: Source, prev: ImportRecord)
    requires !GetsThrough(x, s, prev)
    ensures HeldOutcome(x, prev, Opened(s, prev), Advance(x, s, prev))
  {
    if !CanAttach(x) || Opened(s, prev).state in {Completed, Failed} {
      HeldAtLink(x, s, prev, Opened(s, prev));
    }
  }

  lemma HeldAtLink(x: Call, s: Source, prev: ImportRecord, entry: ImportRecord)
    requires !CanAttach(x) || entry.state in {Completed, Failed}
    ensures HeldOutcome(x, prev, entry, Continue(x, s, prev, entry))
  {
  }

  predicate HeldOutcome(x: Call, prev: ImportRecord, entry: ImportRecord, o: Outcome) {
    && o.promoted == None && (o.node == x.node || o.node == Linked(x))
    && o.record.Some?
    && (o.record.value == prev || o.record.value == entry || (entry.state == Pending && o.record.value.state == Failed))
    && (!o.abort ==> entry.state == Completed && o.record.value == entry)
  }

  /** An import completes by promoting a node whose INFO showed a link that had caught up. */
  lemma CompletionMeans(x: Call, s: Source, prev: ImportRecord)
    requires Opened(s, prev).state != Completed && !Advance(x, s, prev).abort
    ensures SyncMode(s) != LIVE && CaughtUp(x.node)
    ensures Advance(x, s, prev).promoted == Some(Linked(x)) && Advance(x, s, prev).node == Promoted(Linked(x))
  {
    if GetsThrough(x, s, prev) {
      Through(x, s, prev);
    } else {
      Held(x, s, prev);
    }
  }

  const KV := ClusterSpec(Cluster("kv", "ns"), 1, Standalone, 1, None, "", None, map[], map[], map[], map[],
                          false, None, false, false, 6379)

  const KV0 := Pod("kv-0", "", true, false, Master, 0, "", "", [], map[])

  /** A call on one ready pod where everything works. */
  function Smooth(mode: string, info: ReplicationInfo, clock: int): Call {
    Call(KV, Some(Source("redis://src", mode, None, None)), [KV0], [], true, true, true, "src", 6379, true, Some(0),
         true, info, true, true, Done, Done, clock, clock, clock)
  }

  lemma SmoothReaches(mode: string, info: ReplicationInfo, clock: int)
    ensures PodReachable(Smooth(mode, info, clock)) && ClusterReady(Smooth(mode, info, clock))
  {
    var x := Smooth(mode, info, clock);
    BootstrapPodLeast(x.pods);
    assert x.pods[..0] == [];
    assert LivesReady()(KV0);
    assert Count(x.pods, LivesReady()) == 1;
  }

  /** INFO is read before REPLICAOF, so a node that followed some other master in sync completes an import in
      the very call that first points it at the source. */
  lemma CompletesUnsynced()
    ensures exists x: Call, s: Source ::
              GetsThrough(x, s, NO_RECORD) && !FollowsSource(x) && !Advance(x, s, NO_RECORD).abort
  {
    var info := ReplicationInfo("slave", "old", 6379, "up", 0, false, 7, 7);
    var x := Smooth("", info, 0);
    var s := x.source.value;
    SmoothReaches("", info, 0);
    assert CaughtUp(info) by { assert Lower("up") == "up"; }
    assert !FollowsSource(x) by { assert Lower("old")[0] == 'o' && Lower("src")[0] == 's'; }
    assert GetsThrough(x, s, NO_RECORD);
    Through(x, s, NO_RECORD);
  }

  /** The node an import promotes really follows the source over a caught-up link exactly when it followed the
      source before the completing call: one told to follow in that very call has not copied anything yet. */
  lemma CompletionSyncedIff(x: Call, s: Source, prev: ImportRecord)
    requires Opened(s, prev).state != Completed && !Advance(x, s, prev).abort
    ensures
      var promoted := Advance(x, s, prev).promoted;
      promoted.Some? && (FollowsAt(promoted.value, x.host, x.port) && CaughtUp(promoted.value) <==> FollowsSource(x))
  {
    CompletionMeans(x, s, prev);
    assert Lower("down")[0] == 'd';
  }

  /** A call that attached and is still waiting for the link. */
  predicate StillSyncing(x: Call, s: Source, prev: ImportRecord) {
    && GetsThrough(x, s, prev) && !CaughtUp(x.node)
    && !TimedOut(x, s, prev, Running(x, prev, Opened(s, prev)))
  }

  /** The record shows the sync as in progress, except when the source or mode changed during a sync. */
  lemma SyncingStateIff(x: Call, s: Source, prev: ImportRecord)
    requires StillSyncing(x, s, prev)
    ensures Advance(x, s, prev).record.value.state == InProgress <==> !(Reset(s, prev) && prev.state == InProgress)
    ensures Reset(s, prev) && prev.state == InProgress ==> Advance(x, s, prev).record.value.state == Pending
  {
    Through(x, s, prev);
  }

  /** After such a change the data already copied fails the new import. */
  lemma ChangedSourceFails(x: Call, y: Call, s: Source, prev: ImportRecord)
    requires StillSyncing(x, s, prev) && Reset(s, prev) && prev.state == InProgress
    requires PodReachable(y) && GuardsData(s) && y.dbSize.Some? && y.dbSize.value > 0
    ensures Advance(y, s, Advance(x, s, prev).record.value).record.value.state == Failed
  {
    SyncingStateIff(x, s, prev);
  }

  /** One call never fails a live import that follows its source. */
  lemma FollowingNotFailed(x: Call, s: Source, prev: ImportRecord)
    requires prev.state == Following && SyncMode(s) == LIVE && !Reset(s, prev)
    ensures Advance(x, s, prev).record.value.state in {Following, InProgress}
  {
    if GetsThrough(x, s, prev) {
      Through(x, s, prev);
    } else {
      Held(x, s, prev);
    }
  }

  /** A call that finds the link behind, or the cluster not ready, moves it back to in-progress, where the time
      limit applies again: a later call can fail it. */
  lemma BrokenLinkTimesOut(x: Call, y: Call, s: Source, prev: ImportRecord)
    requires prev.state == Following && SyncMode(s) == LIVE && !Reset(s, prev)
    requires Reaches(x) && !Good(x)
    requires Reaches(y) && y.checkClock - x.startClock > MaxDuration(s)
    ensures Advance(y, s, Advance(x, s, prev).record.value).record.value.state == Failed
  {
    LiveStep(x, s, prev);
    LiveStep(y, s, Advance(x, s, prev).record.value);
  }

  // ---- how long a live import follows ----

  /** The call gets to the replication link of an import under way. */
  predicate Reaches(x: Call) {
    PodReachable(x) && CanAttach(x)
  }

  /** The link has caught up and the cluster is ready. */
  predicate Good(x: Call) {
    CaughtUp(x.node) && ClusterReady(x)
  }

  /** One call on a live import under way. */
  lemma LiveStep(x: Call, s: Source, prev: ImportRecord)
    requires SyncMode(s) == LIVE && !Reset(s, prev) && prev.state in {Following, InProgress}
    requires prev.state == InProgress ==> prev.startedAt.Some?
    ensures var next := Advance(x, s, prev).record.value;
            && !Reset(s, next)
            && (!Reaches(x) ==> next == prev)
            && (Reaches(x) && prev.state == Following ==>
                  next.startedAt == Some(x.startClock) && next.state == if Good(x) then Following else InProgress)
            && (Reaches(x) && prev.state == InProgress ==>
                  next.startedAt == prev.startedAt &&
                  next.state == if x.checkClock - prev.startedAt.value > MaxDuration(s) then Failed
                                else if Good(x) then Following else InProgress)
  {
    if Reaches(x) {
      Through(x, s, prev);
    } else {
      Held(x, s, prev);
    }
  }

  /** The start of the bad stretch that is open after a call, given the one open before. */
  function NextSince(x: Call, since: Option<int>): Option<int> {
    if !Reaches(x) then since
    else if Good(x) then None
    else if since.Some? then since
    else Some(x.startClock)
  }

  /** The call reaches the link later than the time limit after the open stretch began. */
  predicate Late(x: Call, s: Source, since: Option<int>) {
    Reaches(x) && since.Some? && x.checkClock - since.value > MaxDuration(s)
  }

  /** Since when, before turn k, the calls that reach the link have found it behind or the cluster not ready,
      without a good one in between; judged from the surroundings alone. */
  function BadSince(ts: seq<Turn>, k: nat): Option<int>
    requires k <= |ts|
  {
    if k == 0 then None else NextSince(ts[k - 1].x, BadSince(ts, k - 1))
  }

  predicate Overdue(ts: seq<Turn>, s: Source, k: nat) {
    k < |ts| && Late(ts[k].x, s, BadSince(ts, k))
  }

  /** A run of one live import that starts while it follows its source. */
  predicate LiveRun(ts: seq<Turn>, s: Source) {
    && IsRun(ts) && |ts| > 0 && SyncMode(s) == LIVE
    && (forall k :: 0 <= k < |ts| ==> ts[k].x.source == Some(s) && !ts[k].priorAbort)
    && ts[0].record.Some? && ts[0].record.value.state == Following && !Reset(s, ts[0].record.value)
  }

  /** The record of an import under way shows whether a bad stretch is open and when it began. */
  predicate Tracks(record: ImportRecord, since: Option<int>) {
    if since.None? then record.state == Following else record.state == InProgress && record.startedAt == since
  }

  lemma TrackStep(x: Call, s: Source, prev: ImportRecord, since: Option<int>)
    requires SyncMode(s) == LIVE && !Reset(s, prev) && Tracks(prev, since)
    ensures var next := Advance(x, s, prev).record.value;
            && !Reset(s, next)
            && (if Late(x, s, since) then next.state == Failed else Tracks(next, NextSince(x, since)))
  {
    LiveStep(x, s, prev);
  }

  /** Before any overdue turn the record tracks the stretches, behind one it is Failed. */
  ghost predicate Tells(ts: seq<Turn>, s: Source, n: nat)
    requires n < |ts|
  {
    && ts[n].record.Some? && !Reset(s, ts[n].record.value)
    && if exists k :: 0 <= k < n && Overdue(ts, s, k) then ts[n].record.value.state == Failed
       else Tracks(ts[n].record.value, BadSince(ts, n))
  }

  lemma TellsStep(ts: seq<Turn>, s: Source, n: nat)
    requires LiveRun(ts, s) && n + 1 < |ts| && Tells(ts, s, n)
    ensures Tells(ts, s, n + 1)
  {
    var t, late := ts[n], exists k :: 0 <= k < n && Overdue(ts, s, k);
    assert t.x.source == Some(s) && ts[n + 1].record == Stored(t.x, false, t.record);
    if late {
      SettledKept(t.x, t.record);
      var k :| 0 <= k < n && Overdue(ts, s, k);
      assert 0 <= k < n + 1 && Overdue(ts, s, k);
    } else {
      TrackStep(t.x, s, t.record.value, BadSince(ts, n));
      assert (exists k :: 0 <= k < n + 1 && Overdue(ts, s, k)) <==> Overdue(ts, s, n);
    }
  }

  lemma {:induction false} LiveTells(ts: seq<Turn>, s: Source, n: nat)
    requires LiveRun(ts, s) && n < |ts|
    ensures Tells(ts, s, n)
  {
    if n > 0 {
      LiveTells(ts, s, n - 1);
      TellsStep(ts, s, n - 1);
    }
  }

  /** A live import that follows its source fails at some point of a run if and only if some stretch of calls that
      reach the link without finding it caught up and the cluster ready is not over within the time limit of its
      first call. */
  lemma LiveImportFailsIff(ts: seq<Turn>, s: Source, n: nat)
    requires LiveRun(ts, s) && n < |ts|
    ensures ts[n].record.Some?
    ensures ts[n].record.value.state == Failed <==> exists k :: 0 <= k < n && Overdue(ts, s, k)
  {
    LiveTells(ts, s, n);
  }
}
