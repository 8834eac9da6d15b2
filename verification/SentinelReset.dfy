/** The Sentinel phase: quorum check, loss tracking and reset rounds (reconcile/phases/sentinel.go). */
module SentinelReset {
  import opened Base
  import opened Ordering
  import opened Topology
  import opened ResetTracker
  import opened Spec
  import Int64

  const WINDOW := 30 * SECOND
  const COOLDOWN_SUCCESS := 120 * SECOND
  const COOLDOWN_FAILURE := 45 * SECOND
  const MAX_ROUNDS := 3

  /** What a ready Sentinel says when asked for quorum. */
  datatype Probe = Reached | NotReached | NoQuorum | ProbeError

  /** One reconcile's surroundings: the Sentinel pods, how each answers, and the clock at its two readings. */
  datatype Look = Look(
    pods: PodList, count: Option<int>, factory: bool, probe: string -> Probe, resetOk: string -> bool,
    needReset: bool, failover: bool, clock0: nat, clock1: nat)

  /** The clock is past the first second of year one and does not run backwards within a reconcile. */
  predicate SaneClock(look: Look) {
    SECOND <= look.clock0 <= look.clock1
  }

  function Target(look: Look): (n: int)
    ensures n >= 1
  {
    SentinelsWanted(look.count) / 2 + 1
  }

  function Says(look: Look, answer: Probe): Pod -> bool {
    (p: Pod) => p.ready && look.probe(p.name) == answer
  }

  function Ready(look: Look): nat {
    Count(look.pods, IsReady())
  }

  /** Enough ready Sentinels confirm the quorum and none fails to answer. */
  predicate Quorate(look: Look) {
    && look.factory && Count(look.pods, Says(look, Reached)) >= Target(look)
    && Count(look.pods, Says(look, ProbeError)) == 0
  }

  // ---- the quorum check ----

  lemma {:induction false} CountInsert<T>(s: seq<T>, x: T, less: (T, T) -> bool, f: T -> bool)
    ensures Count(Insert(s, x, less), f) == Count(s, f) + if f(x) then 1 else 0
  {
    if s != [] && less(x, s[|s| - 1]) {
      var n := |s| - 1;
      CountInsert(s[..n], x, less, f);
      assert (Insert(s[..n], x, less) + [s[n]])[..|Insert(s[..n], x, less)|] == Insert(s[..n], x, less);
    } else {
      assert (s + [x])[..|s|] == s;
    }
  }

  /** Sorting does not change how many elements qualify. */
  lemma {:induction false} CountSort<T>(s: seq<T>, less: (T, T) -> bool, f: T -> bool)
    ensures Count(SortBy(s, less), f) == Count(s, f)
  {
    if s != [] {
      var n := |s| - 1;
      CountSort(s[..n], less, f);
      CountInsert(SortBy(s[..n], less), s[n], less, f);
    }
  }

  /** Answers of the ready pods, by kind. */
  datatype Tally = Tally(ready: nat, ok: nat, noQuorum: nat, errors: nat)

  function TallyOf(look: Look, pods: seq<Pod>): Tally {
    Tally(Count(pods, IsReady()), Count(pods, Says(look, Reached)),
          Count(pods, Says(look, NoQuorum)), Count(pods, Says(look, ProbeError)))
  }

  lemma TallySort(look: Look)
    ensures TallyOf(look, SortedPodsByName(look.pods)) == TallyOf(look, look.pods)
  {
    CountSort(look.pods, ByName, IsReady());
    CountSort(look.pods, ByName, Says(look, Reached));
    CountSort(look.pods, ByName, Says(look, NoQuorum));
    CountSort(look.pods, ByName, Says(look, ProbeError));
  }

  /** A confirming pod is a ready pod. */
  lemma {:induction false} ConfirmingAreReady(look: Look, pods: seq<Pod>, answer: Probe)
    ensures Count(pods, Says(look, answer)) <= Count(pods, IsReady())
  {
    if pods != [] {
      ConfirmingAreReady(look, pods[..|pods| - 1], answer);
    }
  }

  /** Asks every ready pod of a list. */
  method Ask(look: Look, pods: seq<Pod>) returns (t: Tally)
    ensures t == TallyOf(look, pods)
  {
    t := Tally(0, 0, 0, 0);
    for i := 0 to |pods|
      invariant t == TallyOf(look, pods[..i])
    {
      assert pods[..i + 1][..i] == pods[..i];
      if pods[i].ready {
        t := t.(ready := t.ready + 1);
        match look.probe(pods[i].name) {
          case Reached => t := t.(ok := t.ok + 1);
          case NoQuorum => t := t.(noQuorum := t.noQuorum + 1);
          case ProbeError => t := t.(errors := t.errors + 1);
          case NotReached =>
        }
      }
    }
    assert pods[..|pods|] == pods;
  }

  /** HasSentinelQuorum, with the caller's reading of its error: any failed call spoils the check. */
  method HasSentinelQuorum(look: Look) returns (ok: bool, ready: nat, noQuorum: nat)
    ensures ok <==> Quorate(look)
    ensures look.factory ==> ready == Ready(look) && noQuorum == Count(look.pods, Says(look, NoQuorum))
  {
    if !look.factory {
      return false, 0, 0;
    }
    TallySort(look);
    var t := Ask(look, SortedPodsByName(look.pods));
    ConfirmingAreReady(look, look.pods, Reached);
    ok, ready, noQuorum := false, t.ready, t.noQuorum;
    if ready > 0 && t.ok >= Target(look) {
      ok := t.errors == 0;
    }
  }

  // ---- one reset round ----

  function ResetOn(look: Look): Pod -> bool {
    (p: Pod) => p.ready && look.resetOk(p.name)
  }

  /** In name order the first pod that qualifies has the least name of all that do. */
  lemma FirstOfSorted(pods: PodList, f: Pod -> bool, i: nat)
    requires i < |pods| && f(SortedPodsByName(pods)[i])
    requires forall j :: 0 <= j < i ==> !f(SortedPodsByName(pods)[j])
    ensures SortedPodsByName(pods)[i] in pods
    ensures forall p :: p in pods && f(p) && p.name != SortedPodsByName(pods)[i].name ==>
              Less(SortedPodsByName(pods)[i].name, p.name)
  {
    var ordered := SortedPodsByName(pods);
    SortedDistinct(pods);
    NameOrderWeak(pods);
    SortBySorted(pods, ByName);
    forall p | p in pods && f(p) && p.name != ordered[i].name ensures Less(ordered[i].name, p.name) {
      var k :| 0 <= k < |ordered| && ordered[k] == p;
      assert i < k && !ByName(ordered[k], ordered[i]);
      LessConnected(ordered[i].name, p.name);
    }
  }

  /** If no pod of the sorted list qualifies, none does. */
  lemma NoneOfSorted(pods: PodList, f: Pod -> bool)
    requires forall j :: 0 <= j < |pods| ==> !f(SortedPodsByName(pods)[j])
    ensures forall p :: p in pods ==> !f(p)
  {
    SortedDistinct(pods);
    forall p | p in pods ensures !f(p) {
      var k :| 0 <= k < |pods| && SortedPodsByName(pods)[k] == p;
    }
  }

  /** IssueSentinelReset: tries the ready pods in name order until one RESET succeeds. */
  method IssueSentinelReset(look: Look) returns (done: Option<string>, calls: seq<string>)
    ensures done.Some? <==> exists p :: p in look.pods && ResetOn(look)(p)
    ensures forall i :: 0 <= i < |calls| ==>
                (look.resetOk(calls[i]) <==> done == Some(calls[i])) && (done == Some(calls[i]) ==> i == |calls| - 1)
    ensures done.Some? ==> calls != [] && calls[|calls| - 1] == done.value
    ensures done.Some? ==> forall p :: p in look.pods && ResetOn(look)(p) && p.name != done.value ==>
              Less(done.value, p.name)
  {
    var ordered := SortedPodsByName(look.pods);
    done, calls := None, [];
    for i := 0 to |ordered|
      invariant done.None?
      invariant forall j :: 0 <= j < i ==> !ResetOn(look)(ordered[j])
      invariant forall j :: 0 <= j < |calls| ==> !look.resetOk(calls[j])
    {
      if ordered[i].ready {
        calls := calls + [ordered[i].name];
        if look.resetOk(ordered[i].name) {
          done := Some(ordered[i].name);
          FirstOfSorted(look.pods, ResetOn(look), i);
          return;
        }
      }
    }
    NoneOfSorted(look.pods, ResetOn(look));
  }

  // ---- one reconcile ----

  datatype Round = NoRound | LossRound(done: Option<string>) | TopologyRound(done: Option<string>)

  /** A reset may be sent at all: clients and enough ready pods exist and no failover is running. */
  predicate MayReset(look: Look) {
    look.factory && Ready(look) >= Target(look) && !look.failover
  }

  function CooldownAfter(now: nat, done: Option<string>): nat {
    now + if done.Some? then COOLDOWN_SUCCESS else COOLDOWN_FAILURE
  }

  /** When the current loss began, as this reconcile sees it. */
  function LossStart(look: Look, before: Tracker): nat {
    if before.lossSince == 0 then Normalize(look.clock0) else before.lossSince
  }

  predicate WindowOver(look: Look, before: Tracker) {
    Normalize(look.clock1) >= LossStart(look, before) + WINDOW
  }

  /** A reconcile without quorum: the loss keeps its start until a round moves it, a round needs a full window
      and a spare attempt, and the cooldown never holds it back. */
  predicate LossStep(look: Look, before: Tracker, after: Tracker, round: Round) {
    var now := Normalize(look.clock1);
    var due := MayReset(look) && WindowOver(look, before);
    && !round.TopologyRound?
    && (round.LossRound? <==> due && before.attempts < MAX_ROUNDS)
    && after.attempts == before.attempts + (if round.LossRound? then 1 else 0)
    && after.lossSince == (if round.LossRound? then now else LossStart(look, before))
    && after.cooldownUntil ==
       if round.LossRound? then CooldownAfter(now, round.done) else if due then now + COOLDOWN_FAILURE else 0
  }

  /** A reconcile with quorum: the loss is over, and a wanted reset is sent unless the cooldown still runs. */
  predicate QuorumStep(look: Look, before: Tracker, after: Tracker, round: Round) {
    var now := Normalize(look.clock1);
    && !round.LossRound?
    && after.lossSince == 0 && after.attempts == 0
    && (round.TopologyRound? <==>
        (look.needReset || before.lossSince != 0) && MayReset(look) && before.cooldownUntil <= now)
    && after.cooldownUntil ==
       if round.TopologyRound? then CooldownAfter(now, round.done)
       else if before.cooldownUntil <= Normalize(look.clock0) then 0 else before.cooldownUntil
  }

  predicate Step(look: Look, before: Tracker, after: Tracker, round: Round) {
    if Quorate(look) then QuorumStep(look, before, after, round) else LossStep(look, before, after, round)
  }

  /** The decision part of the phase, on the tracker just read. */
  method Decide(look: Look, before: Tracker) returns (after: Tracker, round: Round)
    requires SaneClock(look)
    ensures Step(look, before, after, round)
  {
    var resetTimestamp := Normalize(look.clock0);
    after, round := before, NoRound;
    if after.cooldownUntil != 0 && resetTimestamp >= after.cooldownUntil {
      after := after.(cooldownUntil := 0);
    }
    var ready := CountIf(look.pods, IsReady());
    var quorumOk, _, _ := HasSentinelQuorum(look);
    var needReset := look.needReset;
    if !quorumOk {
      after := after.(cooldownUntil := 0);
      if after.lossSince == 0 {
        after := after.(lossSince := resetTimestamp);
      }
    } else {
      needReset := needReset || before.lossSince != 0;
      after := after.(lossSince := 0, attempts := 0);
    }
    if (!quorumOk || needReset) && look.factory && |look.pods| > 0 && !look.failover {
      var now := Normalize(look.clock1);
      if after.cooldownUntil != 0 && after.cooldownUntil > now {
      } else if ready < Target(look) {
      } else if !quorumOk {
        after, round := LossReset(look, after, now);
      } else {
        var done, _ := IssueSentinelReset(look);
        after, round := after.(cooldownUntil := CooldownAfter(now, done)), TopologyRound(done);
      }
    }
  }

  /** The quorum-loss branch once enough Sentinels are ready. */
  method LossReset(look: Look, t: Tracker, now: nat) returns (after: Tracker, round: Round)
    requires now == Normalize(look.clock1) && t.lossSince != 0 && t.cooldownUntil == 0
    ensures now < t.lossSince + WINDOW ==> after == t && round == NoRound
    ensures now >= t.lossSince + WINDOW && t.attempts >= MAX_ROUNDS ==>
              after == t.(cooldownUntil := now + COOLDOWN_FAILURE) && round == NoRound
    ensures now >= t.lossSince + WINDOW && t.attempts < MAX_ROUNDS ==>
              round.LossRound? && after == Tracker(now, t.attempts + 1, CooldownAfter(now, round.done))
  {
    after, round := t, NoRound;
    var elapsed := now - after.lossSince;
    if elapsed < WINDOW {
    } else if after.attempts >= MAX_ROUNDS {
      after := after.(cooldownUntil := Normalize(now + COOLDOWN_FAILURE));
    } else {
      var done, _ := IssueSentinelReset(look);
      after := after.(attempts := after.attempts + 1);
      after := after.(lossSince := now);
      if done.None? {
        after := after.(cooldownUntil := Normalize(now + COOLDOWN_FAILURE));
      } else {
        after := after.(cooldownUntil := Normalize(now + COOLDOWN_SUCCESS));
      }
      round := LossRound(done);
    }
  }

  /** What one reconcile read, decided and left in memory. */
  datatype Visit = Visit(look: Look, before: Tracker, after: Tracker, round: Round)

  /** The Sentinel phase of one reconcile: read, decide, write. */
  method Sentinel(cr: ClusterObject, c: Codec, look: Look, patchOk: bool) returns (v: Visit, wrote: bool)
    requires Faithful(c) && SaneClock(look)
    modifies cr
    ensures v.look == look && v.before == old(Read(c, cr.annotations))
    ensures Step(look, v.before, v.after, v.round)
    ensures patchOk ==> wrote
    ensures Read(c, cr.annotations) == if wrote then Stored(v.before, v.after) else v.before
  {
    var before := Read(c, cr.annotations);
    var after, round := Decide(look, before);
    v := Visit(look, before, after, round);
    assert Int64.Fits(after.attempts);
    wrote := cr.Write(c, after, patchOk);
  }

  // ---- whole runs ----

  predicate ClockMoves(a: Look, b: Look) {
    a.clock1 <= b.clock0
  }

  predicate Follows(a: Visit, b: Visit) {
    b.before == Stored(a.before, a.after) && ClockMoves(a.look, b.look)
  }

  /** Reconciles one after the other: every write succeeded, so each reads what the previous one stored. */
  predicate IsRun(vs: seq<Visit>) {
    && (forall i :: 0 <= i < |vs| ==> SaneClock(vs[i].look) && Step(vs[i].look, vs[i].before, vs[i].after, vs[i].round))
    && (forall i :: 0 < i < |vs| ==> Follows(vs[i - 1], vs[i]))
  }

  lemma RunGrows(vs: seq<Visit>, v: Visit)
    requires IsRun(vs) && SaneClock(v.look) && Step(v.look, v.before, v.after, v.round)
    requires vs != [] ==> Follows(vs[|vs| - 1], v)
    ensures IsRun(vs + [v])
  {
    var all := vs + [v];
    forall i | 0 < i < |all| ensures Follows(all[i - 1], all[i]) {
      if i < |vs| { assert Follows(vs[i - 1], vs[i]); }
    }
  }

  /** Repeated reconciles of one object make such a run. */
  method Watch(cr: ClusterObject, c: Codec, looks: seq<Look>) returns (vs: seq<Visit>)
    requires Faithful(c)
    requires forall i :: 0 <= i < |looks| ==> SaneClock(looks[i])
    requires forall i :: 0 < i < |looks| ==> ClockMoves(looks[i - 1], looks[i])
    modifies cr
    ensures |vs| == |looks| && IsRun(vs)
    ensures forall i :: 0 <= i < |vs| ==> vs[i].look == looks[i]
  {
    vs := [];
    for k := 0 to |looks|
      invariant |vs| == k && IsRun(vs)
      invariant forall i :: 0 <= i < k ==> vs[i].look == looks[i]
      invariant k > 0 ==> Read(c, cr.annotations) == Stored(vs[k - 1].before, vs[k - 1].after)
    {
      var v, wrote := Sentinel(cr, c, looks[k], true);
      assert k > 0 ==> Follows(vs[k - 1], v);
      RunGrows(vs, v);
      vs := vs + [v];
    }
  }

  function IsLossRound(): Visit -> bool {
    (v: Visit) => v.round.LossRound?
  }

  function Now(v: Visit): nat {
    Normalize(v.look.clock1)
  }

  lemma SubRun(vs: seq<Visit>, i: nat, j: nat)
    requires IsRun(vs) && i <= j <= |vs|
    ensures IsRun(vs[i..j])
  {
    forall k | 0 < k < j - i ensures Follows(vs[i..j][k - 1], vs[i..j][k]) {
      assert Follows(vs[i + k - 1], vs[i + k]);
    }
  }

  /** Within one loss the attempts counter counts the rounds, and stops them at three. */
  lemma {:induction false} LossCounted(vs: seq<Visit>)
    requires IsRun(vs) && |vs| > 0
    requires forall i :: 0 <= i < |vs| ==> !Quorate(vs[i].look)
    ensures vs[|vs| - 1].after.attempts == vs[0].before.attempts + Count(vs, IsLossRound())
    ensures Count(vs, IsLossRound()) > 0 ==> vs[|vs| - 1].after.attempts <= MAX_ROUNDS
  {
    var n := |vs| - 1;
    assert Step(vs[n].look, vs[n].before, vs[n].after, vs[n].round);
    if n == 0 {
      assert vs[..n] == [];
    } else {
      SubRun(vs, 0, n);
      assert vs[0..n] == vs[..n];
      LossCounted(vs[..n]);
      assert Follows(vs[n - 1], vs[n]);
    }
  }

  /** An unbroken stretch of reconciles without quorum has at most three reset rounds. */
  lemma AtMostThreeRounds(vs: seq<Visit>, i: nat, j: nat)
    requires IsRun(vs) && i <= j <= |vs|
    requires forall k :: i <= k < j ==> !Quorate(vs[k].look)
    ensures Count(vs[i..j], IsLossRound()) <= MAX_ROUNDS
  {
    if i < j {
      SubRun(vs, i, j);
      LossCounted(vs[i..j]);
    }
  }

  lemma {:induction false} ClockOrder(vs: seq<Visit>, i: nat, j: nat)
    requires IsRun(vs) && i < j < |vs|
    ensures vs[i].look.clock1 <= vs[j].look.clock0
    ensures Now(vs[i]) <= Normalize(vs[j].look.clock0) <= Now(vs[j])
    decreases j
  {
    assert Follows(vs[j - 1], vs[j]) && SaneClock(vs[j].look);
    if i < j - 1 {
      ClockOrder(vs, i, j - 1);
    }
    NormalizeKeepsBounds(vs[j].look.clock0, Now(vs[i]));
    NormalizeKeepsBounds(vs[j].look.clock1, Normalize(vs[j].look.clock0));
  }

  /** After a round no later reconcile dates the loss before that round. */
  lemma {:induction false} LossRestarts(vs: seq<Visit>, i: nat, j: nat)
    requires IsRun(vs) && i < j < |vs| && vs[i].round.LossRound?
    ensures vs[j].before.lossSince == 0 || vs[j].before.lossSince >= Now(vs[i])
    decreases j
  {
    var p := vs[j - 1];
    assert Follows(p, vs[j]) && Step(p.look, p.before, p.after, p.round);
    if i < j - 1 {
      LossRestarts(vs, i, j - 1);
      ClockOrder(vs, i, j - 1);
    }
    if p.after.lossSince != 0 {
      NormalizeKeepsBounds(p.after.lossSince, Now(vs[i]));
    }
  }

  /** Any two quorum-loss rounds of a run are at least thirty whole seconds apart. */
  lemma LossRoundsSpaced(vs: seq<Visit>, i: nat, j: nat)
    requires IsRun(vs) && i < j < |vs| && vs[i].round.LossRound? && vs[j].round.LossRound?
    ensures Now(vs[j]) >= Now(vs[i]) + WINDOW
  {
    LossRestarts(vs, i, j);
    ClockOrder(vs, i, j);
    assert Step(vs[j].look, vs[j].before, vs[j].after, vs[j].round);
  }

  /** A deadline is on record, or has passed. */
  predicate Pending(v: Visit, until: nat) {
    v.before.cooldownUntil >= until || Normalize(v.look.clock0) >= until
  }

  predicate StillPending(v: Visit, until: nat) {
    v.after.cooldownUntil >= until || Now(v) >= until
  }

  /** The decision keeps every cooldown that has not run out yet. */
  ghost predicate KeepsCooldowns(look: Look) {
    forall before, after, round :: Step(look, before, after, round) && before.cooldownUntil > Normalize(look.clock1) ==>
      after.cooldownUntil == before.cooldownUntil
  }

  /** A cooldown that has not run out survives a reconcile exactly when that reconcile has quorum; without quorum it
      is forgotten whether or not a round is due. */
  lemma CooldownSurvivesIff(look: Look)
    requires SaneClock(look)
    ensures KeepsCooldowns(look) <==> Quorate(look)
  {
    var now := Normalize(look.clock1);
    NormalizeKeepsBounds(look.clock1, Normalize(look.clock0));
    if !Quorate(look) {
      var before := Tracker(0, 0, now + 1);
      var due := MayReset(look) && WindowOver(look, before);
      var round := if due then LossRound(None) else NoRound;
      var after := Tracker(if due then now else LossStart(look, before), if due then 1 else 0,
                           if due then CooldownAfter(now, None) else 0);
      assert Step(look, before, after, round) && after.cooldownUntil != before.cooldownUntil;
    }
  }

  /** A reconcile with quorum keeps a deadline. */
  lemma QuorumKeepsDeadline(v: Visit, until: nat)
    requires SaneClock(v.look) && Quorate(v.look) && Step(v.look, v.before, v.after, v.round) && Pending(v, until)
    ensures StillPending(v, until)
  {
    CooldownSurvivesIff(v.look);
    NormalizeKeepsBounds(v.look.clock1, Normalize(v.look.clock0));
    if v.before.cooldownUntil > Now(v) {
      assert v.after.cooldownUntil == v.before.cooldownUntil;
    }
  }

  /** A topology round sets one. */
  lemma TopologySetsDeadline(v: Visit)
    requires Step(v.look, v.before, v.after, v.round) && v.round.TopologyRound?
    ensures StillPending(v, CooldownAfter(Now(v), v.round.done))
  {
  }

  /** The next reconcile finds it. */
  lemma DeadlineFollows(v: Visit, w: Visit, until: nat)
    requires Follows(v, w) && StillPending(v, until) && until % SECOND == 0
    ensures Pending(w, until)
  {
    if v.after.cooldownUntil >= until {
      NormalizeKeepsBounds(v.after.cooldownUntil, until);
    } else {
      NormalizeKeepsBounds(w.look.clock0, Now(v));
    }
  }

  lemma DeadlineCarried(vs: seq<Visit>, k: nat, until: nat)
    requires IsRun(vs) && k + 1 < |vs| && Quorate(vs[k].look) && Pending(vs[k], until) && until % SECOND == 0
    ensures Pending(vs[k + 1], until)
  {
    QuorumKeepsDeadline(vs[k], until);
    assert Follows(vs[k], vs[k + 1]);
    DeadlineFollows(vs[k], vs[k + 1], until);
  }

  lemma DeadlineSet(vs: seq<Visit>, i: nat)
    requires IsRun(vs) && i + 1 < |vs| && vs[i].round.TopologyRound?
    ensures Pending(vs[i + 1], CooldownAfter(Now(vs[i]), vs[i].round.done))
  {
    TopologySetsDeadline(vs[i]);
    assert Follows(vs[i], vs[i + 1]);
    DeadlineFollows(vs[i], vs[i + 1], CooldownAfter(Now(vs[i]), vs[i].round.done));
  }

  lemma WholeDeadline(v: Visit, done: Option<string>)
    ensures CooldownAfter(Now(v), done) % SECOND == 0
  {
  }

  /** While quorum lasts, a deadline on record stays there until it has passed. */
  lemma {:induction false} CooldownHolds(vs: seq<Visit>, i: nat, j: nat, until: nat)
    requires IsRun(vs) && i <= j < |vs| && Pending(vs[i], until) && until % SECOND == 0
    requires forall k :: i <= k < j ==> Quorate(vs[k].look)
    ensures Pending(vs[j], until)
    decreases j
  {
    if i < j {
      CooldownHolds(vs, i, j - 1, until);
      DeadlineCarried(vs, j - 1, until);
    }
  }

  /** While quorum lasts, topology rounds keep the cooldown of the earlier one: two minutes after a success. */
  lemma TopologyRoundsSpaced(vs: seq<Visit>, i: nat, j: nat)
    requires IsRun(vs) && i < j < |vs| && vs[i].round.TopologyRound? && vs[j].round.TopologyRound?
    requires forall k :: i < k < j ==> Quorate(vs[k].look)
    ensures Now(vs[j]) >= CooldownAfter(Now(vs[i]), vs[i].round.done)
  {
    DeadlineSet(vs, i);
    WholeDeadline(vs[i], vs[i].round.done);
    CooldownHolds(vs, i + 1, j, CooldownAfter(Now(vs[i]), vs[i].round.done));
    ClockOrder(vs, i, j);
    assert Step(vs[j].look, vs[j].before, vs[j].after, vs[j].round);
  }

  // ---- why the conditions are needed ----

  /** A lone ready Sentinel that answers as given and accepts RESET. */
  function Lone(answer: Probe, needReset: bool, clock: nat): Look {
    Look([Pod("kv-sentinel-0", "", true, false, SentinelRole, 0, "", "", [], map[])], Some(1), true,
         (n: string) => answer, (n: string) => true, needReset, false, clock, clock)
  }

  lemma LoneFacts(answer: Probe, needReset: bool, clock: nat)
    ensures Target(Lone(answer, needReset, clock)) == 1 && MayReset(Lone(answer, needReset, clock))
    ensures Quorate(Lone(answer, needReset, clock)) <==> answer == Reached
  {
    var look := Lone(answer, needReset, clock);
    var p := look.pods[0];
    assert look.pods[..0] == [];
    assert IsReady()(p) && (Says(look, Reached)(p) <==> answer == Reached);
    assert Count(look.pods, Says(look, Reached)) == if answer == Reached then 1 else 0;
    assert Count(look.pods, Says(look, ProbeError)) == if answer == ProbeError then 1 else 0;
  }

  /** The cooldown does not separate rounds across a quorum loss: a loss round can follow a topology round after
      one minute although two minutes were set. */
  lemma LossIgnoresCooldown()
    ensures exists vs: seq<Visit> :: |vs| == 3 && IsRun(vs) && vs[0].round.TopologyRound? && vs[2].round.LossRound?
                                  && Now(vs[2]) < vs[0].after.cooldownUntil
  {
    var s := SECOND;
    LoneFacts(Reached, true, 100 * s);
    LoneFacts(NotReached, false, 110 * s);
    LoneFacts(NotReached, false, 160 * s);
    var t0 := Tracker(0, 0, 0);
    var t1 := Tracker(0, 0, 220 * s);
    var t2 := Tracker(110 * s, 0, 0);
    var t3 := Tracker(160 * s, 1, 280 * s);
    var a := Visit(Lone(Reached, true, 100 * s), t0, t1, TopologyRound(Some("kv-sentinel-0")));
    var b := Visit(Lone(NotReached, false, 110 * s), t1, t2, NoRound);
    var d := Visit(Lone(NotReached, false, 160 * s), t2, t3, LossRound(Some("kv-sentinel-0")));
    assert Follows(a, b) && Follows(b, d);
    assert IsRun([a, b, d]);
  }

  /** Without a successful write the next reconcile, however soon, repeats the round of a loss that is on record,
      exactly when it too finds no quorum and may reset. */
  lemma LostWriteRepeatsRound(v: Visit, w: Visit)
    requires Step(v.look, v.before, v.after, v.round) && v.round.LossRound? && v.before.lossSince != 0
    requires SaneClock(w.look) && Step(w.look, w.before, w.after, w.round)
    requires w.before == v.before && ClockMoves(v.look, w.look)
    ensures w.round.LossRound? <==> !Quorate(w.look) && MayReset(w.look)
  {
    NormalizeKeepsBounds(w.look.clock0, Now(v));
    NormalizeKeepsBounds(w.look.clock1, Now(v));
  }
}
