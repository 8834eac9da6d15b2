/** The master-address cache (replication/master_cache.go). Times are nanoseconds. */
module MasterCache {
  import opened Base
  import opened Network

  datatype Entry = Entry(master: string, detail: string, expires: int)

  type Table = map<Cluster, Entry>

  /** The table after an insertion that first dropped `victim`, if the table was full. */
  function Stored(table: Table, key: Cluster, entry: Entry, victim: Option<Cluster>): Table {
    (if victim.Some? then table - {victim.value} else table)[key := entry]
  }

  /** A victim is dropped exactly when the table is at capacity; map iteration picks any entry. */
  predicate VictimAllowed(table: Table, maxEntries: int, victim: Option<Cluster>) {
    if |table| >= maxEntries then victim.Some? && victim.value in table else victim.None?
  }

  lemma StoredSize(table: Table, maxEntries: int, key: Cluster, entry: Entry, victim: Option<Cluster>)
    requires 0 < maxEntries && |table| <= maxEntries
    requires VictimAllowed(table, maxEntries, victim)
    ensures |Stored(table, key, entry, victim)| <= maxEntries
  {
    var kept := if victim.Some? then table - {victim.value} else table;
    if victim.Some? {
      assert kept.Keys == table.Keys - {victim.value};
    }
    assert |kept| == |kept.Keys| < maxEntries;
    assert kept[key := entry].Keys == kept.Keys + {key};
    assert |kept.Keys + {key}| <= |kept.Keys| + 1;
  }

  class MasterAddressCache {
    const ttl: int
    const maxEntries: int
    var entries: Table

    ghost predicate Valid()
      reads this
    {
      0 < ttl && 0 < maxEntries && |entries| <= maxEntries
    }

    constructor (ttl: int, maxEntries: int)
      ensures Valid() && entries == map[]
      ensures this.ttl == (if ttl <= 0 then 200_000_000 else ttl)
      ensures this.maxEntries == (if maxEntries <= 0 then 128 else maxEntries)
    {
      this.ttl := if ttl <= 0 then 200_000_000 else ttl;
      this.maxEntries := if maxEntries <= 0 then 128 else maxEntries;
      entries := map[];
    }

    /** A hit leaves the table alone; a miss leaves no entry for the key. */
    method Lookup(key: Cluster, now: int) returns (master: string, detail: string, ok: bool)
      requires Valid()
      modifies this
      ensures Valid()
      ensures ok <==> key in old(entries) && now <= old(entries)[key].expires
      ensures ok ==> entries == old(entries) && master == entries[key].master && detail == entries[key].detail
      ensures !ok ==> entries == old(entries) - {key}
    {
      master, detail, ok := "", "", false;
      if key !in entries {
        assert entries - {key} == entries;
        return;
      }
      if now > entries[key].expires {
        assert (entries - {key}).Keys == entries.Keys - {key};
        entries := entries - {key};
        return;
      }
      return entries[key].master, entries[key].detail, true;
    }

    method Remember(key: Cluster, master: string, detail: string, now: int)
      requires Valid()
      modifies this
      ensures Valid()
      ensures master == "" ==> entries == old(entries)
      ensures master != "" ==>
        exists victim :: VictimAllowed(old(entries), maxEntries, victim) &&
          entries == Stored(old(entries), key, Entry(master, detail, now + ttl), victim)
    {
      if master == "" {
        return;
      }
      var entry := Entry(master, detail, now + ttl);
      var victim: Option<Cluster> := None;
      if |entries| >= maxEntries {
        assert entries != map[];
        var k :| k in entries;
        victim := Some(k);
      }
      assert VictimAllowed(entries, maxEntries, victim);
      StoredSize(entries, maxEntries, key, entry, victim);
      entries := Stored(entries, key, entry, victim);
      assert VictimAllowed(old(entries), maxEntries, victim);
    }

    method Invalidate(key: Cluster)
      requires Valid()
      modifies this
      ensures Valid()
      ensures entries == old(entries) - {key}
    {
      assert (entries - {key}).Keys == entries.Keys - {key};
      assert |entries.Keys - {key}| <= |entries.Keys|;
      entries := entries - {key};
    }
  }

  /** One locked section of a cache operation. Lookup has two: the read, and the deletion of an entry
      the read found expired. Between them any thread may take any step. */
  datatype Step =
    | ReadEntry(thread: nat, key: Cluster, now: int)
    | DropExpired(thread: nat)
    | RememberEntry(key: Cluster, master: string, detail: string, now: int, victim: Option<Cluster>)
    | InvalidateEntry(key: Cluster)

  /** The shared table and, per thread, the key a Lookup is about to delete. */
  datatype State = State(table: Table, dropping: map<nat, Cluster>)

  const INITIAL := State(map[], map[])

  predicate Enabled(s: State, step: Step, maxEntries: int) {
    match step
    case ReadEntry(thread, _, _) => thread !in s.dropping
    case DropExpired(thread) => thread in s.dropping
    case RememberEntry(_, master, _, _, victim) => master != "" && VictimAllowed(s.table, maxEntries, victim)
    case InvalidateEntry(_) => true
  }

  /** What the read finds: Some entry exactly on a hit. */
  function Hit(s: State, key: Cluster, now: int): Option<Entry> {
    if key in s.table && now <= s.table[key].expires then Some(s.table[key]) else None
  }

  function Apply(s: State, step: Step, ttl: int): State {
    match step
    case ReadEntry(thread, key, now) =>
      if key in s.table && Hit(s, key, now).None? then s.(dropping := s.dropping[thread := key]) else s
    case DropExpired(thread) =>
      if thread in s.dropping
      then State(s.table - {s.dropping[thread]}, s.dropping - {thread})
      else s
    case RememberEntry(key, master, detail, now, victim) =>
      s.(table := Stored(s.table, key, Entry(master, detail, now + ttl), victim))
    case InvalidateEntry(key) => s.(table := s.table - {key})
  }

  function After(steps: seq<Step>, ttl: int): State {
    if steps == [] then INITIAL else Apply(After(steps[..|steps| - 1], ttl), steps[|steps| - 1], ttl)
  }

  ghost predicate IsRun(steps: seq<Step>, ttl: int, maxEntries: int) {
    forall i :: 0 <= i < |steps| ==> Enabled(After(steps[..i], ttl), steps[i], maxEntries)
  }

  /** Reference definition: what the history alone says about a key. Some entry when the last write to the
      key was a Remember, None when it was an Invalidate or there was none. */
  function LastWritten(steps: seq<Step>, key: Cluster, ttl: int): Option<Entry> {
    if steps == [] then None
    else Overwrite(steps[|steps| - 1], key, ttl, LastWritten(steps[..|steps| - 1], key, ttl))
  }

  function Overwrite(step: Step, key: Cluster, ttl: int, previous: Option<Entry>): Option<Entry> {
    match step
    case RememberEntry(k, master, detail, now, _) =>
      if k == key then Some(Entry(master, detail, now + ttl)) else previous
    case InvalidateEntry(k) => if k == key then None else previous
    case _ => previous
  }

  /** The table is within capacity and holds nothing but last writes. */
  ghost predicate Agrees(table: Table, steps: seq<Step>, ttl: int, maxEntries: int) {
    |table| <= maxEntries && forall key :: key in table ==> LastWritten(steps, key, ttl) == Some(table[key])
  }

  lemma DropSize(table: Table, key: Cluster)
    ensures |table - {key}| <= |table|
  {
    assert (table - {key}).Keys == table.Keys - {key};
    assert |table.Keys - {key}| <= |table.Keys|;
  }

  lemma ApplySize(s: State, step: Step, ttl: int, maxEntries: int)
    requires 0 < maxEntries && |s.table| <= maxEntries && Enabled(s, step, maxEntries)
    ensures |Apply(s, step, ttl).table| <= maxEntries
  {
    match step
    case ReadEntry(_, _, _) =>
    case DropExpired(thread) => DropSize(s.table, s.dropping[thread]);
    case RememberEntry(key, master, detail, now, victim) =>
      StoredSize(s.table, maxEntries, key, Entry(master, detail, now + ttl), victim);
    case InvalidateEntry(key) => DropSize(s.table, key);
  }

  /** Whatever a step leaves in the table under a key is that step's own write or was there before. */
  lemma ApplyEntry(s: State, step: Step, ttl: int, key: Cluster)
    requires key in Apply(s, step, ttl).table
    ensures
      var previous := if key in s.table then Some(s.table[key]) else None;
      Some(Apply(s, step, ttl).table[key]) == Overwrite(step, key, ttl, previous)
  {
  }

  lemma ApplyAgrees(s: State, steps: seq<Step>, step: Step, ttl: int, maxEntries: int)
    requires 0 < maxEntries && Agrees(s.table, steps, ttl, maxEntries) && Enabled(s, step, maxEntries)
    ensures Agrees(Apply(s, step, ttl).table, steps + [step], ttl, maxEntries)
  {
    ApplySize(s, step, ttl, maxEntries);
    var table := Apply(s, step, ttl).table;
    forall key | key in table ensures LastWritten(steps + [step], key, ttl) == Some(table[key]) {
      assert (steps + [step])[..|steps|] == steps;
      ApplyEntry(s, step, ttl, key);
    }
  }

  lemma RunPrefix(steps: seq<Step>, ttl: int, maxEntries: int, n: nat)
    requires IsRun(steps, ttl, maxEntries) && n <= |steps|
    ensures IsRun(steps[..n], ttl, maxEntries)
  {
    forall i | 0 <= i < n ensures Enabled(After(steps[..n][..i], ttl), steps[..n][i], maxEntries) {
      assert steps[..n][..i] == steps[..i];
    }
  }

  lemma {:induction false} TableFollowsHistory(steps: seq<Step>, ttl: int, maxEntries: int)
    requires IsRun(steps, ttl, maxEntries) && 0 < maxEntries
    ensures Agrees(After(steps, ttl).table, steps, ttl, maxEntries)
  {
    if steps != [] {
      var n := |steps| - 1;
      RunPrefix(steps, ttl, maxEntries, n);
      TableFollowsHistory(steps[..n], ttl, maxEntries);
      assert Enabled(After(steps[..n], ttl), steps[n], maxEntries);
      ApplyAgrees(After(steps[..n], ttl), steps[..n], steps[n], ttl, maxEntries);
      assert steps[..n] + [steps[n]] == steps;
    }
  }

  /** In every interleaving a hit is the last master remembered for the key and not invalidated since,
      and the lookup's clock is within its expiry; at no point does the table exceed its capacity. */
  lemma HitsAreCurrent(steps: seq<Step>, ttl: int, maxEntries: int, i: nat)
    requires IsRun(steps, ttl, maxEntries) && 0 < maxEntries && i < |steps|
    ensures |After(steps[..i], ttl).table| <= maxEntries
    ensures steps[i].ReadEntry? ==>
      var hit := Hit(After(steps[..i], ttl), steps[i].key, steps[i].now);
      hit.Some? ==> hit == LastWritten(steps[..i], steps[i].key, ttl) && steps[i].now <= hit.value.expires
  {
    RunPrefix(steps, ttl, maxEntries, i);
    TableFollowsHistory(steps[..i], ttl, maxEntries);
  }

  /** Steps that never remember `key` cannot make an entry for it appear, whatever they evict. */
  lemma {:induction false} OtherKeysNeverAdd(before: State, steps: seq<Step>, key: Cluster, ttl: int)
    requires key !in before.table
    requires forall i :: 0 <= i < |steps| ==> !(steps[i].RememberEntry? && steps[i].key == key)
    ensures key !in AfterFrom(before, steps, ttl).table
  {
    if steps != [] {
      OtherKeysNeverAdd(before, steps[..|steps| - 1], key, ttl);
    }
  }

  function AfterFrom(s: State, steps: seq<Step>, ttl: int): State {
    if steps == [] then s else Apply(AfterFrom(s, steps[..|steps| - 1], ttl), steps[|steps| - 1], ttl)
  }

  lemma AfterSnoc(steps: seq<Step>, step: Step, ttl: int)
    ensures After(steps + [step], ttl) == Apply(After(steps, ttl), step, ttl)
  {
    assert (steps + [step])[..|steps|] == steps;
  }

  lemma RunSnoc(steps: seq<Step>, step: Step, ttl: int, capacity: nat)
    requires IsRun(steps, ttl, capacity) && Enabled(After(steps, ttl), step, capacity)
    ensures IsRun(steps + [step], ttl, capacity)
  {
    var all := steps + [step];
    forall i | 0 <= i < |all| ensures Enabled(After(all[..i], ttl), all[i], capacity) {
      if i < |steps| {
        assert all[..i] == steps[..i];
      } else {
        assert all[..i] == steps;
      }
    }
  }

  /** The step is a write to the key. */
  predicate Writes(step: Step, key: Cluster) {
    (step.RememberEntry? || step.InvalidateEntry?) && step.key == key
  }

  /** The step takes the key's entry without being a write to it: as the victim of another key's Remember, or by
      the delete of a lookup that once found the key expired. */
  predicate Takes(s: State, step: Step, key: Cluster) {
    match step
    case DropExpired(thread) => thread in s.dropping && s.dropping[thread] == key
    case RememberEntry(k, _, _, _, victim) => k != key && victim == Some(key)
    case _ => false
  }

  /** The position of the last write to the key, or -1. */
  function LastWrite(steps: seq<Step>, key: Cluster): (i: int)
    ensures -1 <= i < |steps|
    ensures i >= 0 ==> Writes(steps[i], key)
    ensures forall j :: i < j < |steps| ==> !Writes(steps[j], key)
  {
    if steps == [] then -1
    else if Writes(steps[|steps| - 1], key) then |steps| - 1
    else LastWrite(steps[..|steps| - 1], key)
  }

  /** No step behind the last write to the key took its entry. */
  ghost predicate Untaken(steps: seq<Step>, key: Cluster, ttl: int) {
    forall j :: LastWrite(steps, key) < j < |steps| ==> !Takes(After(steps[..j], ttl), steps[j], key)
  }

  lemma UntakenSnoc(steps: seq<Step>, key: Cluster, ttl: int)
    requires steps != [] && !Writes(steps[|steps| - 1], key)
    ensures
      var before := steps[..|steps| - 1];
      Untaken(steps, key, ttl) <==> Untaken(before, key, ttl) && !Takes(After(before, ttl), steps[|steps| - 1], key)
  {
    var n := |steps| - 1;
    assert LastWrite(steps, key) == LastWrite(steps[..n], key);
    forall j | 0 <= j < n ensures steps[..n][..j] == steps[..j] && steps[..n][j] == steps[j] {}
    if Untaken(steps, key, ttl) {
      forall j | LastWrite(steps, key) < j < n ensures !Takes(After(steps[..n][..j], ttl), steps[..n][j], key) {
        assert !Takes(After(steps[..j], ttl), steps[j], key);
      }
    }
    if Untaken(steps[..n], key, ttl) && !Takes(After(steps[..n], ttl), steps[n], key) {
      forall j | LastWrite(steps, key) < j < n + 1 ensures !Takes(After(steps[..j], ttl), steps[j], key) {
        if j < n {
          assert !Takes(After(steps[..n][..j], ttl), steps[..n][j], key);
        }
      }
    }
  }

  /** Exactly when a key is found in the table: its last write was a Remember, and no later step took the entry
      as a victim or by a late delete. */
  lemma {:induction false} PresentIff(steps: seq<Step>, key: Cluster, ttl: int)
    ensures key in After(steps, ttl).table <==> LastWritten(steps, key, ttl).Some? && Untaken(steps, key, ttl)
  {
    if steps != [] {
      var n := |steps| - 1;
      if !Writes(steps[n], key) {
        PresentIff(steps[..n], key, ttl);
        UntakenSnoc(steps, key, ttl);
      }
    }
  }

  /** The steps form a run that ends in this state. */
  ghost predicate Reached(steps: seq<Step>, ttl: int, capacity: nat, s: State) {
    IsRun(steps, ttl, capacity) && After(steps, ttl) == s
  }

  lemma ReachNext(steps: seq<Step>, ttl: int, capacity: nat, s: State, step: Step)
    requires Reached(steps, ttl, capacity, s) && Enabled(s, step, capacity)
    ensures Reached(steps + [step], ttl, capacity, Apply(s, step, ttl))
  {
    AfterSnoc(steps, step, ttl);
    RunSnoc(steps, step, ttl, capacity);
  }

  lemma LastWrittenSnoc(steps: seq<Step>, step: Step, key: Cluster, ttl: int)
    ensures LastWritten(steps + [step], key, ttl) == Overwrite(step, key, ttl, LastWritten(steps, key, ttl))
  {
    assert (steps + [step])[..|steps|] == steps;
  }

  /** A thread has read the key's expired entry and is about to delete it. */
  lemma ExpiredRead(key: Cluster, thread: nat, first: string, since: int, now: int, ttl: int, capacity: nat)
    returns (steps: seq<Step>)
    requires first != "" && since + ttl < now && capacity >= 1
    ensures Reached(steps, ttl, capacity, State(map[key := Entry(first, "", since + ttl)], map[thread := key]))
  {
    var table := map[key := Entry(first, "", since + ttl)];
    var remember, read := RememberEntry(key, first, "", since, None), ReadEntry(thread, key, now);
    ReachNext([], ttl, capacity, INITIAL, remember);
    assert Apply(INITIAL, remember, ttl) == State(table, map[]);
    ReachNext([] + [remember], ttl, capacity, State(table, map[]), read);
    steps := [] + [remember] + [read];
  }

  /** A table of one entry, overwritten. */
  lemma OverwriteOnly(key: Cluster, expired: Entry, second: string, now: int, ttl: int, capacity: nat, thread: nat)
    requires second != "" && capacity >= 1
    ensures
      var step := RememberEntry(key, second, "", now, if capacity == 1 then Some(key) else None);
      var s := State(map[key := expired], map[thread := key]);
      && Enabled(s, step, capacity)
      && Apply(s, step, ttl) == State(map[key := Entry(second, "", now + ttl)], map[thread := key])
  {
    var table := map[key := expired];
    assert |table| == 1;
    assert Stored(table, key, Entry(second, "", now + ttl), if capacity == 1 then Some(key) else None)
        == map[key := Entry(second, "", now + ttl)];
  }

  /** The key is remembered anew while the delete of its expired entry is still to come. */
  lemma FreshBeforeDrop(
      key: Cluster, thread: nat, first: string, second: string, since: int, now: int, ttl: int, capacity: nat)
    returns (steps: seq<Step>)
    requires first != "" && second != "" && since + ttl < now && capacity >= 1
    ensures var stored := Entry(second, "", now + ttl);
            && Reached(steps, ttl, capacity, State(map[key := stored], map[thread := key]))
            && LastWritten(steps, key, ttl) == Some(stored)
  {
    var read := ExpiredRead(key, thread, first, since, now, ttl, capacity);
    var expired := Entry(first, "", since + ttl);
    var again := RememberEntry(key, second, "", now, if capacity == 1 then Some(key) else None);
    OverwriteOnly(key, expired, second, now, ttl, capacity, thread);
    ReachNext(read, ttl, capacity, State(map[key := expired], map[thread := key]), again);
    LastWrittenSnoc(read, again, key, ttl);
    steps := read + [again];
  }

  /** The converse of HitsAreCurrent fails for every time to live and capacity: the delete of an expired entry can
      land after a fresh Remember, so a key whose last write is a Remember that has not expired can be missing. */
  lemma LateDropLosesFreshEntry(
      key: Cluster, thread: nat, first: string, second: string, since: int, now: int, ttl: int, capacity: nat)
    requires first != "" && second != "" && since + ttl < now && ttl >= 0 && capacity >= 1
    ensures exists steps ::
              IsRun(steps, ttl, capacity) && LastWritten(steps, key, ttl) == Some(Entry(second, "", now + ttl)) &&
              key !in After(steps, ttl).table
  {
    var steps := FreshBeforeDrop(key, thread, first, second, since, now, ttl, capacity);
    var s := State(map[key := Entry(second, "", now + ttl)], map[thread := key]);
    ReachNext(steps, ttl, capacity, s, DropExpired(thread));
    LastWrittenSnoc(steps, DropExpired(thread), key, ttl);
    assert key !in Apply(s, DropExpired(thread), ttl).table;
  }
}
