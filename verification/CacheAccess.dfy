/** Serving an answer counts as an access, in both tiers: what was just served is not what the next
    put throws out. */
module CacheAccess {
  import opened Wrappers
  import opened RefId
  import opened MemoryCache
  import opened CacheRuns
  import D = DiskCache

  // ---- What is served ----

  /** Young enough to be served: fresh, or stale by no more than the policy allows. */
  predicate Servable(age: int, p: Policy) {
    age <= p.ttl || (p.staleTTL > 0 && age <= p.ttl + p.staleTTL)
  }

  /** Memory serves exactly what it has and what is young enough; stale past the time to live. */
  lemma ServedExactly(entries: map<Key, Entry>, key: Key, refID: string, p: Policy, now: Time)
    ensures var hit := Lookup(entries, key, refID, p, now);
            && (hit.Some? <==> key in entries && Servable(now - entries[key].createdAt, p))
            && (hit.Some? ==> (hit.value.stale <==> now - entries[key].createdAt > p.ttl))
  {
  }

  /** So does the disk, of what it can read. */
  lemma DiskServesExactly(files: map<Key, D.File>, key: Key, refID: string, p: Policy, now: Time)
    ensures var hit := D.DiskLookup(files, key, refID, p, now);
            && (hit.Some? <==>
                  key in files && files[key].content.Some? && Servable(now - files[key].content.value.createdAt, p))
            && (hit.Some? ==> (hit.value.stale <==> now - files[key].content.value.createdAt > p.ttl))
  {
  }

  // ---- Memory ----

  /** A hit is an access at `now` to its key, and nothing else. */
  predicate Touched(before: map<Key, Entry>, after: map<Key, Entry>, key: Key, now: Time) {
    && key in before && key in after && after[key] == before[key].(lastAccess := now)
    && after.Keys == before.Keys && forall k | k in before && k != key :: after[k] == before[k]
  }

  /** No other entry was accessed at `now` or later. */
  predicate LatestAccess(entries: map<Key, Entry>, key: Key, now: Time) {
    forall k | k in entries && k != key :: entries[k].lastAccess < now
  }

  lemma TwoMembers<T>(s: set<T>, one: T) returns (other: T)
    requires |s| >= 2
    ensures other in s && other != one
  {
    assert |s - {one}| >= 1;
    other :| other in s - {one};
  }

  /** A key accessed after all others survives the put of another key, whatever eviction does. */
  lemma LatestSurvives(entries: map<Key, Entry>, key: Key, now: Time, put: Key, entry: Entry,
                       kept: map<Key, Entry>, maxEntries: nat)
    requires key in entries && entries[key].lastAccess == now && LatestAccess(entries, key, now)
    requires put != key && maxEntries >= 2 && Evicted(entries[put := entry], kept, maxEntries)
    ensures key in kept && kept[key] == entries[key]
  {
    var before := entries[put := entry];
    if |before| <= maxEntries {
      NothingEvictedWithinLimit(before, kept, maxEntries);
    } else {
      assert |kept.Keys| >= 2;
      var other := TwoMembers(kept.Keys, put);
      assert other in before && (other != key ==> before[other].lastAccess < now);
    }
  }

  /** In a run: what memory serves is accessed, and nothing else is. */
  lemma HitsTouch(l: Limits, s: State, key: Key, refID: string, p: Policy, now: Time, ticket: nat)
    requires Enabled(l, s, MemGet(key, refID, p, now, ticket)) && Lookup(s.mem, key, refID, p, now).Some?
    ensures var s' := Apply(l, s, MemGet(key, refID, p, now, ticket));
            Touched(s.mem, s'.mem, key, now) && s'.searches == s.searches && s'.disk == s.disk
  {
    assert AfterLookup(s.mem, key, p, now).Keys == s.mem.Keys;
  }

  /** Steps that neither look into memory nor write to it or clear it. */
  predicate LeavesMemory(step: Step) {
    !step.MemGet? && !step.MemStore? && !step.Promote? && !step.MemDrop?
  }

  lemma {:induction false} MemoryStays(l: Limits, s: State, run: seq<Step>)
    requires Possible(l, s, run) && forall i | 0 <= i < |run| :: LeavesMemory(run[i])
    ensures Final(l, s, run).mem == s.mem
    decreases |run|
  {
    if run != [] {
      assert LeavesMemory(run[0]);
      forall i | 0 <= i < |run| - 1 ensures LeavesMemory(run[1..][i]) {
        assert run[1..][i] == run[i + 1];
      }
      MemoryStays(l, Apply(l, s, run[0]), run[1..]);
    }
  }

  /** The key that a step puts into memory. */
  predicate Puts(s: State, step: Step, key: Key) {
    || (step.MemStore? && step.key == key)
    || (step.Promote? && step.ticket in s.searches && s.searches[step.ticket].key == key)
  }

  lemma PutKeeps(l: Limits, s: State, key: Key, now: Time, put: Key, step: Step)
    requires l.maxEntries >= 2 && put != key && Puts(s, step, put) && Enabled(l, s, step)
    requires key in s.mem && s.mem[key].lastAccess == now && LatestAccess(s.mem, key, now)
    ensures key in Apply(l, s, step).mem && Apply(l, s, step).mem[key] == s.mem[key]
  {
    match step
    case MemStore(k, at, kept) =>
      LatestSurvives(s.mem, key, now, put, EntryOf(s.flights[k].fetch, s.flights[k].createdAt, at), kept, l.maxEntries);
    case Promote(ticket, at, kept) =>
      LatestSurvives(s.mem, key, now, put, Promoted(s.searches[ticket], at), kept, l.maxEntries);
  }

  /** In every run: a key that memory serves later than every other access survives the next put of
      another key, into a cache of at least two entries, as it was but for the time of access. */
  lemma ServedKeysSurviveTheNextPut(l: Limits, run: seq<Step>, get: Step, between: seq<Step>, put: Step, other: Key)
    requires Possible(l, INITIAL, run) && l.maxEntries >= 2 && get.MemGet?
    requires var s := Final(l, INITIAL, run);
             && Enabled(l, s, get) && Lookup(s.mem, get.key, get.refID, get.p, get.now).Some?
             && LatestAccess(s.mem, get.key, get.now)
             && Possible(l, Apply(l, s, get), between)
    requires forall i | 0 <= i < |between| :: LeavesMemory(between[i])
    requires var s' := Final(l, Apply(l, Final(l, INITIAL, run), get), between);
             Enabled(l, s', put) && Puts(s', put, other) && other != get.key
    ensures var s := Final(l, INITIAL, run);
            var f := Apply(l, Final(l, Apply(l, s, get), between), put);
            get.key in f.mem && f.mem[get.key] == s.mem[get.key].(lastAccess := get.now)
  {
    var s := Final(l, INITIAL, run);
    HitsTouch(l, s, get.key, get.refID, get.p, get.now, get.ticket);
    var s' := Apply(l, s, get);
    MemoryStays(l, s', between);
    PutKeeps(l, Final(l, s', between), get.key, get.now, other, put);
  }

  /** What is put is accessed by that: put later than every other access, it survives its own put. */
  lemma PutKeysSurvive(entries: map<Key, Entry>, key: Key, frames: seq<Frame>, refID: string,
                       createdAt: Time, now: Time,
                       kept: map<Key, Entry>, maxEntries: nat)
    requires LatestAccess(entries, key, now) && maxEntries >= 1
    requires Evicted(entries[key := Stored(frames, refID, createdAt, now)], kept, maxEntries)
    ensures key in kept && kept[key].lastAccess == now && kept[key].createdAt == createdAt && kept[key].refID == refID
  {
    NewestSurvives(entries[key := Stored(frames, refID, createdAt, now)], kept, maxEntries, key);
  }

  const ROOM_FOR_TWO := map["a" := Entry([], "A", 1, 1), "b" := Entry([], "A", 2, 2)]

  /** The order matters: of two keys, the one that was served stays and the other one goes. */
  lemma UnservedGoesFirst(kept: map<Key, Entry>)
    requires Lookup(ROOM_FOR_TWO, "a", "A", Policy(100, 0), 3).Some?
    requires Evicted(AfterLookup(ROOM_FOR_TWO, "a", Policy(100, 0), 3)["c" := Stored([], "A", 4, 4)], kept, 2)
    ensures kept.Keys == {"a", "c"}
  {
    var touched := AfterLookup(ROOM_FOR_TWO, "a", Policy(100, 0), 3);
    var before := touched["c" := Stored([], "A", 4, 4)];
    assert before.Keys == {"a", "b", "c"};
    assert |before.Keys| == 3;
    LatestSurvives(touched, "a", 3, "c", Stored([], "A", 4, 4), kept, 2);
    NewestSurvives(before, kept, 2, "c");
    assert {"a", "c"} <= kept.Keys && |kept.Keys| == 2;
    SubsetOfSameSize({"a", "c"}, kept.Keys);
  }

  // ---- Disk ----

  /** No other file was written or served at `now` or later. */
  predicate LatestFile(files: map<Key, D.File>, key: Key, now: Time) {
    forall k | k in files && k != key :: files[k].modTime < now
  }

  /** A hit gives its file the time of the hit. */
  lemma DiskHitsTouch(files: map<Key, D.File>, key: Key, refID: string, p: Policy, now: Time, stuck: set<Key>)
    requires D.DiskLookup(files, key, refID, p, now).Some?
    ensures var after := D.AfterDiskLookup(files, key, p, now, stuck);
            && key in files && key in after && after[key] == files[key].(modTime := now)
            && after.Keys == files.Keys && forall k | k in files && k != key :: after[k] == files[k]
  {
  }

  /** A file served later than every other was written or served survives the put of another one,
      when files can be removed and the two fit into the budget. */
  lemma ServedFilesSurviveTheNextPut(files: map<Key, D.File>, key: Key, refID: string, p: Policy, now: Time,
                                     f: D.File, left: map<Key, D.File>, maxEntries: int, maxBytes: int)
    requires (forall k | k in files :: files[k].key == k) && D.DiskLookup(files, key, refID, p, now).Some?
    requires LatestFile(files, key, now) && f.key != key
    requires maxEntries > 0 ==> maxEntries >= 2
    requires maxBytes > 0 ==> files[key].size + f.size <= maxBytes
    requires D.BudgetEnforced(D.AfterDiskLookup(files, key, p, now, {})[f.key := f], left, {}, maxEntries, maxBytes)
    ensures key in left && left[key] == files[key].(modTime := now)
  {
    var before := D.AfterDiskLookup(files, key, p, now, {})[f.key := f];
    DiskHitsTouch(files, key, refID, p, now, {});
    var order: seq<D.File>, n: nat :|
      && D.IsListing(before, order) && D.ByModTime(order)
      && D.Enforced(order, {}, maxEntries, maxBytes, n)
      && left == before - D.Attempted(order, n, {});
    var i :| 0 <= i < |order| && order[i] == before[key];
    AmongTheLastTwo(before, order, i, f.key);
    FitFromThere(order, i, before[key], f, maxEntries, maxBytes);
    D.SurvivorsAreLongestFittingSuffix(order, maxEntries, maxBytes, n);
    NotAttempted(order, n, i);
  }

  /** The file is last, or only the one just put is behind it. */
  lemma AmongTheLastTwo(before: map<Key, D.File>, order: seq<D.File>, i: nat, put: Key)
    requires D.IsListing(before, order) && D.ByModTime(order) && i < |order|
    requires forall k | k in before && k != order[i].key && k != put :: before[k].modTime < order[i].modTime
    ensures forall j | i < j < |order| :: order[j].key == put
    ensures |order| <= i + 2
  {
    forall j | i < j < |order| ensures order[j].key == put {
      assert order[j].key != order[i].key && order[i].modTime <= order[j].modTime;
    }
    if i + 2 < |order| { OneEach(before, order, i + 1, i + 2); }
  }

  lemma OneEach(files: map<Key, D.File>, order: seq<D.File>, i: nat, j: nat)
    requires D.IsListing(files, order) && i < j < |order|
    ensures order[i].key != order[j].key
  {
  }

  lemma FitFromThere(order: seq<D.File>, i: nat, served: D.File, put: D.File, maxEntries: int, maxBytes: int)
    requires i < |order| <= i + 2 && order[i] == served && (i + 1 < |order| ==> order[i + 1].size == put.size)
    requires maxEntries > 0 ==> maxEntries >= 2
    requires maxBytes > 0 ==> served.size + put.size <= maxBytes
    ensures D.WithinBudget(order[i..], maxEntries, maxBytes)
  {
    var rest := order[i..];
    assert rest[1..] == order[i + 1..];
    if |rest| == 2 {
      assert rest[1..] == [order[i + 1]] && rest[1..][1..] == [];
      assert D.TotalSize(rest[1..]) == order[i + 1].size;
    } else {
      assert rest[1..] == [];
    }
  }

  lemma NotAttempted(order: seq<D.File>, n: nat, i: nat)
    requires n <= i < |order| && forall j, k | 0 <= j < k < |order| :: order[j].key != order[k].key
    ensures order[i].key !in D.Attempted(order, n, {})
  {
  }
}
