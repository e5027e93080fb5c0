/** The in-memory tier of the query cache: lookups by age, and eviction by last access. */
module MemoryCache {
  import opened Wrappers
  import opened RefId

  type Key = string
  type Time = int

  /** The zero `time.Time`; every clock reading is later. */
  const ZERO_TIME: Time := 0

  datatype Policy = Policy(ttl: nat, staleTTL: int)

  datatype Entry = Entry(frames: seq<Frame>, refID: string, createdAt: Time, lastAccess: Time)

  datatype Hit = Hit(frames: seq<Frame>, age: int, stale: bool, createdAt: Time)

  /** Too old to be served at all. */
  predicate Refused(age: int, p: Policy) {
    age > p.ttl && (p.staleTTL <= 0 || age > p.ttl + p.staleTTL)
  }

  predicate Expired(age: int, p: Policy) {
    age > p.ttl + p.staleTTL
  }

  /** The two tests agree because a policy never has a negative stale TTL. */
  lemma ExpiredMeansRefused(age: int, p: Policy)
    ensures p.staleTTL >= 0 ==> (Expired(age, p) <==> Refused(age, p))
    ensures p.staleTTL < 0 && p.ttl + p.staleTTL < age <= p.ttl ==> Expired(age, p) && !Refused(age, p)
  {
  }

  // ---- Lookups ----

  function Lookup(entries: map<Key, Entry>, key: Key, refID: string, p: Policy, now: Time): Option<Hit> {
    if key !in entries || Refused(now - entries[key].createdAt, p) then None
    else
      var e := entries[key];
      var age := now - e.createdAt;
      Some(Hit(Clone(e.frames, e.refID, refID), age, age > p.ttl, e.createdAt))
  }

  function AfterLookup(entries: map<Key, Entry>, key: Key, p: Policy, now: Time): map<Key, Entry> {
    if key !in entries then entries
    else if Refused(now - entries[key].createdAt, p) then entries - {key}
    else entries[key := entries[key].(lastAccess := now)]
  }

  function AfterClearExpired(entries: map<Key, Entry>, p: Policy, now: Time): map<Key, Entry> {
    map k | k in entries && !Expired(now - entries[k].createdAt, p) :: entries[k]
  }

  /** Clearing removes exactly the entries that a lookup at that instant would refuse. */
  lemma ClearExpiredRemovesTheRefused(entries: map<Key, Entry>, key: Key, refID: string, p: Policy, now: Time)
    requires p.staleTTL >= 0 && key in entries
    ensures key in AfterClearExpired(entries, p, now) <==> Lookup(entries, key, refID, p, now).Some?
    ensures key in AfterClearExpired(entries, p, now) ==> AfterClearExpired(entries, p, now)[key] == entries[key]
  {
    ExpiredMeansRefused(now - entries[key].createdAt, p);
  }

  // ---- Stores ----

  function Stored(frames: seq<Frame>, refID: string, createdAt: Time, now: Time): Entry {
    Entry(Clone(frames, refID, refID), refID, createdAt, now)
  }

  /** `after` is what eviction may leave of `before`: as many entries as fit, unchanged, none of
      them accessed before an evicted one.  Ties are broken by map order, that is arbitrarily. */
  ghost predicate Evicted(before: map<Key, Entry>, after: map<Key, Entry>, maxEntries: nat) {
    && after.Keys <= before.Keys
    && (forall k | k in after :: after[k] == before[k])
    && |after| == (if |before| <= maxEntries then |before| else maxEntries)
    && (forall k, e | k in after && e in before && e !in after :: before[e].lastAccess <= before[k].lastAccess)
  }

  /** A put that is strictly newest survives its own eviction. */
  lemma NewestSurvives(before: map<Key, Entry>, after: map<Key, Entry>, maxEntries: nat, key: Key)
    requires Evicted(before, after, maxEntries) && maxEntries >= 1
    requires key in before
    requires forall k | k in before && k != key :: before[k].lastAccess < before[key].lastAccess
    ensures key in after && after[key] == before[key]
  {
    assert |after.Keys| >= 1;
    var k :| k in after.Keys;
    assert k != key ==> before[k].lastAccess < before[key].lastAccess;
  }

  lemma SubsetOfSameSize<T>(a: set<T>, b: set<T>)
    requires a <= b && |a| >= |b|
    ensures a == b
  {
    assert |b - a| == |b| - |a|;
  }

  /** A cache within its limit evicts nothing. */
  lemma NothingEvictedWithinLimit(before: map<Key, Entry>, after: map<Key, Entry>, maxEntries: nat)
    requires Evicted(before, after, maxEntries) && |before| <= maxEntries
    ensures after == before
  {
    assert |after.Keys| == |before.Keys|;
    SubsetOfSameSize(after.Keys, before.Keys);
  }

  /** What the eviction loop has left so far. */
  ghost predicate Remaining(before: map<Key, Entry>, after: map<Key, Entry>) {
    && after.Keys <= before.Keys
    && (forall k | k in after :: after[k] == before[k])
    && (forall k, e | k in after && e in before && e !in after :: before[e].lastAccess <= before[k].lastAccess)
  }

  lemma RemovingOldest(before: map<Key, Entry>, after: map<Key, Entry>, oldest: Key)
    requires Remaining(before, after) && oldest in after
    requires forall k | k in after :: after[oldest].lastAccess <= after[k].lastAccess
    ensures Remaining(before, after - {oldest})
  {
  }

  lemma SmallerWithout<K, V>(m: map<K, V>, k: K)
    requires k in m
    ensures |m - {k}| == |m| - 1
  {
    assert (m - {k}).Keys == m.Keys - {k};
  }

  lemma SameSizeUpdated<K, V>(m: map<K, V>, k: K, v: V)
    requires k in m
    ensures |m[k := v]| == |m|
  {
    assert m[k := v].Keys == m.Keys;
  }

  class Cache {
    var entries: map<Key, Entry>
    var refreshing: set<Key>
    const maxEntries: nat

    ghost predicate Valid()
      reads this
    {
      |entries| <= maxEntries
    }

    constructor (maxEntries: nat)
      requires maxEntries >= 1
      ensures Valid() && entries == map[] && refreshing == {} && this.maxEntries == maxEntries
    {
      entries, refreshing, this.maxEntries := map[], {}, maxEntries;
    }

    method Get(key: Key, refID: string, p: Policy, now: Time) returns (hit: Option<Hit>)
      requires Valid()
      modifies this`entries
      ensures Valid()
      ensures hit == Lookup(old(entries), key, refID, p, now)
      ensures entries == AfterLookup(old(entries), key, p, now)
      ensures hit.Some? ==>
                && key in old(entries) && key in entries && entries[key] == old(entries)[key].(lastAccess := now)
                && entries - {key} == old(entries) - {key}
      ensures hit.None? ==> entries == old(entries) - {key}
    {
      if key !in entries {
        return None;
      }
      var entry := entries[key];
      var age := now - entry.createdAt;
      var stale := false;
      if age > p.ttl {
        if p.staleTTL <= 0 || age > p.ttl + p.staleTTL {
          SmallerWithout(entries, key);
          entries := entries - {key};
          return None;
        }
        stale := true;
      }
      SameSizeUpdated(entries, key, entry.(lastAccess := now));
      entries := entries[key := entry.(lastAccess := now)];
      var frames := CloneFramesForRefID(entry.frames, entry.refID, refID);
      return Some(Hit(frames, age, stale, entry.createdAt));
    }

    /** `sampled` is read before the lock and used for a zero `createdAt`, `now` under it. */
    method PutWithCreatedAt(key: Key, frames: seq<Frame>, refID: string, createdAt: Time, sampled: Time, now: Time)
      requires Valid()
      modifies this`entries
      ensures Valid()
      ensures var entry := Stored(frames, refID, if createdAt == ZERO_TIME then sampled else createdAt, now);
              Evicted(old(entries)[key := entry], entries, maxEntries)
    {
      var at := if createdAt == ZERO_TIME then sampled else createdAt;
      var cloned := CloneFramesForRefID(frames, refID, refID);
      entries := entries[key := Entry(cloned, refID, at, now)];
      EvictLocked();
    }

    method EvictLocked()
      modifies this`entries
      ensures Valid() && Evicted(old(entries), entries, maxEntries)
    {
      while |entries| > maxEntries
        invariant Remaining(old(entries), entries)
        invariant |entries| >= maxEntries || entries == old(entries)
        decreases |entries|
      {
        var oldest := OldestKey();
        RemovingOldest(old(entries), entries, oldest);
        SmallerWithout(entries, oldest);
        entries := entries - {oldest};
      }
    }

    /** The scan visits the keys in an arbitrary order and keeps the first least access time. */
    method OldestKey() returns (oldest: Key)
      requires entries != map[]
      ensures oldest in entries
      ensures forall k | k in entries :: entries[oldest].lastAccess <= entries[k].lastAccess
    {
      oldest :| oldest in entries.Keys;
      var unseen := entries.Keys - {oldest};
      while unseen != {}
        invariant unseen <= entries.Keys && oldest in entries
        invariant forall k | k in entries && k !in unseen :: entries[oldest].lastAccess <= entries[k].lastAccess
        decreases unseen
      {
        var k :| k in unseen;
        if entries[k].lastAccess < entries[oldest].lastAccess {
          oldest := k;
        }
        unseen := unseen - {k};
      }
    }

    method ClearKey(key: Key) returns (existed: bool)
      requires Valid()
      modifies this
      ensures Valid() && existed == (key in old(entries))
      ensures entries == old(entries) - {key} && refreshing == old(refreshing) - {key}
    {
      existed := key in entries;
      if existed { SmallerWithout(entries, key); }
      entries := entries - {key};
      refreshing := refreshing - {key};
    }

    method ClearExpired(p: Policy, now: Time) returns (removed: nat)
      requires Valid()
      modifies this`entries
      ensures Valid() && entries == AfterClearExpired(old(entries), p, now)
      ensures removed == |old(entries)| - |entries|
    {
      removed := 0;
      ghost var all := entries.Keys;
      var unseen := entries.Keys;
      while unseen != {}
        invariant unseen <= entries.Keys <= all == old(entries).Keys
        invariant forall k | k in entries :: entries[k] == old(entries)[k]
        invariant forall k | k in all && k !in unseen ::
                    k in entries <==> !Expired(now - old(entries)[k].createdAt, p)
        invariant removed + |entries| == |old(entries)| && Valid()
        decreases unseen
      {
        var k :| k in unseen;
        if now - entries[k].createdAt > p.ttl + p.staleTTL {
          SmallerWithout(entries, k);
          entries := entries - {k};
          removed := removed + 1;
        }
        unseen := unseen - {k};
      }
    }

    method ClearCount() returns (removed: nat)
      modifies this
      ensures Valid() && entries == map[] && refreshing == {} && removed == |old(entries)|
    {
      removed := |entries|;
      entries := map[];
      refreshing := {};
    }

    method StartRefresh(key: Key) returns (started: bool)
      modifies this`refreshing
      ensures started == (key !in old(refreshing)) && refreshing == old(refreshing) + {key}
    {
      started := key !in refreshing;
      refreshing := refreshing + {key};
    }

    method FinishRefresh(key: Key)
      modifies this`refreshing
      ensures refreshing == old(refreshing) - {key}
    {
      refreshing := refreshing - {key};
    }
  }
}
