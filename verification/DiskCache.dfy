/** The disk tier of the query cache: one file per key, a budget of files and of bytes. */
module DiskCache {
  import opened Wrappers
  import opened RefId
  import opened MemoryCache

  datatype DiskEntry = DiskEntry(frames: seq<Frame>, refID: string, createdAt: Time)

  /** A file of the cache directory; `content` is `None` when it cannot be read back (bad JSON,
      another version, no key or creation time). */
  datatype File = File(key: Key, content: Option<DiskEntry>, size: nat, modTime: Time)

  // ---- Budget ----

  function TotalSize(files: seq<File>): nat {
    if files == [] then 0 else files[0].size + TotalSize(files[1..])
  }

  /** A non-positive limit is no limit. */
  predicate Within(count: int, bytes: int, maxEntries: int, maxBytes: int) {
    && (maxEntries > 0 ==> count <= maxEntries)
    && (maxBytes > 0 ==> bytes <= maxBytes)
  }

  predicate WithinBudget(files: seq<File>, maxEntries: int, maxBytes: int) {
    Within(|files|, TotalSize(files), maxEntries, maxBytes)
  }

  predicate ByModTime(files: seq<File>) {
    forall i, j | 0 <= i < j < |files| :: files[i].modTime <= files[j].modTime
  }

  /** What is left of `files` after removal was attempted on the first `n`; a removal of a file
      whose key is in `stuck` fails. */
  function Left(files: seq<File>, n: nat, stuck: set<Key>): seq<File>
    requires n <= |files|
  {
    if n == 0 then files
    else
      var rest := Left(files[1..], n - 1, stuck);
      if files[0].key in stuck then [files[0]] + rest else rest
  }

  lemma {:induction false} LeftNext(files: seq<File>, n: nat, stuck: set<Key>)
    requires n < |files|
    ensures var gone := files[n].key !in stuck;
            && |Left(files, n + 1, stuck)| == |Left(files, n, stuck)| - (if gone then 1 else 0)
            && TotalSize(Left(files, n + 1, stuck)) ==
               TotalSize(Left(files, n, stuck)) - (if gone then files[n].size else 0)
    decreases n
  {
    if n == 0 {
      assert Left(files[1..], 0, stuck) == files[1..];
      assert files == [files[0]] + files[1..];
    } else {
      LeftNext(files[1..], n - 1, stuck);
      var rest, rest' := Left(files[1..], n - 1, stuck), Left(files[1..], n, stuck);
      assert files[1..][n - 1] == files[n];
      assert ([files[0]] + rest)[1..] == rest && ([files[0]] + rest')[1..] == rest';
    }
  }

  lemma {:induction false} LeftWhenNothingStuck(files: seq<File>, n: nat)
    requires n <= |files|
    ensures Left(files, n, {}) == files[n..]
    decreases n
  {
    if n > 0 {
      LeftWhenNothingStuck(files[1..], n - 1);
    }
  }

  ghost predicate OverBudgetBefore(order: seq<File>, stuck: set<Key>, maxEntries: int, maxBytes: int, n: nat)
    requires n <= |order|
  {
    forall i | 0 <= i < n :: !WithinBudget(Left(order, i, stuck), maxEntries, maxBytes)
  }

  lemma OverBudgetAt(order: seq<File>, stuck: set<Key>, maxEntries: int, maxBytes: int, n: nat)
    requires n < |order| && OverBudgetBefore(order, stuck, maxEntries, maxBytes, n)
    requires !WithinBudget(Left(order, n, stuck), maxEntries, maxBytes)
    ensures OverBudgetBefore(order, stuck, maxEntries, maxBytes, n + 1)
  {
  }

  /** Enforcement on a list in modification-time order: `attempted` files were tried.  It stops
      as soon as the budget holds, and only then or when every file was tried. */
  ghost predicate Enforced(order: seq<File>, stuck: set<Key>, maxEntries: int, maxBytes: int, attempted: nat) {
    && attempted <= |order|
    && OverBudgetBefore(order, stuck, maxEntries, maxBytes, attempted)
    && (attempted == |order| || WithinBudget(Left(order, attempted, stuck), maxEntries, maxBytes))
  }

  lemma {:induction false} SuffixSizes(files: seq<File>, n: nat)
    requires n <= |files|
    ensures TotalSize(files[n..]) <= TotalSize(files)
  {
    if n > 0 {
      SuffixSizes(files[1..], n - 1);
      assert files[1..][n - 1..] == files[n..];
    }
  }

  /** When every removal succeeds, the survivors are the longest suffix, in modification-time
      order, that meets both limits. */
  lemma SurvivorsAreLongestFittingSuffix(order: seq<File>, maxEntries: int, maxBytes: int, attempted: nat)
    requires Enforced(order, {}, maxEntries, maxBytes, attempted)
    ensures Left(order, attempted, {}) == order[attempted..]
    ensures WithinBudget(order[attempted..], maxEntries, maxBytes)
    ensures forall n | 0 <= n <= |order| ::
              WithinBudget(order[n..], maxEntries, maxBytes) <==> n >= attempted
  {
    LeftWhenNothingStuck(order, attempted);
    assert attempted == |order| ==> order[attempted..] == [];
    forall n | 0 <= n <= |order|
      ensures WithinBudget(order[n..], maxEntries, maxBytes) <==> n >= attempted
    {
      LeftWhenNothingStuck(order, n);
      if n >= attempted {
        SuffixSizes(order[attempted..], n - attempted);
        assert order[attempted..][n - attempted..] == order[n..];
      }
    }
  }

  /** When every removal succeeds, what is left is within both limits, and what was removed had to
      be: with one file more a limit would be exceeded. */
  lemma BudgetIsFilled(order: seq<File>, maxEntries: int, maxBytes: int, attempted: nat)
    requires Enforced(order, {}, maxEntries, maxBytes, attempted)
    ensures maxEntries > 0 ==> |order| - attempted <= maxEntries
    ensures maxBytes > 0 ==> TotalSize(order[attempted..]) <= maxBytes
    ensures attempted > 0 ==>
              || (maxEntries > 0 && |order| - attempted + 1 > maxEntries)
              || (maxBytes > 0 && TotalSize(order[attempted - 1..]) > maxBytes)
  {
    SurvivorsAreLongestFittingSuffix(order, maxEntries, maxBytes, attempted);
    if attempted > 0 {
      assert !WithinBudget(order[attempted - 1..], maxEntries, maxBytes);
    }
  }

  /** The newest file survives whenever it fits on its own. */
  lemma NewestFileSurvives(order: seq<File>, maxEntries: int, maxBytes: int, attempted: nat)
    requires Enforced(order, {}, maxEntries, maxBytes, attempted)
    requires order != [] && (maxBytes > 0 ==> order[|order| - 1].size <= maxBytes)
    ensures attempted < |order|
  {
    SurvivorsAreLongestFittingSuffix(order, maxEntries, maxBytes, attempted);
    var last := order[|order| - 1..];
    assert last == [order[|order| - 1]] && last[1..] == [];
    assert WithinBudget(last, maxEntries, maxBytes);
  }

  // ---- Listing order ----

  function Insert(f: File, sorted: seq<File>): seq<File> {
    if sorted == [] || f.modTime <= sorted[0].modTime then [f] + sorted
    else [sorted[0]] + Insert(f, sorted[1..])
  }

  function Sorted(files: seq<File>): seq<File> {
    if files == [] then [] else Insert(files[0], Sorted(files[1..]))
  }

  lemma InsertedFrom(f: File, sorted: seq<File>, i: nat)
    requires i < |Insert(f, sorted)| && multiset(Insert(f, sorted)) == multiset(sorted) + multiset{f}
    ensures Insert(f, sorted)[i] == f || Insert(f, sorted)[i] in sorted
  {
    assert Insert(f, sorted)[i] in multiset(Insert(f, sorted));
  }

  lemma {:induction false} InsertKeepsOrder(f: File, sorted: seq<File>)
    requires ByModTime(sorted)
    ensures ByModTime(Insert(f, sorted)) && multiset(Insert(f, sorted)) == multiset(sorted) + multiset{f}
    decreases |sorted|
  {
    if sorted != [] && f.modTime > sorted[0].modTime {
      InsertKeepsOrder(f, sorted[1..]);
      var rest := Insert(f, sorted[1..]);
      assert sorted == [sorted[0]] + sorted[1..];
      forall i | 0 <= i < |rest| ensures sorted[0].modTime <= rest[i].modTime {
        InsertedFrom(f, sorted[1..], i);
      }
    }
  }

  /** A listing can be put in modification-time order. */
  lemma {:induction false} OrderExists(files: seq<File>)
    ensures multiset(Sorted(files)) == multiset(files) && ByModTime(Sorted(files))
    decreases |files|
  {
    if files != [] {
      OrderExists(files[1..]);
      InsertKeepsOrder(files[0], Sorted(files[1..]));
      assert files == [files[0]] + files[1..];
    }
  }

  // ---- Lookups ----

  function DiskLookup(files: map<Key, File>, key: Key, refID: string, p: Policy, now: Time): Option<Hit> {
    if key !in files || files[key].content.None? then None
    else
      var e := files[key].content.value;
      var age := now - e.createdAt;
      if Refused(age, p) then None
      else Some(Hit(Clone(e.frames, e.refID, refID), age, age > p.ttl, e.createdAt))
  }

  function AfterDiskLookup(files: map<Key, File>, key: Key, p: Policy, now: Time, stuck: set<Key>): map<Key, File> {
    if key !in files then files
    else if files[key].content.None? || Refused(now - files[key].content.value.createdAt, p) then
      if key in stuck then files else files - {key}
    else files[key := files[key].(modTime := now)]
  }

  predicate Clearable(f: File, p: Policy, now: Time) {
    f.content.None? || Expired(now - f.content.value.createdAt, p)
  }

  /** A file is cleared exactly when it is unreadable or a lookup at that instant would refuse it. */
  lemma ClearableMeansUnserved(files: map<Key, File>, key: Key, refID: string, p: Policy, now: Time)
    requires p.staleTTL >= 0 && key in files
    ensures Clearable(files[key], p, now) <==> DiskLookup(files, key, refID, p, now).None?
  {
    if files[key].content.Some? {
      ExpiredMeansRefused(now - files[key].content.value.createdAt, p);
    }
  }

  // ---- Listings ----

  ghost predicate IsListing(files: map<Key, File>, listed: seq<File>) {
    && (forall i | 0 <= i < |listed| :: listed[i].key in files && files[listed[i].key] == listed[i])
    && (forall k | k in files :: files[k].key == k && files[k] in listed)
    && (forall i, j | 0 <= i < j < |listed| :: listed[i].key != listed[j].key)
  }

  lemma ListingGrows(files: map<Key, File>, listed: seq<File>, f: File)
    requires IsListing(files, listed) && f.key !in files
    ensures IsListing(files[f.key := f], listed + [f])
  {
    var files', listed' := files[f.key := f], listed + [f];
    forall k | k in files' ensures files'[k].key == k && files'[k] in listed' {
      if k == f.key {
        assert listed'[|listed|] == f;
      } else {
        assert files[k] in listed;
      }
    }
  }

  /** A reordered listing lists the same files. */
  lemma SameListing(files: map<Key, File>, listed: seq<File>, order: seq<File>)
    requires IsListing(files, listed) && multiset(order) == multiset(listed)
    ensures IsListing(files, order)
  {
    forall i | 0 <= i < |order| ensures order[i].key in files && files[order[i].key] == order[i] {
      assert order[i] in multiset(listed);
    }
    forall k | k in files ensures files[k].key == k && files[k] in order {
      assert files[k] in multiset(order);
    }
    forall i, j | 0 <= i < j < |order| ensures order[i].key != order[j].key {
      if order[i] == order[j] {
        assert order == order[..i] + [order[i]] + order[i + 1..j] + [order[j]] + order[j + 1..];
        assert multiset(order)[order[i]] >= 2;
        ListedOnce(listed, order[i]);
      }
    }
  }

  lemma {:induction false} ListedOnce(listed: seq<File>, f: File)
    requires forall i, j | 0 <= i < j < |listed| :: listed[i].key != listed[j].key
    ensures multiset(listed)[f] <= 1
    decreases |listed|
  {
    if listed != [] {
      ListedOnce(listed[1..], f);
      assert listed == [listed[0]] + listed[1..];
      if f == listed[0] {
        assert f !in listed[1..];
      }
    }
  }

  function Attempted(order: seq<File>, n: nat, stuck: set<Key>): set<Key>
    requires n <= |order|
  {
    set i | 0 <= i < n && order[i].key !in stuck :: order[i].key
  }

  lemma AttemptedNext(order: seq<File>, n: nat, stuck: set<Key>)
    requires n < |order|
    ensures Attempted(order, n + 1, stuck) ==
            Attempted(order, n, stuck) + if order[n].key in stuck then {} else {order[n].key}
  {
  }

  lemma RemoveOneMore<V>(m: map<Key, V>, gone: set<Key>, more: set<Key>)
    ensures m - gone - more == m - (gone + more)
  {
  }

  /** The directory after enforcement: for some modification-time order of its files, a prefix
      was attempted while the budget was exceeded, and what could be removed of it is gone. */
  ghost predicate BudgetEnforced(before: map<Key, File>, after: map<Key, File>,
                                 stuck: set<Key>, maxEntries: int, maxBytes: int) {
    exists order: seq<File>, n: nat ::
      && IsListing(before, order) && ByModTime(order)
      && Enforced(order, stuck, maxEntries, maxBytes, n)
      && after == before - Attempted(order, n, stuck)
  }

  lemma EnforcementDone(before: map<Key, File>, after: map<Key, File>, order: seq<File>, n: nat, stuck: set<Key>,
                        maxEntries: int, maxBytes: int)
    requires IsListing(before, order) && ByModTime(order) && Enforced(order, stuck, maxEntries, maxBytes, n)
    requires after == before - Attempted(order, n, stuck)
    ensures BudgetEnforced(before, after, stuck, maxEntries, maxBytes)
  {
  }

  lemma ListingTail(files: map<Key, File>, order: seq<File>)
    requires IsListing(files, order) && order != []
    ensures IsListing(files - {order[0].key}, order[1..])
  {
    forall k | k in files - {order[0].key} ensures files[k].key == k && files[k] in order[1..] {
      assert files[k] in order;
      assert order == [order[0]] + order[1..];
    }
    forall i | 0 <= i < |order[1..]| ensures order[1..][i].key in files - {order[0].key} {
      assert order[1..][i] == order[i + 1];
    }
  }

  lemma ListingPrepended(files: map<Key, File>, listed: seq<File>, f: File)
    requires IsListing(files, listed) && f.key !in files
    ensures IsListing(files[f.key := f], [f] + listed)
  {
    var files', listed' := files[f.key := f], [f] + listed;
    forall k | k in files' ensures files'[k].key == k && files'[k] in listed' {
      if k == f.key {
        assert listed'[0] == f;
      } else {
        assert files[k] in listed;
      }
    }
  }

  /** What enforcement counts is what is in the directory. */
  lemma {:induction false} LeftIsListing(files: map<Key, File>, order: seq<File>, n: nat, stuck: set<Key>)
    requires IsListing(files, order) && n <= |order|
    ensures IsListing(files - Attempted(order, n, stuck), Left(order, n, stuck))
    decreases n
  {
    if n == 0 {
      assert files - Attempted(order, 0, stuck) == files;
    } else {
      ListingTail(files, order);
      LeftIsListing(files - {order[0].key}, order[1..], n - 1, stuck);
      AttemptedFirst(order, n, stuck);
      FirstBack(files, order, n, stuck);
    }
  }

  lemma FirstNotAttempted(files: map<Key, File>, order: seq<File>, n: nat, stuck: set<Key>)
    requires IsListing(files, order) && 0 < n <= |order|
    ensures order[0].key !in Attempted(order[1..], n - 1, stuck)
  {
    var gone := Attempted(order[1..], n - 1, stuck);
    forall k | k in gone ensures k != order[0].key {
      var i :| 0 <= i < n - 1 && order[1..][i].key !in stuck && order[1..][i].key == k;
      assert order[i + 1].key == k;
    }
  }

  lemma RemoveAndPutBack<V>(m: map<Key, V>, k: Key, gone: set<Key>)
    requires k in m && k !in gone
    ensures (m - {k} - gone)[k := m[k]] == m - gone
  {
  }

  lemma FirstBack(files: map<Key, File>, order: seq<File>, n: nat, stuck: set<Key>)
    requires IsListing(files, order) && 0 < n <= |order|
    requires Attempted(order, n, stuck) ==
             Attempted(order[1..], n - 1, stuck) + if order[0].key in stuck then {} else {order[0].key}
    requires IsListing(files - {order[0].key} - Attempted(order[1..], n - 1, stuck), Left(order[1..], n - 1, stuck))
    ensures IsListing(files - Attempted(order, n, stuck), Left(order, n, stuck))
  {
    var f, gone := order[0], Attempted(order[1..], n - 1, stuck);
    if f.key in stuck {
      FirstNotAttempted(files, order, n, stuck);
      ListingPrepended(files - {f.key} - gone, Left(order[1..], n - 1, stuck), f);
      RemoveAndPutBack(files, f.key, gone);
      assert Attempted(order, n, stuck) == gone;
    } else {
      RemoveOneMore(files, {f.key}, gone);
      assert {f.key} + gone == Attempted(order, n, stuck);
    }
  }

  lemma AttemptedFirst(order: seq<File>, n: nat, stuck: set<Key>)
    requires 0 < n <= |order|
    ensures Attempted(order, n, stuck) ==
            Attempted(order[1..], n - 1, stuck) + if order[0].key in stuck then {} else {order[0].key}
  {
    forall k | k in Attempted(order, n, stuck)
      ensures k in Attempted(order[1..], n - 1, stuck) + if order[0].key in stuck then {} else {order[0].key}
    {
      var i :| 0 <= i < n && order[i].key !in stuck && order[i].key == k;
      if i > 0 {
        assert order[1..][i - 1].key == k;
      }
    }
    forall k | k in Attempted(order[1..], n - 1, stuck) ensures k in Attempted(order, n, stuck) {
      var i :| 0 <= i < n - 1 && order[1..][i].key !in stuck && order[1..][i].key == k;
      assert order[i + 1].key == k;
    }
  }

  /** After enforcement the directory meets both limits, or nothing removable is left in it. */
  lemma BudgetHoldsOrOnlyStuckFilesRemain(before: map<Key, File>, after: map<Key, File>,
                                          stuck: set<Key>, maxEntries: int, maxBytes: int)
    requires BudgetEnforced(before, after, stuck, maxEntries, maxBytes)
    ensures || (exists listed :: IsListing(after, listed) && WithinBudget(listed, maxEntries, maxBytes))
            || after.Keys <= stuck
  {
    var order: seq<File>, n: nat :|
      && IsListing(before, order) && ByModTime(order)
      && Enforced(order, stuck, maxEntries, maxBytes, n)
      && after == before - Attempted(order, n, stuck);
    LeftIsListing(before, order, n, stuck);
    if n == |order| {
      forall k | k in after ensures k in stuck {
        var i :| 0 <= i < |order| && order[i] == before[k];
        assert order[i].key == k;
        assert k !in Attempted(order, n, stuck);
      }
    }
  }

  // ---- The cache ----

  class Cache {
    var files: map<Key, File>
    const maxEntries: int
    const maxBytes: int

    ghost predicate Valid()
      reads this
    {
      forall k | k in files :: files[k].key == k
    }

    constructor (maxEntries: int, maxBytes: int)
      ensures Valid() && files == map[]
    {
      files, this.maxEntries, this.maxBytes := map[], maxEntries, maxBytes;
    }

    /** `stuck` are the keys whose files cannot be removed at the moment.  A file that cannot be
        read back is an error, not just a miss. */
    method Get(key: Key, refID: string, p: Policy, now: Time, stuck: set<Key>) returns (hit: Option<Hit>, failed: bool)
      requires Valid()
      modifies this
      ensures Valid() && failed == (key in old(files) && old(files)[key].content.None?)
      ensures hit == DiskLookup(old(files), key, refID, p, now)
      ensures files == AfterDiskLookup(old(files), key, p, now, stuck)
      ensures hit.Some? ==>
                && key in old(files) && key in files && files[key] == old(files)[key].(modTime := now)
                && files - {key} == old(files) - {key}
      ensures hit.None? ==> files == old(files) || files == old(files) - {key}
    {
      if key !in files {
        return None, false;
      }
      if files[key].content.None? {
        var _ := RemoveKey(key, stuck);
        return None, true;
      }
      var entry := files[key].content.value;
      var age := now - entry.createdAt;
      var stale := false;
      if age > p.ttl {
        if p.staleTTL <= 0 || age > p.ttl + p.staleTTL {
          var _ := RemoveKey(key, stuck);
          return None, false;
        }
        stale := true;
      }
      files := files[key := files[key].(modTime := now)];
      var frames := CloneFramesForRefID(entry.frames, entry.refID, refID);
      return Some(Hit(frames, age, stale, entry.createdAt)), false;
    }

    method RemoveKey(key: Key, stuck: set<Key>) returns (removed: bool)
      requires Valid()
      modifies this
      ensures Valid() && removed == (key in old(files) && key !in stuck)
      ensures files == if key in stuck then old(files) else old(files) - {key}
    {
      removed := key in files && key !in stuck;
      if key !in stuck {
        files := files - {key};
      }
    }

    /** Writing may fail, and then nothing changes; a written file has the write's time.  When the
        directory cannot be listed afterwards the put is an error, but the file stays. */
    method Put(key: Key, frames: seq<Frame>, refID: string, size: nat, now: Time,
               writable: bool, listable: bool, stuck: set<Key>)
      returns (ok: bool)
      requires Valid()
      modifies this
      ensures Valid() && ok == (writable && listable)
      ensures !writable ==> files == old(files)
      ensures writable ==>
                var f := File(key, Some(DiskEntry(Clone(frames, refID, refID), refID, now)), size, now);
                if listable then BudgetEnforced(old(files)[key := f], files, stuck, maxEntries, maxBytes)
                else files == old(files)[key := f]
    {
      if !writable {
        return false;
      }
      var cloned := CloneFramesForRefID(frames, refID, refID);
      files := files[key := File(key, Some(DiskEntry(cloned, refID, now)), size, now)];
      ok := EnforceLimits(listable, stuck);
    }

    method EnforceLimits(listable: bool, stuck: set<Key>) returns (ok: bool)
      requires Valid()
      modifies this
      ensures Valid() && ok == listable
      ensures if listable then BudgetEnforced(old(files), files, stuck, maxEntries, maxBytes) else files == old(files)
    {
      if !listable {
        return false;
      }
      var order := ListByModTime();
      var total := SumSizes(order);
      var count, i := |order|, 0;
      assert Attempted(order, 0, stuck) == {};
      assert files - {} == files;
      while i < |order| && ((maxEntries > 0 && count > maxEntries) || (maxBytes > 0 && total > maxBytes))
        invariant 0 <= i <= |order|
        invariant count == |Left(order, i, stuck)| && total == TotalSize(Left(order, i, stuck))
        invariant OverBudgetBefore(order, stuck, maxEntries, maxBytes, i)
        invariant files == old(files) - Attempted(order, i, stuck)
      {
        LeftNext(order, i, stuck);
        AttemptedNext(order, i, stuck);
        OverBudgetAt(order, stuck, maxEntries, maxBytes, i);
        if order[i].key !in stuck {
          RemoveOneMore(old(files), Attempted(order, i, stuck), {order[i].key});
          files := files - {order[i].key};
          count := count - 1;
          total := total - order[i].size;
        }
        i := i + 1;
      }
      EnforcementDone(old(files), files, order, i, stuck, maxEntries, maxBytes);
      return true;
    }

    /** Files with equal modification times come in any order. */
    method ListByModTime() returns (order: seq<File>)
      requires Valid()
      ensures IsListing(files, order) && ByModTime(order)
    {
      var listed := ListFiles();
      OrderExists(listed);
      order :| multiset(order) == multiset(listed) && ByModTime(order);
      SameListing(files, listed, order);
    }

    method SumSizes(order: seq<File>) returns (total: nat)
      ensures total == TotalSize(order)
    {
      total := 0;
      var i := |order|;
      while i > 0
        invariant 0 <= i <= |order| && total == TotalSize(order[i..])
      {
        i := i - 1;
        assert order[i..][1..] == order[i + 1..];
        total := order[i].size + total;
      }
      assert order[0..] == order;
    }

    /** The directory listing: every file once, in any order. */
    method ListFiles() returns (listed: seq<File>)
      requires Valid()
      ensures IsListing(files, listed)
    {
      listed := [];
      var unseen := files.Keys;
      while unseen != {}
        invariant unseen <= files.Keys
        invariant IsListing(files - unseen, listed)
        decreases unseen
      {
        var k :| k in unseen;
        ListingGrows(files - unseen, listed, files[k]);
        assert files - (unseen - {k}) == (files - unseen)[k := files[k]];
        listed := listed + [files[k]];
        unseen := unseen - {k};
      }
      assert files - unseen == files;
    }

    /** Unreadable files are removed as well as expired ones. */
    method ClearExpired(p: Policy, now: Time, listable: bool, stuck: set<Key>) returns (removed: nat, ok: bool)
      requires Valid()
      modifies this
      ensures Valid() && ok == listable && removed == |old(files)| - |files|
      ensures !listable ==> files == old(files)
      ensures listable ==>
                files == map k | k in old(files) && (k in stuck || !Clearable(old(files)[k], p, now)) :: old(files)[k]
    {
      removed, ok := 0, listable;
      if !listable {
        return;
      }
      ghost var all := files.Keys;
      var unseen := files.Keys;
      while unseen != {}
        invariant unseen <= files.Keys <= all == old(files).Keys && Valid()
        invariant forall k | k in files :: files[k] == old(files)[k]
        invariant forall k | k in all && k !in unseen ::
                    k in files <==> (k in stuck || !Clearable(old(files)[k], p, now))
        invariant removed + |files| == |old(files)|
        decreases unseen
      {
        var k :| k in unseen;
        if files[k].content.None? || now - files[k].content.value.createdAt > p.ttl + p.staleTTL {
          ghost var before := files;
          var gone := RemoveKey(k, stuck);
          if gone {
            SmallerWithout(before, k);
            removed := removed + 1;
          }
        }
        unseen := unseen - {k};
      }
    }
  }
}
