/** Both cache tiers over any run of fetches, stores, lookups, promotions, evictions and
    clearings, by any number of callers.  The fetch and the two stores of a key happen inside its
    flight, one caller at a time, each after a clock reading of its own.  Lookups run outside or
    inside a flight: memory first, then, after a miss, the disk, and a disk hit is written to
    memory some time later, under a creation time read long before.  Lookups judge by a clock
    reading that may be old. */
module CacheRuns {
  import opened Wrappers
  import opened RefId
  import opened MemoryCache
  import D = DiskCache

  /** A query that kdb+ answered: `at` is when the answer was there. */
  datatype Fetch = Fetch(key: Key, response: Response, refID: string, at: Time)

  datatype Tier = Memory | Disk
  datatype StoreRecord = StoreRecord(fetch: Fetch, createdAt: Time, tier: Tier)

  /** How far the caller inside a key's flight has come. */
  datatype Flight =
    | Entered
    | Answered(fetch: Fetch)
    | MemSampled(fetch: Fetch, createdAt: Time)
    | MemStored(fetch: Fetch)
    | DiskSampled(fetch: Fetch, createdAt: Time)
    | DiskStored

  /** A lookup that has missed memory; and one whose disk hit is on its way into memory. */
  datatype Search =
    | Missed(key: Key, refID: string, p: Policy)
    | Promoting(key: Key, frames: seq<Frame>, refID: string, createdAt: Time)

  datatype State = State(
    mem: map<Key, Entry>,
    disk: map<Key, D.File>,
    clock: Time,
    fetched: set<Fetch>,
    stored: set<StoreRecord>,
    flights: map<Key, Flight>,
    searches: map<nat, Search>)

  datatype Limits = Limits(maxEntries: nat, diskEntries: int, diskBytes: int)

  const INITIAL := State(map[], map[], 1, {}, {}, map[], map[])

  /** `kept` is what eviction leaves, `left` what the disk budget leaves; `listed` is whether the
      directory could be listed to enforce it. */
  datatype Step =
    | Tick(now: Time)
    | EnterFlight(key: Key)
    | FetchOk(key: Key, response: Response, refID: string)
    | SampleMemory(key: Key)
    | MemStore(key: Key, now: Time, kept: map<Key, Entry>)
    | SampleDisk(key: Key)
    | DiskStore(key: Key, size: nat, stuck: set<Key>, listed: bool, left: map<Key, D.File>)
    | LeaveFlight(key: Key)
    | MemGet(key: Key, refID: string, p: Policy, now: Time, ticket: nat)
    | DiskGet(ticket: nat, now: Time, stuck: set<Key>)
    | GiveUp(ticket: nat)
    | Promote(ticket: nat, now: Time, kept: map<Key, Entry>)
    | MemDrop(keys: set<Key>)
    | DiskDrop(keys: set<Key>)
    | Corrupt(key: Key)

  function FileOf(f: Fetch, createdAt: Time, size: nat): D.File {
    D.File(f.key, Some(D.DiskEntry(Clone(Parse(f.response, f.refID), f.refID, f.refID), f.refID, createdAt)),
           size, createdAt)
  }

  function EntryOf(f: Fetch, createdAt: Time, now: Time): Entry {
    Stored(Parse(f.response, f.refID), f.refID, createdAt, now)
  }

  /** A promotion stores under the requester's refID and the disk entry's creation time; only a
      zero time would be replaced by the clock. */
  function Promoted(pr: Search, now: Time): Entry
    requires pr.Promoting?
  {
    Stored(pr.frames, pr.refID, if pr.createdAt == ZERO_TIME then now else pr.createdAt, now)
  }

  ghost predicate DiskLeft(l: Limits, before: map<Key, D.File>, left: map<Key, D.File>, stuck: set<Key>, listed: bool) {
    if listed then D.BudgetEnforced(before, left, stuck, l.diskEntries, l.diskBytes) else left == before
  }

  ghost predicate Enabled(l: Limits, s: State, step: Step) {
    match step
    case Tick(now) => now >= s.clock
    case EnterFlight(key) => key !in s.flights
    case FetchOk(key, _, _) => key in s.flights && s.flights[key].Entered?
    case SampleMemory(key) => key in s.flights && s.flights[key].Answered?
    case MemStore(key, now, kept) =>
      && key in s.flights && s.flights[key].MemSampled? && now <= s.clock
      && Evicted(s.mem[key := EntryOf(s.flights[key].fetch, s.flights[key].createdAt, now)], kept, l.maxEntries)
    case SampleDisk(key) => key in s.flights && s.flights[key].MemStored?
    case DiskStore(key, size, stuck, listed, left) =>
      && key in s.flights && s.flights[key].DiskSampled?
      && DiskLeft(l, s.disk[key := FileOf(s.flights[key].fetch, s.flights[key].createdAt, size)], left, stuck, listed)
    case LeaveFlight(key) => key in s.flights && !s.flights[key].MemSampled?
    case MemGet(_, _, _, now, ticket) => now <= s.clock && ticket !in s.searches
    case DiskGet(ticket, now, _) => now <= s.clock && ticket in s.searches && s.searches[ticket].Missed?
    case GiveUp(ticket) => ticket in s.searches && s.searches[ticket].Missed?
    case Promote(ticket, now, kept) =>
      && now <= s.clock && ticket in s.searches && s.searches[ticket].Promoting?
      && Evicted(s.mem[s.searches[ticket].key := Promoted(s.searches[ticket], now)], kept, l.maxEntries)
    case MemDrop(_) => true
    case DiskDrop(_) => true
    case Corrupt(key) => key in s.disk
  }

  function InFlight(s: State, key: Key, flight: Flight): State {
    s.(flights := s.flights[key := flight])
  }

  function Apply(l: Limits, s: State, step: Step): State
    requires Enabled(l, s, step)
  {
    match step
    case Tick(now) => s.(clock := now)
    case EnterFlight(key) => InFlight(s, key, Entered)
    case FetchOk(key, response, refID) =>
      var f := Fetch(key, response, refID, s.clock);
      InFlight(s, key, Answered(f)).(fetched := s.fetched + {f})
    case SampleMemory(key) => InFlight(s, key, MemSampled(s.flights[key].fetch, s.clock))
    case MemStore(key, _, kept) =>
      var flight := s.flights[key];
      InFlight(s, key, MemStored(flight.fetch))
      .(mem := kept, stored := s.stored + {StoreRecord(flight.fetch, flight.createdAt, Memory)})
    case SampleDisk(key) => InFlight(s, key, DiskSampled(s.flights[key].fetch, s.clock))
    case DiskStore(key, _, _, _, left) =>
      var flight := s.flights[key];
      InFlight(s, key, DiskStored)
      .(disk := left, stored := s.stored + {StoreRecord(flight.fetch, flight.createdAt, Disk)})
    case LeaveFlight(key) => s.(flights := s.flights - {key})
    case MemGet(key, refID, p, now, ticket) =>
      s.(mem := AfterLookup(s.mem, key, p, now),
         searches := if Lookup(s.mem, key, refID, p, now).Some? then s.searches
                     else s.searches[ticket := Missed(key, refID, p)])
    case DiskGet(ticket, now, stuck) =>
      var q := s.searches[ticket];
      s.(disk := D.AfterDiskLookup(s.disk, q.key, q.p, now, stuck),
         searches := match D.DiskLookup(s.disk, q.key, q.refID, q.p, now)
                     case None => s.searches - {ticket}
                     case Some(hit) => s.searches[ticket := Promoting(q.key, hit.frames, q.refID, hit.createdAt)])
    case GiveUp(ticket) => s.(searches := s.searches - {ticket})
    case Promote(ticket, _, kept) => s.(mem := kept, searches := s.searches - {ticket})
    case MemDrop(keys) => s.(mem := s.mem - keys)
    case DiskDrop(keys) => s.(disk := s.disk - keys)
    case Corrupt(key) => s.(disk := s.disk[key := s.disk[key].(content := None)])
  }

  ghost predicate Possible(l: Limits, s: State, run: seq<Step>)
    decreases |run|
  {
    run == [] || (Enabled(l, s, run[0]) && Possible(l, Apply(l, s, run[0]), run[1..]))
  }

  ghost function Final(l: Limits, s: State, run: seq<Step>): State
    requires Possible(l, s, run)
    decreases |run|
  {
    if run == [] then s else Final(l, Apply(l, s, run[0]), run[1..])
  }

  // ---- Provenance ----

  /** The frames a record is held as: under the refID of its own query, or under that of the
      lookup that promoted it. */
  ghost predicate Held(r: StoreRecord, frames: seq<Frame>, refID: string) {
    || (refID == r.fetch.refID && frames == Served(r.fetch.response, [refID]))
    || (r.tier == Disk && frames == Served(r.fetch.response, [r.fetch.refID, refID]))
  }

  ghost predicate From(s: State, r: StoreRecord, key: Key, createdAt: Time) {
    r in s.stored && r.fetch.key == key && r.createdAt == createdAt
  }

  ghost predicate EntrySound(s: State, key: Key, e: Entry) {
    exists r :: From(s, r, key, e.createdAt) && Held(r, e.frames, e.refID)
  }

  ghost predicate MemSound(s: State, mem: map<Key, Entry>) {
    forall k | k in mem :: EntrySound(s, k, mem[k])
  }

  ghost predicate FileSound(s: State, key: Key, f: D.File) {
    f.content.Some? ==>
      var e := f.content.value;
      exists r :: From(s, r, key, e.createdAt) && r.tier == Disk
                  && e.refID == r.fetch.refID && e.frames == Served(r.fetch.response, [e.refID])
  }

  ghost predicate DiskSound(s: State, disk: map<Key, D.File>) {
    forall k | k in disk :: FileSound(s, k, disk[k])
  }

  ghost predicate SearchSound(s: State, q: Search) {
    q.Promoting? ==>
      exists r :: From(s, r, q.key, q.createdAt) && r.tier == Disk
                  && q.frames == Served(r.fetch.response, [r.fetch.refID, q.refID])
  }

  ghost predicate SearchesSound(s: State, searches: map<nat, Search>) {
    forall t | t in searches :: SearchSound(s, searches[t])
  }

  ghost predicate RecordsSound(s: State) {
    && s.clock >= 1
    && (forall f | f in s.fetched :: 1 <= f.at <= s.clock)
    && (forall r | r in s.stored :: r.fetch in s.fetched && r.fetch.at <= r.createdAt <= s.clock)
  }

  /** No store of `key` so far has a later creation time. */
  ghost predicate NewestOf(s: State, key: Key, createdAt: Time) {
    forall r | r in s.stored && r.fetch.key == key :: r.createdAt <= createdAt
  }

  ghost predicate FlightSound(s: State, key: Key, flight: Flight) {
    match flight
    case Answered(f) => f in s.fetched && f.key == key
    case MemSampled(f, createdAt) =>
      f in s.fetched && f.key == key && f.at <= createdAt <= s.clock && NewestOf(s, key, createdAt)
    case MemStored(f) => f in s.fetched && f.key == key
    case DiskSampled(f, createdAt) =>
      f in s.fetched && f.key == key && f.at <= createdAt <= s.clock && NewestOf(s, key, createdAt)
    case _ => true
  }

  ghost predicate FlightsSound(s: State) {
    forall k | k in s.flights :: FlightSound(s, k, s.flights[k])
  }

  ghost predicate Inv(s: State) {
    RecordsSound(s) && FlightsSound(s) && MemSound(s, s.mem) && DiskSound(s, s.disk) && SearchesSound(s, s.searches)
  }

  // ---- One step ----

  lemma KeepsRecords(l: Limits, s: State, step: Step)
    requires RecordsSound(s) && FlightsSound(s) && Enabled(l, s, step)
    ensures RecordsSound(Apply(l, s, step)) && s.stored <= Apply(l, s, step).stored
  {
    if step.MemStore? || step.DiskStore? {
      assert FlightSound(s, step.key, s.flights[step.key]);
    }
  }

  /** A key's stores happen one after the other, so a creation time read inside the flight is
      the latest of its key until it is used. */
  lemma KeepsFlights(l: Limits, s: State, step: Step)
    requires RecordsSound(s) && FlightsSound(s) && Enabled(l, s, step)
    ensures FlightsSound(Apply(l, s, step))
  {
    var s' := Apply(l, s, step);
    forall k | k in s'.flights ensures FlightSound(s', k, s'.flights[k]) {
      if k in s.flights { assert FlightSound(s, k, s.flights[k]); }
      if step.MemStore? || step.DiskStore? { assert FlightSound(s, step.key, s.flights[step.key]); }
    }
  }

  /** What was stored stays stored. */
  lemma TiersPersist(s: State, s': State)
    requires s.stored <= s'.stored
    requires MemSound(s, s.mem) && DiskSound(s, s.disk) && SearchesSound(s, s.searches)
    ensures MemSound(s', s.mem) && DiskSound(s', s.disk) && SearchesSound(s', s.searches)
  {
    forall k | k in s.mem ensures EntrySound(s', k, s.mem[k]) {
      var r :| From(s, r, k, s.mem[k].createdAt) && Held(r, s.mem[k].frames, s.mem[k].refID);
      assert From(s', r, k, s.mem[k].createdAt);
    }
    forall k | k in s.disk ensures FileSound(s', k, s.disk[k]) {
      assert FileSound(s, k, s.disk[k]);
      if s.disk[k].content.Some? {
        var e := s.disk[k].content.value;
        var r :| From(s, r, k, e.createdAt) && r.tier == Disk
                 && e.refID == r.fetch.refID && e.frames == Served(r.fetch.response, [e.refID]);
        assert From(s', r, k, e.createdAt);
      }
    }
    forall t | t in s.searches ensures SearchSound(s', s.searches[t]) {
      var q := s.searches[t];
      assert SearchSound(s, q);
      if q.Promoting? {
        var r :| From(s, r, q.key, q.createdAt) && r.tier == Disk
                 && q.frames == Served(r.fetch.response, [r.fetch.refID, q.refID]);
        assert From(s', r, q.key, q.createdAt);
      }
    }
  }

  lemma ServedOne(r: Response, refID: string)
    ensures Served(r, [refID]) == Clone(Parse(r, refID), refID, refID)
  {
  }

  lemma ServedTwo(r: Response, stored: string, refID: string)
    ensures Served(r, [stored, refID]) == Clone(Served(r, [stored]), stored, refID)
  {
    assert [stored, refID][..1] == [stored];
  }

  lemma CloneTwice(frames: seq<Frame>, stored: string, refID: string)
    ensures Clone(Clone(frames, stored, refID), refID, refID) == Clone(frames, stored, refID)
  {
  }

  lemma FetchedEntrySound(s': State, f: Fetch, createdAt: Time, now: Time)
    requires StoreRecord(f, createdAt, Memory) in s'.stored
    ensures EntrySound(s', f.key, EntryOf(f, createdAt, now))
  {
    var r := StoreRecord(f, createdAt, Memory);
    ServedOne(f.response, f.refID);
    assert From(s', r, f.key, createdAt) && Held(r, EntryOf(f, createdAt, now).frames, f.refID);
  }

  lemma FetchedFileSound(s': State, f: Fetch, createdAt: Time, size: nat)
    requires StoreRecord(f, createdAt, Disk) in s'.stored
    ensures FileSound(s', f.key, FileOf(f, createdAt, size))
  {
    ServedOne(f.response, f.refID);
    assert From(s', StoreRecord(f, createdAt, Disk), f.key, createdAt);
  }

  /** A promoted entry is the disk record renamed once, and keeps its creation time. */
  lemma PromotedEntrySound(s: State, pr: Search, now: Time)
    requires RecordsSound(s) && pr.Promoting? && SearchSound(s, pr)
    ensures EntrySound(s, pr.key, Promoted(pr, now)) && Promoted(pr, now).createdAt == pr.createdAt
  {
    var r :| From(s, r, pr.key, pr.createdAt) && r.tier == Disk
             && pr.frames == Served(r.fetch.response, [r.fetch.refID, pr.refID]);
    ServedTwo(r.fetch.response, r.fetch.refID, pr.refID);
    CloneTwice(Served(r.fetch.response, [r.fetch.refID]), r.fetch.refID, pr.refID);
    assert Held(r, Promoted(pr, now).frames, pr.refID);
  }

  lemma DiskHitSound(s: State, key: Key, refID: string, p: Policy, now: Time)
    requires DiskSound(s, s.disk) && D.DiskLookup(s.disk, key, refID, p, now).Some?
    ensures var h := D.DiskLookup(s.disk, key, refID, p, now).value;
            SearchSound(s, Promoting(key, h.frames, refID, h.createdAt))
  {
    assert FileSound(s, key, s.disk[key]);
    var e := s.disk[key].content.value;
    var r :| From(s, r, key, e.createdAt) && r.tier == Disk
             && e.refID == r.fetch.refID && e.frames == Served(r.fetch.response, [e.refID]);
    ServedTwo(r.fetch.response, e.refID, refID);
  }

  lemma KeptMemory(s: State, before: map<Key, Entry>, kept: map<Key, Entry>, maxEntries: nat)
    requires MemSound(s, before) && Evicted(before, kept, maxEntries)
    ensures MemSound(s, kept)
  {
  }

  lemma LookedUpMemory(s: State, mem: map<Key, Entry>, key: Key, p: Policy, now: Time)
    requires MemSound(s, mem)
    ensures MemSound(s, AfterLookup(mem, key, p, now))
  {
    var after := AfterLookup(mem, key, p, now);
    forall k | k in after ensures EntrySound(s, k, after[k]) {
      var r :| From(s, r, k, mem[k].createdAt) && Held(r, mem[k].frames, mem[k].refID);
    }
  }

  lemma KeepsMemory(l: Limits, s: State, step: Step)
    requires Inv(s) && Enabled(l, s, step)
    ensures var s' := Apply(l, s, step); MemSound(s', s'.mem)
  {
    var s' := Apply(l, s, step);
    KeepsRecords(l, s, step);
    TiersPersist(s, s');
    match step
    case MemStore(key, now, kept) =>
      var flight := s.flights[key];
      assert FlightSound(s, key, flight);
      FetchedEntrySound(s', flight.fetch, flight.createdAt, now);
      KeptMemory(s', s.mem[key := EntryOf(flight.fetch, flight.createdAt, now)], kept, l.maxEntries);
    case Promote(ticket, now, kept) =>
      var pr := s.searches[ticket];
      PromotedEntrySound(s', pr, now);
      KeptMemory(s', s.mem[pr.key := Promoted(pr, now)], kept, l.maxEntries);
    case MemGet(key, _, p, now, _) => LookedUpMemory(s', s.mem, key, p, now);
    case MemDrop(keys) =>
    case _ => assert s'.mem == s.mem;
  }

  lemma LeftOnDisk(l: Limits, s: State, before: map<Key, D.File>, left: map<Key, D.File>, stuck: set<Key>, listed: bool)
    requires DiskSound(s, before) && DiskLeft(l, before, left, stuck, listed)
    ensures DiskSound(s, left)
  {
  }

  lemma KeepsDisk(l: Limits, s: State, step: Step)
    requires Inv(s) && Enabled(l, s, step)
    ensures var s' := Apply(l, s, step); DiskSound(s', s'.disk)
  {
    var s' := Apply(l, s, step);
    KeepsRecords(l, s, step);
    TiersPersist(s, s');
    match step
    case DiskStore(key, size, stuck, listed, left) =>
      var flight := s.flights[key];
      assert FlightSound(s, key, flight);
      FetchedFileSound(s', flight.fetch, flight.createdAt, size);
      LeftOnDisk(l, s', s.disk[key := FileOf(flight.fetch, flight.createdAt, size)], left, stuck, listed);
    case DiskGet(ticket, now, stuck) =>
    case DiskDrop(keys) =>
    case Corrupt(key) =>
    case _ => assert s'.disk == s.disk;
  }

  lemma KeepsSearches(l: Limits, s: State, step: Step)
    requires Inv(s) && Enabled(l, s, step)
    ensures var s' := Apply(l, s, step); SearchesSound(s', s'.searches)
  {
    var s' := Apply(l, s, step);
    KeepsRecords(l, s, step);
    TiersPersist(s, s');
    if step.DiskGet? {
      var q := s.searches[step.ticket];
      if D.DiskLookup(s.disk, q.key, q.refID, q.p, step.now).Some? {
        DiskHitSound(s, q.key, q.refID, q.p, step.now);
      }
    }
  }

  lemma KeepsInv(l: Limits, s: State, step: Step)
    requires Inv(s) && Enabled(l, s, step)
    ensures Inv(Apply(l, s, step))
  {
    KeepsRecords(l, s, step);
    KeepsFlights(l, s, step);
    KeepsMemory(l, s, step);
    KeepsDisk(l, s, step);
    KeepsSearches(l, s, step);
  }

  lemma InitialInv()
    ensures Inv(INITIAL)
  {
  }

  lemma {:induction false} RunKeepsInv(l: Limits, s: State, run: seq<Step>)
    requires Inv(s) && Possible(l, s, run)
    ensures Inv(Final(l, s, run))
    decreases |run|
  {
    if run != [] {
      KeepsInv(l, s, run[0]);
      RunKeepsInv(l, Apply(l, s, run[0]), run[1..]);
    }
  }

  // ---- What is served ----

  /** `hit` is the answer of a query for `key` stored at `r.createdAt`: given its true age, stale by
      that age alone, and renamed along the refIDs it was held under.  So it is what parsing for
      the requester gives, exactly if no group is named like one of those. */
  ghost predicate ServedFrom(s: State, r: StoreRecord, held: seq<string>, key: Key,
                             refID: string, p: Policy, now: Time, hit: Hit)
    requires held != []
  {
    var answer, chain := r.fetch, held + [refID];
    && r in s.stored && answer in s.fetched && answer.key == key
    && answer.at <= r.createdAt == hit.createdAt
    && hit.age == now - r.createdAt
    && hit.age <= p.ttl + (if p.staleTTL > 0 then p.staleTTL else 0)
    && (hit.stale <==> hit.age > p.ttl)
    && held[0] == answer.refID && |held| <= 2 && (|held| == 2 ==> r.tier == Disk)
    && hit.frames == Served(answer.response, chain)
    && (AllNamed(chain) ==> (hit.frames == Parse(answer.response, refID) <==> NoClash(answer.response, chain)))
  }

  lemma ServedLast(r: Response, held: seq<string>, refID: string)
    requires held != []
    ensures Served(r, held + [refID]) == Clone(Served(r, held), held[|held| - 1], refID)
  {
    assert (held + [refID])[..|held|] == held;
  }

  lemma MemoryServesStoredAnswers(l: Limits, run: seq<Step>, key: Key, refID: string, p: Policy, now: Time)
    requires Possible(l, INITIAL, run)
    requires Lookup(Final(l, INITIAL, run).mem, key, refID, p, now).Some?
    ensures var s := Final(l, INITIAL, run);
            exists r, held: seq<string> :: held != [] &&
              ServedFrom(s, r, held, key, refID, p, now, Lookup(s.mem, key, refID, p, now).value)
  {
    InitialInv();
    RunKeepsInv(l, INITIAL, run);
    var s := Final(l, INITIAL, run);
    var e := s.mem[key];
    assert EntrySound(s, key, e);
    var r :| From(s, r, key, e.createdAt) && Held(r, e.frames, e.refID);
    var held := if r.fetch.refID == e.refID && e.frames == Served(r.fetch.response, [e.refID]) then [e.refID]
                else [r.fetch.refID, e.refID];
    ServedLast(r.fetch.response, held, refID);
    if AllNamed(held + [refID]) { RenamingCommutesWithParsing(r.fetch.response, held + [refID]); }
    assert ServedFrom(s, r, held, key, refID, p, now, Lookup(s.mem, key, refID, p, now).value);
  }

  lemma DiskServesStoredAnswers(l: Limits, run: seq<Step>, key: Key, refID: string, p: Policy, now: Time)
    requires Possible(l, INITIAL, run)
    requires D.DiskLookup(Final(l, INITIAL, run).disk, key, refID, p, now).Some?
    ensures var s := Final(l, INITIAL, run);
            exists r: StoreRecord :: r.tier == Disk &&
              ServedFrom(s, r, [r.fetch.refID], key, refID, p, now, D.DiskLookup(s.disk, key, refID, p, now).value)
  {
    InitialInv();
    RunKeepsInv(l, INITIAL, run);
    var s := Final(l, INITIAL, run);
    assert FileSound(s, key, s.disk[key]);
    var e := s.disk[key].content.value;
    var r :| From(s, r, key, e.createdAt) && r.tier == Disk
             && e.refID == r.fetch.refID && e.frames == Served(r.fetch.response, [e.refID]);
    ServedLast(r.fetch.response, [e.refID], refID);
    if AllNamed([e.refID] + [refID]) { RenamingCommutesWithParsing(r.fetch.response, [e.refID] + [refID]); }
    assert ServedFrom(s, r, [r.fetch.refID], key, refID, p, now, D.DiskLookup(s.disk, key, refID, p, now).value);
  }

  /** Whatever happened since the disk was read, the promoted entry has the creation time of
      a disk store of its key; the clock reading of the promotion never replaces it. */
  lemma PromotionKeepsAge(l: Limits, run: seq<Step>, ticket: nat, now: Time, kept: map<Key, Entry>)
    requires Possible(l, INITIAL, run) && Enabled(l, Final(l, INITIAL, run), Promote(ticket, now, kept))
    ensures var s := Final(l, INITIAL, run); var pr := s.searches[ticket];
            && (exists r :: From(s, r, pr.key, pr.createdAt) && r.tier == Disk)
            && (pr.key in kept ==> kept[pr.key].createdAt == pr.createdAt <= s.clock)
  {
    InitialInv();
    RunKeepsInv(l, INITIAL, run);
    var s := Final(l, INITIAL, run);
    var pr := s.searches[ticket];
    assert SearchSound(s, pr);
    var r :| From(s, r, pr.key, pr.createdAt) && r.tier == Disk
             && pr.frames == Served(r.fetch.response, [r.fetch.refID, pr.refID]);
  }

  // ---- The memory limit ----

  lemma LookupKeepsSize(entries: map<Key, Entry>, key: Key, p: Policy, now: Time)
    ensures |AfterLookup(entries, key, p, now)| <= |entries|
  {
    if key in entries {
      SmallerWithout(entries, key);
      SameSizeUpdated(entries, key, entries[key].(lastAccess := now));
    }
  }

  lemma DropKeepsSize(entries: map<Key, Entry>, keys: set<Key>)
    ensures |entries - keys| <= |entries|
  {
    var left := (entries - keys).Keys;
    assert left <= entries.Keys;
    assert |entries.Keys - left| == |entries.Keys| - |left|;
  }

  lemma EvictedFits(before: map<Key, Entry>, kept: map<Key, Entry>, maxEntries: nat)
    requires Evicted(before, kept, maxEntries)
    ensures |kept| <= maxEntries
  {
  }

  lemma StepKeepsSize(l: Limits, s: State, step: Step)
    requires Enabled(l, s, step) && |s.mem| <= l.maxEntries
    ensures |Apply(l, s, step).mem| <= l.maxEntries
  {
    match step
    case MemGet(key, _, p, now, _) => LookupKeepsSize(s.mem, key, p, now);
    case MemDrop(keys) => DropKeepsSize(s.mem, keys);
    case MemStore(key, now, kept) =>
      EvictedFits(s.mem[key := EntryOf(s.flights[key].fetch, s.flights[key].createdAt, now)], kept, l.maxEntries);
    case Promote(ticket, now, kept) =>
      EvictedFits(s.mem[s.searches[ticket].key := Promoted(s.searches[ticket], now)], kept, l.maxEntries);
    case _ => assert Apply(l, s, step).mem == s.mem;
  }

  lemma {:induction false} MemoryStaysWithinLimit(l: Limits, s: State, run: seq<Step>)
    requires Possible(l, s, run) && |s.mem| <= l.maxEntries
    ensures |Final(l, s, run).mem| <= l.maxEntries
    decreases |run|
  {
    if run != [] {
      StepKeepsSize(l, s, run[0]);
      MemoryStaysWithinLimit(l, Apply(l, s, run[0]), run[1..]);
    }
  }
}
