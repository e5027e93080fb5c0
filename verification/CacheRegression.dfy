/** Newer answers replaced by older ones: only a promotion does that, and only when a newer answer
    came into memory after the lookup behind it had missed memory. */
module CacheRegression {
  import opened Wrappers
  import opened RefId
  import opened MemoryCache
  import opened CacheRuns
  import D = DiskCache

  /** The step replaces the key's entry by one created earlier. */
  ghost predicate MakesOlder(l: Limits, s: State, step: Step, key: Key)
    requires Enabled(l, s, step)
  {
    var s' := Apply(l, s, step);
    key in s.mem && key in s'.mem && s'.mem[key].createdAt < s.mem[key].createdAt
  }

  // ---- One step ----

  /** A fetched answer is never older than the entry it replaces. */
  lemma FetchedIsNewest(s: State, key: Key)
    requires Inv(s) && key in s.flights && s.flights[key].MemSampled? && key in s.mem
    ensures s.mem[key].createdAt <= s.flights[key].createdAt
  {
    assert FlightSound(s, key, s.flights[key]) && EntrySound(s, key, s.mem[key]);
    var r :| From(s, r, key, s.mem[key].createdAt) && Held(r, s.mem[key].frames, s.mem[key].refID);
  }

  lemma PromotedCreatedAt(s: State, ticket: nat, now: Time)
    requires Inv(s) && ticket in s.searches && s.searches[ticket].Promoting?
    ensures Promoted(s.searches[ticket], now).createdAt == s.searches[ticket].createdAt
  {
    PromotedEntrySound(s, s.searches[ticket], now);
  }

  /** In every reachable state and for every step: the step makes a key's entry older exactly if it
      promotes, for that key, a disk hit older than the entry, and eviction keeps it. */
  lemma OnlyPromotionsMakeOlder(l: Limits, run: seq<Step>, step: Step, key: Key)
    requires Possible(l, INITIAL, run) && Enabled(l, Final(l, INITIAL, run), step)
    ensures var s := Final(l, INITIAL, run);
            MakesOlder(l, s, step, key) <==>
              && step.Promote? && key in s.mem && key in step.kept
              && s.searches[step.ticket].key == key && s.searches[step.ticket].createdAt < s.mem[key].createdAt
  {
    InitialInv();
    RunKeepsInv(l, INITIAL, run);
    StepMakesOlder(l, Final(l, INITIAL, run), step, key);
  }

  lemma StoreMakesNothingOlder(l: Limits, s: State, step: Step, key: Key)
    requires Inv(s) && Enabled(l, s, step) && step.MemStore?
    ensures !MakesOlder(l, s, step, key)
  {
    if step.key in s.mem { FetchedIsNewest(s, step.key); }
  }

  lemma StepMakesOlder(l: Limits, s: State, step: Step, key: Key)
    requires Inv(s) && Enabled(l, s, step)
    ensures MakesOlder(l, s, step, key) <==>
              && step.Promote? && key in s.mem && key in step.kept
              && s.searches[step.ticket].key == key && s.searches[step.ticket].createdAt < s.mem[key].createdAt
  {
    if step.MemStore? {
      StoreMakesNothingOlder(l, s, step, key);
    } else if step.Promote? {
      PromotedCreatedAt(s, step.ticket, step.now);
    } else {
      OtherStepsKeepEntries(l, s, step, key);
    }
  }

  lemma OtherStepsKeepEntries(l: Limits, s: State, step: Step, key: Key)
    requires Enabled(l, s, step) && !step.MemStore? && !step.Promote?
    ensures var s' := Apply(l, s, step); key in s'.mem ==> key in s.mem && s'.mem[key].createdAt == s.mem[key].createdAt
  {
  }

  // ---- How an entry came into memory ----

  /** The step writes an entry of `key` created at `createdAt`. */
  ghost predicate Writes(l: Limits, s: State, step: Step, key: Key, createdAt: Time)
    requires Enabled(l, s, step)
  {
    || (step.MemStore? && step.key == key && s.flights[key].createdAt == createdAt)
    || (step.Promote? && s.searches[step.ticket].key == key
        && Promoted(s.searches[step.ticket], step.now).createdAt == createdAt)
  }

  /** Nobody writes or removes the entry of `key`. */
  ghost predicate LeftAlone(l: Limits, s: State, run: seq<Step>, key: Key)
    requires Possible(l, s, run)
    decreases |run|
  {
    run == [] || (var s' := Apply(l, s, run[0]);
                  && key in s'.mem && (forall c :: !Writes(l, s, run[0], key, c))
                  && LeftAlone(l, s', run[1..], key))
  }

  /** Some step of the run writes an entry of `key` created at `createdAt`, which then stays. */
  ghost predicate CameIn(l: Limits, s: State, run: seq<Step>, key: Key, createdAt: Time)
    requires Possible(l, s, run)
    decreases |run|
  {
    run != [] && (var s' := Apply(l, s, run[0]);
                  || (Writes(l, s, run[0], key, createdAt) && key in s'.mem && LeftAlone(l, s', run[1..], key))
                  || CameIn(l, s', run[1..], key, createdAt))
  }

  lemma WrittenCreatedAt(l: Limits, s: State, step: Step, key: Key, createdAt: Time)
    requires Enabled(l, s, step) && Writes(l, s, step, key, createdAt) && key in Apply(l, s, step).mem
    ensures Apply(l, s, step).mem[key].createdAt == createdAt
  {
  }

  lemma UnwrittenStays(l: Limits, s: State, step: Step, key: Key)
    requires Enabled(l, s, step) && key in Apply(l, s, step).mem && forall c :: !Writes(l, s, step, key, c)
    ensures key in s.mem && Apply(l, s, step).mem[key].createdAt == s.mem[key].createdAt
  {
    if step.MemStore? {
      assert Writes(l, s, step, step.key, s.flights[step.key].createdAt);
    } else if step.Promote? {
      assert Writes(l, s, step, s.searches[step.ticket].key, Promoted(s.searches[step.ticket], step.now).createdAt);
    } else {
      OtherStepsKeepEntries(l, s, step, key);
    }
  }

  /** An entry is in memory because it came in during the run, or was there all the time. */
  lemma {:induction false} EntryCameIn(l: Limits, s: State, run: seq<Step>, key: Key, createdAt: Time)
    requires Possible(l, s, run)
    ensures var f := Final(l, s, run);
            (key in f.mem && f.mem[key].createdAt == createdAt) <==>
              (CameIn(l, s, run, key, createdAt)
               || (key in s.mem && s.mem[key].createdAt == createdAt && LeftAlone(l, s, run, key)))
    decreases |run|
  {
    if run != [] {
      var s' := Apply(l, s, run[0]);
      EntryCameIn(l, s', run[1..], key, createdAt);
      if key in s'.mem {
        if c :| Writes(l, s, run[0], key, c) {
          WrittenCreatedAt(l, s, run[0], key, c);
        } else {
          UnwrittenStays(l, s, run[0], key);
        }
      }
    }
  }

  // ---- The lookup behind a promotion ----

  /** `ticket` stays under way, and keeps its key. */
  ghost predicate UnderWay(l: Limits, s: State, run: seq<Step>, ticket: nat)
    requires Possible(l, s, run)
    decreases |run|
  {
    ticket in s.searches && (run == [] || UnderWay(l, Apply(l, s, run[0]), run[1..], ticket))
  }

  lemma {:induction false} SearchKeepsKey(l: Limits, s: State, run: seq<Step>, ticket: nat)
    requires Possible(l, s, run) && UnderWay(l, s, run, ticket)
    ensures ticket in Final(l, s, run).searches && Final(l, s, run).searches[ticket].key == s.searches[ticket].key
    decreases |run|
  {
    if run != [] {
      SearchKeepsKey(l, Apply(l, s, run[0]), run[1..], ticket);
    }
  }

  /** A lookup misses memory, goes on for the steps of `between`, and then promotes its disk hit.
      The promotion replaces a newer entry exactly if a newer answer came into memory, and stayed,
      since the miss. */
  lemma MakesOlderExactlyIfNewerCameIn(l: Limits, before: seq<Step>, miss: Step, between: seq<Step>, promote: Step)
    requires Possible(l, INITIAL, before) && miss.MemGet? && promote.Promote? && promote.ticket == miss.ticket
    requires var s := Final(l, INITIAL, before); Enabled(l, s, miss) && miss.ticket in Apply(l, s, miss).searches
    requires var s := Apply(l, Final(l, INITIAL, before), miss);
             && Possible(l, s, between) && UnderWay(l, s, between, miss.ticket)
             && Enabled(l, Final(l, s, between), promote)
    ensures var s := Apply(l, Final(l, INITIAL, before), miss);
            var f := Final(l, s, between);
            MakesOlder(l, f, promote, miss.key) <==>
              && miss.key in promote.kept
              && exists c :: c > f.searches[miss.ticket].createdAt && CameIn(l, s, between, miss.key, c)
  {
    var s0 := Final(l, INITIAL, before);
    var s := Apply(l, s0, miss);
    var f, key := Final(l, s, between), miss.key;
    InitialInv();
    RunKeepsInv(l, INITIAL, before);
    KeepsInv(l, s0, miss);
    RunKeepsInv(l, s, between);
    StepMakesOlder(l, f, promote, key);
    SearchKeepsKey(l, s, between, miss.ticket);
    MissedIsAbsent(l, s0, miss);
    if key in f.mem {
      EntryCameIn(l, s, between, key, f.mem[key].createdAt);
    }
    forall c | CameIn(l, s, between, key, c) ensures key in f.mem && f.mem[key].createdAt == c {
      EntryCameIn(l, s, between, key, c);
    }
  }

  lemma MissedIsAbsent(l: Limits, s: State, miss: Step)
    requires miss.MemGet? && Enabled(l, s, miss) && miss.ticket in Apply(l, s, miss).searches
    ensures miss.key !in Apply(l, s, miss).mem && Apply(l, s, miss).searches[miss.ticket].key == miss.key
  {
  }

  // ---- It happens ----

  ghost predicate Reachable(l: Limits, s: State) {
    exists run :: Possible(l, INITIAL, run) && Final(l, INITIAL, run) == s
  }

  lemma {:induction false} RunExtended(l: Limits, s: State, run: seq<Step>, step: Step)
    requires Possible(l, s, run) && Enabled(l, Final(l, s, run), step)
    ensures Possible(l, s, run + [step]) && Final(l, s, run + [step]) == Apply(l, Final(l, s, run), step)
    decreases |run|
  {
    if run == [] {
      assert [step][1..] == [];
    } else {
      RunExtended(l, Apply(l, s, run[0]), run[1..], step);
      assert (run + [step])[1..] == run[1..] + [step];
    }
  }

  lemma Then(l: Limits, s: State, step: Step) returns (s': State)
    requires Reachable(l, s) && Enabled(l, s, step)
    ensures Reachable(l, s') && s' == Apply(l, s, step)
  {
    var run :| Possible(l, INITIAL, run) && Final(l, INITIAL, run) == s;
    RunExtended(l, INITIAL, run, step);
    s' := Apply(l, s, step);
  }

  const ROOMY := Limits(10, 0, 0)
  const ANY_AGE := Policy(100, 0)

  function Answer(now: nat): Fetch {
    Fetch("key", Single(now), "A", now)
  }

  lemma OneFileNeedsNoEnforcing(key: Key, f: D.File)
    requires f.key == key
    ensures D.BudgetEnforced(map[key := f], map[key := f], {}, 0, 0)
  {
    var files, order := map[key := f], [f];
    assert D.IsListing(files, order) by {
      assert files[key] == order[0];
    }
    assert D.Enforced(order, {}, 0, 0, 0);
    assert files - D.Attempted(order, 0, {}) == files;
  }

  /** An answer of time `now` has arrived, and the clock has been read for storing it. */
  lemma AboutToStore(s: State, now: nat) returns (s': State)
    requires Reachable(ROOMY, s) && s.clock == now && "key" !in s.flights
    ensures Reachable(ROOMY, s') && s'.flights == s.flights["key" := MemSampled(Answer(now), now)]
    ensures s'.clock == now && s'.mem == s.mem && s'.disk == s.disk && s'.searches == s.searches
  {
    s' := Then(ROOMY, s, EnterFlight("key"));
    s' := Then(ROOMY, s', FetchOk("key", Single(now), "A"));
    s' := Then(ROOMY, s', SampleMemory("key"));
  }

  /** Now it is in memory; its caller is about to store it on disk. */
  lemma StoredInMemory(s: State, now: nat) returns (s': State)
    requires Reachable(ROOMY, s) && s.clock == now && "key" !in s.flights && s.mem.Keys <= {"key"}
    ensures Reachable(ROOMY, s') && s'.flights == s.flights["key" := MemStored(Answer(now))]
            && s'.searches == s.searches
    ensures s'.clock == now && s'.disk == s.disk && s'.mem.Keys == {"key"} && s'.mem["key"].createdAt == now
  {
    s' := AboutToStore(s, now);
    var mem := s'.mem["key" := EntryOf(Answer(now), now, now)];
    assert mem.Keys == {"key"};
    assert Evicted(mem, mem, 10);
    s' := Then(ROOMY, s', MemStore("key", now, mem));
  }

  /** A lookup has missed memory and read an answer of time 1 from the disk. */
  lemma OldAnswerOnItsWay() returns (s: State)
    ensures Reachable(ROOMY, s) && s.mem == map[] && s.clock == 1 && s.flights == map[]
    ensures 0 in s.searches && s.searches[0].Promoting? && s.searches[0].key == "key" && s.searches[0].createdAt == 1
  {
    assert Possible(ROOMY, INITIAL, []);
    s := StoredInMemory(INITIAL, 1);
    s := Then(ROOMY, s, SampleDisk("key"));
    var file := FileOf(Answer(1), 1, 0);
    OneFileNeedsNoEnforcing("key", file);
    assert s.disk["key" := file] == map["key" := file];
    s := Then(ROOMY, s, DiskStore("key", 0, {}, true, map["key" := file]));
    s := Then(ROOMY, s, LeaveFlight("key"));
    s := Then(ROOMY, s, MemDrop({"key"}));
    assert s.mem == map[] && s.flights == map[];
    s := Then(ROOMY, s, MemGet("key", "A", ANY_AGE, 1, 0));
    s := Then(ROOMY, s, DiskGet(0, 1, {}));
  }

  /** Meanwhile a refresh stores a new answer in memory; then the promotion puts the old one back. */
  lemma NewerEntryIsReplacedByAnOlderOne() returns (s: State, step: Step)
    ensures Reachable(ROOMY, s) && Enabled(ROOMY, s, step) && MakesOlder(ROOMY, s, step, "key")
  {
    s := OldAnswerOnItsWay();
    s := Then(ROOMY, s, Tick(10));
    s := StoredInMemory(s, 10);
    var put := s.mem["key" := Promoted(s.searches[0], 10)];
    assert put.Keys == {"key"};
    step := Promote(0, 10, put);
  }
}
