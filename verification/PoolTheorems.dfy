/** What every interleaving of the pool protocol guarantees. */
module PoolTheorems {
  import opened SyncPool
  import opened PoolProtocol
  import opened PoolInvariant

  // ---- Conservation ----

  /** Every slot is one idle connection, one caller or the closer; nothing has two owners;
      every connection that is not closed has exactly one. */
  lemma SlotsAndConnectionsConserved(run: seq<Step>)
    requires Possible(INITIAL, run)
    ensures var s := Final(INITIAL, run);
            && s.pool.slots == SlotsAccountedFor(s) <= s.pool.max
            && (forall h, k, conn :: Owns(s, h, conn) && Owns(s, k, conn) ==> h == k)
            && (forall conn | conn in s.dialled - s.shut :: Owned(s, conn))
  {
    InitialInv();
    RunKeepsInv(INITIAL, run);
  }

  /** A release on an open pool always finds room, and whoever gives a slot back finds one. */
  lemma FullAndEmptyBranchesUnreachable(run: seq<Step>, t: Thread)
    requires Possible(INITIAL, run)
    ensures var s := Final(INITIAL, run);
            && (PcOf(s, t).Releasing? ==> (ReleaseOutcome(s.pool).MustClose? <==> s.pool.closed))
            && (PcOf(s, t).Freeing? ==> s.pool.created && s.pool.slots > 0)
            && (PcOf(s, t).TookIdle? || PcOf(s, t).Dialled? ==> s.pool.created && s.pool.slots > 0)
            && (s.closer.DrainFreeing? ==> s.pool.created && s.pool.slots > 0)
  {
    InitialInv();
    RunKeepsInv(INITIAL, run);
    var s := Final(INITIAL, run);
    if OwnsSlot(PcOf(s, t)) {
      SlotOwnerCounts(s, t);
    }
  }

  // ---- No acquirer is stuck behind a lost slot ----

  ghost predicate OnlyTheTimerIsLeft(s: State, t: Thread) {
    PcOf(s, t).Waiting? && !Enabled(s, WaitTake(t)) && !Enabled(s, WaitReserve(t))
  }

  /** An acquirer that can only wait for its timer faces `max` slot owners, all able to move. */
  lemma BlockedMeansAllSlotsAreRunning(run: seq<Step>, t: Thread)
    requires Possible(INITIAL, run) && OnlyTheTimerIsLeft(Final(INITIAL, run), t)
    ensures var s := Final(INITIAL, run);
            && |SlotOwners(s.threads)| + (if CloserOwnsSlot(s.closer) then 1 else 0) == s.pool.max
            && (forall u | u in SlotOwners(s.threads) :: CanMove(s, u))
            && (CloserOwnsSlot(s.closer) ==> Enabled(s, DrainClose) || Enabled(s, DrainFree))
  {
    InitialInv();
    RunKeepsInv(INITIAL, run);
    BlockedState(Final(INITIAL, run), t);
  }

  lemma BlockedState(s: State, t: Thread)
    requires Bounded(s) && OnlyTheTimerIsLeft(s, t)
    ensures |SlotOwners(s.threads)| + (if CloserOwnsSlot(s.closer) then 1 else 0) == s.pool.max
    ensures forall u | u in SlotOwners(s.threads) :: CanMove(s, u)
    ensures CloserOwnsSlot(s.closer) ==> Enabled(s, DrainClose) || Enabled(s, DrainFree)
  {
    forall u | u in SlotOwners(s.threads) ensures CanMove(s, u) {
      OwnersCanMove(s, u);
    }
  }

  ghost predicate CanMove(s: State, t: Thread) {
    exists step: Step :: step.ByCaller() && step.t == t && Enabled(s, step)
  }

  /** The step every slot owner can take on its own, without waiting for anybody. */
  function OwnMove(pc: Pc, t: Thread, newQuery: Query): Step {
    match pc
    case TookIdle(_) => ActivateIt(t)
    case Dialled(_) => ActivateIt(t)
    case Dialling => DialFail(t)
    case Holding(_) => StartQuery(t, newQuery)
    case Awaiting(_, _) => QueryTimeout(t)
    case TimedOut(_, _) => TimeoutClose(t)
    case Releasing(_) => ReleaseSection(t)
    case Discarding(_) => DiscardSection(t)
    case Closing(_) => CloseConn(t)
    case _ => FreeIt(t)
  }

  lemma OwnersCanMove(s: State, t: Thread)
    requires t in s.threads && OwnsSlot(s.threads[t])
    ensures CanMove(s, t)
  {
    var newQuery := FreshKey(s.readers.Keys);
    var step := OwnMove(s.threads[t], t, newQuery);
    assert step.ByCaller() && step.t == t && Enabled(s, step);
  }

  lemma {:induction false} FreshKey(keys: set<nat>) returns (k: nat)
    ensures forall x | x in keys :: x < k
    decreases keys
  {
    k := 0;
    if keys != {} {
      var x :| x in keys;
      k := FreshKey(keys - {x});
      assert forall y | y in keys :: y == x || y in keys - {x};
      if k <= x { k := x + 1; }
    }
  }

  /** Own steps left before the slot goes back. */
  function Rank(pc: Pc): nat {
    match pc
    case Dialling => 8
    case TookIdle(_) => 7
    case Dialled(_) => 7
    case Holding(_) => 6
    case Awaiting(_, _) => 5
    case TimedOut(_, _) => 4
    case Releasing(_) => 3
    case Discarding(_) => 3
    case Closing(_) => 2
    case Freeing => 1
    case _ => 0
  }

  function OwnSteps(run: seq<Step>, t: Thread): nat {
    if run == [] then 0
    else (if run[0].ByCaller() && run[0].t == t then 1 else 0) + OwnSteps(run[1..], t)
  }

  /** `t` owns its slot at the start of every step of `run`. */
  predicate OwnsThroughout(s: State, run: seq<Step>, t: Thread)
    requires Possible(s, run)
    decreases |run|
  {
    run == [] || (OwnsSlot(PcOf(s, t)) && OwnsThroughout(Apply(s, run[0]), run[1..], t))
  }

  /** Whatever the others do, a slot owner gives its slot up within eight steps of its own. */
  lemma {:induction false} SlotsAreHeldBriefly(s: State, run: seq<Step>, t: Thread)
    requires Possible(s, run) && OwnsThroughout(s, run, t)
    ensures OwnSteps(run, t) <= Rank(PcOf(s, t)) <= 8
    decreases |run|
  {
    if run != [] {
      var s' := Apply(s, run[0]);
      RankFalls(s, run[0], t);
      SlotsAreHeldBriefly(s', run[1..], t);
    }
  }

  lemma OwnRankFalls(s: State, step: Step)
    requires Enabled(s, step) && step.ByCaller() && OwnsSlot(PcOf(s, step.t))
    ensures Rank(PcOf(Apply(s, step), step.t)) < Rank(PcOf(s, step.t))
  {
  }

  lemma RankFalls(s: State, step: Step, t: Thread)
    requires Enabled(s, step) && OwnsSlot(PcOf(s, t))
    ensures step.ByCaller() && step.t == t ==> Rank(PcOf(Apply(s, step), t)) < Rank(PcOf(s, t))
    ensures !(step.ByCaller() && step.t == t) ==> PcOf(Apply(s, step), t) == PcOf(s, t)
  {
    if step.ByCaller() && step.t == t {
      OwnRankFalls(s, step);
    } else {
      OthersPc(s, step, t);
    }
  }

  // ---- Closing ----

  /** Once the flag is set it stays, nothing is active, and the idle channel only loses its
      oldest connections. */
  lemma {:induction false} NothingEntersAClosedPool(s: State, run: seq<Step>)
    requires Inv(s) && s.pool.closed && Possible(s, run)
    ensures var f := Final(s, run);
            && f.pool.closed && f.pool.active == {}
            && |f.pool.idle| <= |s.pool.idle|
            && f.pool.idle == s.pool.idle[|s.pool.idle| - |f.pool.idle|..]
            && (forall t, conn :: HoldsActive(f, t, conn) ==> HoldsActive(s, t, conn))
    decreases |run|
  {
    if run != [] {
      var s' := Apply(s, run[0]);
      KeepsInv(s, run[0]);
      ClosedStep(s, run[0]);
      NothingEntersAClosedPool(s', run[1..]);
    }
  }

  lemma ClosedStep(s: State, step: Step)
    requires Bounded(s) && CloserSound(s) && s.pool.closed && Enabled(s, step)
    ensures Apply(s, step).pool.closed
    ensures Apply(s, step).pool.idle == s.pool.idle
         || (s.pool.idle != [] && Apply(s, step).pool.idle == s.pool.idle[1..])
    ensures forall t, conn :: HoldsActive(Apply(s, step), t, conn) ==> HoldsActive(s, t, conn)
  {
    forall t, conn | HoldsActive(Apply(s, step), t, conn) ensures HoldsActive(s, t, conn) {
      ActiveBefore(s, step, t, conn);
    }
  }

  ghost predicate AllOutside(s: State) {
    forall t :: t in s.threads ==> !OwnsSlot(s.threads[t])
  }

  /** When the closer and every caller that owned a slot have finished, nothing is left over:
      also connections dialled or taken by acquirers that raced with the closer are closed. */
  lemma NothingSurvivesClose(run: seq<Step>)
    requires Possible(INITIAL, run)
    requires var s := Final(INITIAL, run); s.closer.Closed? && AllOutside(s)
    ensures var s := Final(INITIAL, run);
            s.pool.closed && s.pool.idle == [] && s.pool.slots == 0 && s.shut == s.dialled
  {
    InitialInv();
    RunKeepsInv(INITIAL, run);
    var s := Final(INITIAL, run);
    assert SlotOwners(s.threads) == {};
    forall conn | conn in s.dialled ensures conn in s.shut {
      assert !Owned(s, conn);
    }
  }

  /** On an open pool with no call under way the slots are the idle connections, and the idle
      connections are exactly the live ones. */
  lemma NothingLeaksWhileOpen(run: seq<Step>)
    requires Possible(INITIAL, run)
    requires var s := Final(INITIAL, run); !s.pool.closed && AllOutside(s)
    ensures var s := Final(INITIAL, run);
            && s.pool.slots == |s.pool.idle| && s.pool.active == {}
            && s.dialled - s.shut == Members(s.pool.idle)
  {
    InitialInv();
    RunKeepsInv(INITIAL, run);
    var s := Final(INITIAL, run);
    assert SlotOwners(s.threads) == {};
    forall conn | conn in s.dialled - s.shut ensures conn in s.pool.idle {
      var h :| Owns(s, h, conn);
      assert s.pool.idle[h.i] == conn;
    }
    forall conn | conn in s.pool.idle ensures conn in s.dialled - s.shut {
      var i :| 0 <= i < |s.pool.idle| && s.pool.idle[i] == conn;
      assert Owns(s, IdleSlot(i), conn);
      assert OwnerWire(s, IdleSlot(i), conn);
    }
    assert forall t, conn :: !HoldsActive(s, t, conn);
    assert s.pool.active == {};
  }

  // ---- Replies ----

  /** Whatever fails, times out or arrives late, a caller that gets a reply gets its own. */
  lemma RepliesReachTheirOwnCallers(run: seq<Step>, q: Query)
    requires Possible(INITIAL, run) && q in Final(INITIAL, run).delivered
    ensures Final(INITIAL, run).delivered[q] == q
  {
    InitialInv();
    RunKeepsInv(INITIAL, run);
  }

  /** A connection waiting to be reused is clean: nothing outstanding, nobody still reading. */
  lemma IdleConnectionsAreClean(run: seq<Step>, i: nat)
    requires Possible(INITIAL, run) && i < |Final(INITIAL, run).pool.idle|
    ensures var s := Final(INITIAL, run);
            var conn := s.pool.idle[i];
            && conn in s.wire && s.wire[conn] == []
            && (!s.pool.closed ==> conn !in s.shut)
            && (!s.pool.closed ==>
                  forall q | q in s.readers && s.readers[q].conn == conn :: s.readers[q].phase.Done?)
  {
    InitialInv();
    RunKeepsInv(INITIAL, run);
    var s := Final(INITIAL, run);
    var conn := s.pool.idle[i];
    assert Owns(s, IdleSlot(i), conn) && OwnerWire(s, IdleSlot(i), conn);
    forall q | !s.pool.closed && q in s.readers && s.readers[q].conn == conn
      ensures s.readers[q].phase.Done?
    {
      if CallerWaits(s, q) {
        assert Owns(s, Caller(s.readers[q].caller), conn);
      }
    }
  }
}
