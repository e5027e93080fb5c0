/** What becomes of a connection after a query: it is put back for the next one if the query was
    answered, and is lost only to a query that failed or timed out. */
module PoolReuse {
  import opened SyncPool
  import opened PoolProtocol
  import opened PoolInvariant
  import opened PoolTheorems

  // ---- What costs a connection ----

  /** A query of this connection was given up: it is over, and its caller never got a reply. */
  ghost predicate GivenUp(s: State, q: Query, conn: Conn) {
    && q in s.readers && s.readers[q].conn == conn && q !in s.delivered
    && !AwaitsQuery(PcOf(s, s.readers[q].caller), q)
  }

  predicate AwaitsQuery(pc: Pc, q: Query) {
    pc.Awaiting? && pc.query == q
  }

  ghost predicate Lost(s: State, conn: Conn) {
    exists q :: GivenUp(s, q, conn)
  }

  predicate GivingUp(pc: Pc) {
    pc.TimedOut? || pc.Discarding? || pc.Closing?
  }

  /** A caller that still waits has no reply yet. */
  ghost predicate WaitersUnserved(s: State) {
    && (forall q | q in s.delivered :: q in s.readers)
    && forall t | t in s.threads && s.threads[t].Awaiting? :: s.threads[t].query !in s.delivered
  }

  ghost predicate OnlyLostAreShut(s: State) {
    !s.pool.closed ==>
      && (forall conn | conn in s.shut :: Lost(s, conn))
      && (forall t | t in s.threads && GivingUp(s.threads[t]) :: Lost(s, s.threads[t].conn))
  }

  lemma KeepsWaitersUnserved(s: State, step: Step)
    requires Inv(s) && WaitersUnserved(s) && Enabled(s, step)
    ensures WaitersUnserved(Apply(s, step))
  {
    var s' := Apply(s, step);
    forall t | t in s'.threads && s'.threads[t].Awaiting? ensures s'.threads[t].query !in s'.delivered {
      if step.ByCaller() && step.t == t {
        assert step.StartQuery?;
      } else {
        OthersPc(s, step, t);
        DeliveredByReceive(s, step, t);
      }
    }
    forall q | q in s'.delivered ensures q in s'.readers {
      if q in s.readers { ReadersStay(s, step, q); }
    }
  }

  /** Nobody else's step delivers the reply a caller waits for. */
  lemma DeliveredByReceive(s: State, step: Step, t: Thread)
    requires Inv(s) && Enabled(s, step) && !(step.ByCaller() && step.t == t) && PcOf(s, t).Awaiting?
    ensures PcOf(s, t).query in Apply(s, step).delivered ==> PcOf(s, t).query in s.delivered
  {
    OnlyReceiveDelivers(s, step);
    if step.Receive? { OthersQueryDiffers(s, step.t, t); }
  }

  lemma OnlyReceiveDelivers(s: State, step: Step)
    requires Enabled(s, step)
    ensures !step.Receive? ==> Apply(s, step).delivered == s.delivered
    ensures step.Receive? ==> Apply(s, step).delivered.Keys <= s.delivered.Keys + {PcOf(s, step.t).query}
  {
  }

  lemma OthersQueryDiffers(s: State, t: Thread, u: Thread)
    requires ReadersSound(s) && PcOf(s, t).Awaiting? && PcOf(s, u).Awaiting? && t != u
    ensures PcOf(s, t).query != PcOf(s, u).query
  {
    assert s.readers[PcOf(s, t).query].caller == t && s.readers[PcOf(s, u).query].caller == u;
  }

  lemma GivenUpStays(s: State, step: Step, q: Query, conn: Conn)
    requires Inv(s) && Enabled(s, step) && GivenUp(s, q, conn)
    ensures GivenUp(Apply(s, step), q, conn)
  {
    var t := s.readers[q].caller;
    ReadersStay(s, step, q);
    if !(step.ByCaller() && step.t == t) { OthersPc(s, step, t); }
  }

  lemma LostStays(s: State, step: Step, conn: Conn)
    requires Inv(s) && Enabled(s, step) && Lost(s, conn)
    ensures Lost(Apply(s, step), conn)
  {
    var q :| GivenUp(s, q, conn);
    GivenUpStays(s, step, q, conn);
  }

  lemma OpenPoolHasRoom(s: State, t: Thread)
    requires Inv(s) && !s.pool.closed && PcOf(s, t).Releasing?
    ensures ReleaseOutcome(s.pool).Returned?
  {
    SlotOwnerCounts(s, t);
  }

  /** On an open pool only a caller that failed or ran out of time starts to give up. */
  lemma GivesUpWhatIsLost(s: State, step: Step)
    requires Inv(s) && WaitersUnserved(s) && OnlyLostAreShut(s) && Enabled(s, step) && step.ByCaller()
    requires var s' := Apply(s, step); !s'.pool.closed && step.t in s'.threads && GivingUp(s'.threads[step.t])
    ensures Lost(Apply(s, step), Apply(s, step).threads[step.t].conn)
  {
    var s', t := Apply(s, step), step.t;
    if GivingUp(PcOf(s, t)) {
      LostStays(s, step, s.threads[t].conn);
    } else {
      if step.ReleaseSection? { OpenPoolHasRoom(s, t); }
      assert step.QueryTimeout? || step.Receive?;
      assert GivenUp(s', s.threads[t].query, s.threads[t].conn);
    }
  }

  lemma KeepsOnlyLostAreShut(s: State, step: Step)
    requires Inv(s) && WaitersUnserved(s) && OnlyLostAreShut(s) && Enabled(s, step)
    ensures OnlyLostAreShut(Apply(s, step))
  {
    var s' := Apply(s, step);
    if !s'.pool.closed {
      forall conn | conn in s'.shut ensures Lost(s', conn) {
        LostStays(s, step, conn);
      }
      forall t | t in s'.threads && GivingUp(s'.threads[t]) ensures Lost(s', s'.threads[t].conn) {
        if step.ByCaller() && step.t == t {
          GivesUpWhatIsLost(s, step);
        } else {
          OthersPc(s, step, t);
          LostStays(s, step, s.threads[t].conn);
        }
      }
    }
  }

  lemma {:induction false} RunKeepsOnlyLostAreShut(s: State, run: seq<Step>)
    requires Inv(s) && WaitersUnserved(s) && OnlyLostAreShut(s) && Possible(s, run)
    ensures WaitersUnserved(Final(s, run)) && OnlyLostAreShut(Final(s, run))
    decreases |run|
  {
    if run != [] {
      KeepsInv(s, run[0]);
      KeepsWaitersUnserved(s, run[0]);
      KeepsOnlyLostAreShut(s, run[0]);
      RunKeepsOnlyLostAreShut(Apply(s, run[0]), run[1..]);
    }
  }

  /** In every run: while the pool is open, every closed connection had a query whose caller gave up
      without a reply. */
  lemma OnlyFailedQueriesCostConnections(run: seq<Step>, conn: Conn)
    requires Possible(INITIAL, run)
    requires var s := Final(INITIAL, run); !s.pool.closed && conn in s.shut
    ensures var s := Final(INITIAL, run);
            exists q :: q in s.readers && s.readers[q].conn == conn && q !in s.delivered
                        && !AwaitsQuery(PcOf(s, s.readers[q].caller), q)
  {
    InitialInv();
    RunKeepsOnlyLostAreShut(INITIAL, run);
    assert Lost(Final(INITIAL, run), conn);
    var q :| GivenUp(Final(INITIAL, run), q, conn);
  }

  // ---- An answered query gives its connection back ----

  lemma {:induction false} OthersLeaveAlone(s: State, run: seq<Step>, t: Thread)
    requires Possible(s, run) && OwnSteps(run, t) == 0
    ensures PcOf(Final(s, run), t) == PcOf(s, t)
    decreases |run|
  {
    if run != [] {
      OthersPc(s, run[0], t);
      OthersLeaveAlone(Apply(s, run[0]), run[1..], t);
    }
  }

  /** A caller is at a point from which its next own step gives the connection back. */
  ghost predicate GivesBackNext(s: State, t: Thread, conn: Conn) {
    && Inv(s)
    && (exists step: Step :: step.ByCaller() && step.t == t && Enabled(s, step))
    && forall step: Step | step.ByCaller() && step.t == t && Enabled(s, step) :: GaveBack(s, step, conn)
  }

  /** The step appends the connection to the idle channel, open, and its caller leaves. */
  ghost predicate GaveBack(s: State, step: Step, conn: Conn)
    requires Enabled(s, step) && step.ByCaller()
  {
    var s' := Apply(s, step);
    && PcOf(s', step.t).Outside?
    && s'.pool == s.pool.(idle := s.pool.idle + [conn], active := s.pool.active - {conn})
    && conn in s.pool.active && conn !in s'.shut && s'.shut == s.shut
  }

  lemma ReleasingGivesBack(s: State, t: Thread, conn: Conn)
    requires Inv(s) && !s.pool.closed && PcOf(s, t) == Releasing(conn)
    ensures GivesBackNext(s, t, conn)
  {
    assert Owns(s, Caller(t), conn) && OwnerWire(s, Caller(t), conn);
    assert HoldsActive(s, t, conn);
    OpenPoolHasRoom(s, t);
    var release := ReleaseSection(t);
    assert release.ByCaller() && release.t == t && Enabled(s, release);
    forall step: Step | step.ByCaller() && step.t == t && Enabled(s, step) ensures GaveBack(s, step, conn) {
      assert step == release;
    }
  }

  /** The caller waits, and its reader is done, with this outcome. */
  predicate Has(s: State, t: Thread, conn: Conn, q: Query, outcome: Outcome) {
    PcOf(s, t) == Awaiting(conn, q) && q in s.readers && s.readers[q].phase == Done(outcome)
  }

  /** The step hands a query its own reply and does nothing to the pool. */
  predicate Delivers(s: State, step: Step, q: Query)
    requires Enabled(s, step)
  {
    var s' := Apply(s, step);
    s'.pool == s.pool && s'.shut == s.shut && s'.delivered == s.delivered[q := q]
  }

  lemma ReplyIsDelivered(s: State, t: Thread, conn: Conn, q: Query, of: Query)
    requires Inv(s) && Has(s, t, conn, q, Reply(of))
    ensures Delivers(s, Receive(t), q)
  {
  }

  lemma ReceivedReply(s: State, t: Thread, conn: Conn, q: Query, of: Query, others: seq<Step>)
    requires Inv(s) && Has(s, t, conn, q, Reply(of))
    requires var s' := Apply(s, Receive(t));
             Possible(s', others) && OwnSteps(others, t) == 0 && !Final(s', others).pool.closed
    ensures of == q && GivesBackNext(Final(Apply(s, Receive(t)), others), t, conn)
  {
    var s' := Apply(s, Receive(t));
    KeepsInv(s, Receive(t));
    RunKeepsInv(s', others);
    OthersLeaveAlone(s', others, t);
    ReleasingGivesBack(Final(s', others), t, conn);
  }

  /** A caller takes the reply that its reader has.  Whatever the others do then, as long as the pool
      is open its next own step puts the connection at the end of the idle channel. */
  lemma AnsweredConnectionsGoBack(run: seq<Step>, t: Thread, conn: Conn, q: Query, of: Query, others: seq<Step>)
    requires Possible(INITIAL, run) && Has(Final(INITIAL, run), t, conn, q, Reply(of))
    requires var s' := Apply(Final(INITIAL, run), Receive(t));
             Possible(s', others) && OwnSteps(others, t) == 0 && !Final(s', others).pool.closed
    ensures Delivers(Final(INITIAL, run), Receive(t), q)
    ensures GivesBackNext(Final(Apply(Final(INITIAL, run), Receive(t)), others), t, conn)
  {
    InitialInv();
    RunKeepsInv(INITIAL, run);
    ReplyIsDelivered(Final(INITIAL, run), t, conn, q, of);
    ReceivedReply(Final(INITIAL, run), t, conn, q, of, others);
  }

  // ---- A query without an answer costs its connection ----

  /** On its way out with a connection that nobody will have again. */
  ghost predicate Losing(s: State, t: Thread, conn: Conn) {
    var pc := PcOf(s, t);
    || (GivingUp(pc) && pc.conn == conn)
    || ((pc.Freeing? || pc.Outside?) && conn in s.shut && conn in s.dialled && !Owned(s, conn))
  }

  lemma KeepsUnowned(s: State, step: Step, conn: Conn)
    requires Inv(s) && Enabled(s, step) && conn in s.dialled && !Owned(s, conn)
    ensures conn in Apply(s, step).dialled && !Owned(Apply(s, step), conn)
  {
    forall h ensures !Owns(Apply(s, step), h, conn) {
      if Owns(Apply(s, step), h, conn) { OwnedBefore(s, step, h, conn); }
    }
  }

  lemma ClosedIsUnowned(s: State, t: Thread, conn: Conn)
    requires Inv(s) && PcOf(s, t) == Closing(conn)
    ensures Losing(Apply(s, CloseConn(t)), t, conn)
  {
    var s' := Apply(s, CloseConn(t));
    assert Owns(s, Caller(t), conn);
    forall h ensures !Owns(s', h, conn) {
      if Owns(s', h, conn) { OwnedBefore(s, CloseConn(t), h, conn); }
    }
  }

  lemma KeepsLosing(s: State, step: Step, t: Thread, conn: Conn)
    requires Inv(s) && Enabled(s, step) && OwnsSlot(PcOf(s, t)) && Losing(s, t, conn)
    ensures Losing(Apply(s, step), t, conn)
  {
    if !GivingUp(PcOf(s, t)) {
      KeepsUnowned(s, step, conn);
      ShutGrows(s, step);
    }
    if step.ByCaller() && step.t == t {
      if step.CloseConn? { ClosedIsUnowned(s, t, conn); }
    } else {
      OthersPc(s, step, t);
    }
  }

  lemma ShutGrows(s: State, step: Step)
    requires Enabled(s, step)
    ensures s.shut <= Apply(s, step).shut
  {
  }

  lemma {:induction false} LosesIt(s: State, run: seq<Step>, t: Thread, conn: Conn)
    requires Inv(s) && Possible(s, run) && OwnsThroughout(s, run, t) && Losing(s, t, conn)
    ensures Losing(Final(s, run), t, conn)
    decreases |run|
  {
    if run != [] {
      KeepsInv(s, run[0]);
      KeepsLosing(s, run[0], t, conn);
      LosesIt(Apply(s, run[0]), run[1..], t, conn);
    }
  }

  /** The caller gives up: its reader failed, or its time is over. */
  predicate GivesUp(s: State, t: Thread, conn: Conn, q: Query, step: Step) {
    step == QueryTimeout(t) || (step == Receive(t) && Has(s, t, conn, q, Failed))
  }

  lemma GivingUpLoses(s: State, t: Thread, conn: Conn, q: Query, step: Step, rest: seq<Step>)
    requires Inv(s) && PcOf(s, t) == Awaiting(conn, q) && GivesUp(s, t, conn, q, step)
    requires var s' := Apply(s, step);
             Possible(s', rest) && OwnsThroughout(s', rest, t) && !OwnsSlot(PcOf(Final(s', rest), t))
    ensures var f := Final(Apply(s, step), rest); conn in f.shut && !Owned(f, conn) && conn !in f.pool.idle
  {
    var s' := Apply(s, step);
    KeepsInv(s, step);
    LosesIt(s', rest, t, conn);
    var f := Final(s', rest);
    forall i | 0 <= i < |f.pool.idle| ensures f.pool.idle[i] != conn {
      assert !Owns(f, IdleSlot(i), conn);
    }
  }

  /** A caller that fails or runs out of time closes its connection, in whatever interleaving, by the
      time it is out; and then nobody has that connection, nor will it be idle again. */
  lemma UnansweredConnectionsAreClosed(run: seq<Step>, t: Thread, conn: Conn, q: Query, step: Step, rest: seq<Step>)
    requires Possible(INITIAL, run)
    requires var s := Final(INITIAL, run); PcOf(s, t) == Awaiting(conn, q) && GivesUp(s, t, conn, q, step)
    requires var s' := Apply(Final(INITIAL, run), step);
             Possible(s', rest) && OwnsThroughout(s', rest, t) && !OwnsSlot(PcOf(Final(s', rest), t))
    ensures var f := Final(Apply(Final(INITIAL, run), step), rest);
            conn in f.shut && !Owned(f, conn) && conn !in f.pool.idle
  {
    InitialInv();
    RunKeepsInv(INITIAL, run);
    GivingUpLoses(Final(INITIAL, run), t, conn, q, step, rest);
  }

  // ---- The size of the pool ----

  lemma {:induction false} SizeStays(s: State, run: seq<Step>)
    requires s.pool.created && Possible(s, run)
    ensures Final(s, run).pool.created && Final(s, run).pool.max == s.pool.max
    decreases |run|
  {
    if run != [] {
      SizeStays(Apply(s, run[0]), run[1..]);
    }
  }

  /** The pool has the size that its first caller configured, and never more slots are held. */
  lemma PoolHasTheConfiguredSize(t: Thread, configuredMax: nat, run: seq<Step>)
    requires Enabled(INITIAL, Begin(t, configuredMax)) && Possible(Apply(INITIAL, Begin(t, configuredMax)), run)
    ensures var f := Final(Apply(INITIAL, Begin(t, configuredMax)), run);
            f.pool.max == configuredMax && f.pool.slots <= configuredMax && |f.pool.idle| <= configuredMax
  {
    InitialInv();
    KeepsInv(INITIAL, Begin(t, configuredMax));
    SizeStays(Apply(INITIAL, Begin(t, configuredMax)), run);
    RunKeepsInv(Apply(INITIAL, Begin(t, configuredMax)), run);
  }
}
