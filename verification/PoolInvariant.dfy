/** The inductive invariant of the pool protocol, proved step by step. */
module PoolInvariant {
  import opened SyncPool
  import opened PoolProtocol

  // ---- Who owns what ----

  predicate OwnsSlot(pc: Pc) {
    !pc.Outside? && !pc.Ensured? && !pc.Polling? && !pc.Waiting?
  }

  predicate OwnsConn(pc: Pc, conn: Conn) {
    && (pc.TookIdle? || pc.Dialled? || pc.Holding? || pc.Awaiting? || pc.TimedOut?
        || pc.Releasing? || pc.Discarding? || pc.Closing?)
    && pc.conn == conn
  }

  /** The program points at which the connection is registered as active on an open pool. */
  predicate Activated(pc: Pc) {
    pc.Holding? || pc.Awaiting? || pc.TimedOut? || pc.Releasing? || pc.Discarding?
  }

  /** Points at which the caller has not yet given up on its connection. */
  predicate Usable(pc: Pc) {
    !pc.Discarding? && !pc.Closing?
  }

  predicate CloserOwnsSlot(c: Closer) {
    c.DrainTook? || c.DrainFreeing?
  }

  /** The places where a connection can be: with a caller, in the idle channel, with the closer. */
  datatype Owner = Caller(t: Thread) | IdleSlot(i: int) | TheCloser

  predicate Owns(s: State, h: Owner, conn: Conn) {
    match h
    case Caller(t) => t in s.threads && OwnsConn(s.threads[t], conn)
    case IdleSlot(i) => 0 <= i < |s.pool.idle| && s.pool.idle[i] == conn
    case TheCloser => s.closer.DrainTook? && s.closer.conn == conn
  }

  function SlotOwners(threads: map<Thread, Pc>): set<Thread> {
    set t | t in threads && OwnsSlot(threads[t])
  }

  function SlotsAccountedFor(s: State): nat {
    |s.pool.idle| + |SlotOwners(s.threads)| + if CloserOwnsSlot(s.closer) then 1 else 0
  }

  // ---- The invariant, clause by clause ----

  predicate Bounded(s: State) {
    && (s.pool.created ==> s.pool.max >= 1)
    && (!s.pool.created ==> s.pool.idle == [] && s.pool.slots == 0)
    && (!s.pool.created ==> forall t | t in s.threads :: s.threads[t].Outside?)
    && (!s.pool.created ==> !s.closer.Draining? && !s.closer.DrainTook? && !s.closer.DrainFreeing?)
    && s.pool.slots == SlotsAccountedFor(s) <= s.pool.max
  }

  /** No connection has two owners. */
  ghost predicate Exclusive(s: State) {
    forall h, k, conn :: Owns(s, h, conn) && Owns(s, k, conn) ==> h == k
  }

  ghost predicate Owned(s: State, conn: Conn) {
    exists h :: Owns(s, h, conn)
  }

  /** Every owned connection was dialled; every live connection is owned. */
  ghost predicate Accounted(s: State) {
    && (forall h, conn :: Owns(s, h, conn) ==> conn in s.dialled)
    && (forall conn | conn in s.dialled && conn !in s.shut :: Owned(s, conn))
    && s.shut <= s.dialled
  }

  /** The active set of an open pool: exactly the connections of activated callers. */
  ghost predicate Registered(s: State) {
    && (s.pool.closed ==> s.pool.active == {})
    && (forall conn | conn in s.pool.active :: exists t :: HoldsActive(s, t, conn))
    && (!s.pool.closed ==> forall t, conn :: HoldsActive(s, t, conn) ==> conn in s.pool.active)
  }

  predicate HoldsActive(s: State, t: Thread, conn: Conn) {
    t in s.threads && Activated(s.threads[t]) && s.threads[t].conn == conn
  }

  ghost predicate CloserSound(s: State) {
    && (s.closer.NotClosing? <==> !s.pool.closed)
    && (s.closer.ClosingActive? ==> s.closer.todo <= s.dialled)
    && (s.closer.Closed? ==> s.pool.idle == [])
  }

  /** The caller that waits for reader `q`, if it still does. */
  predicate CallerWaits(s: State, q: Query) {
    && q in s.readers
    && var pc := PcOf(s, s.readers[q].caller);
    && (pc.Awaiting? || pc.TimedOut?) && pc.query == q && pc.conn == s.readers[q].conn
  }

  /** A reader that can still touch its connection is awaited, or its connection is closed. */
  ghost predicate ReadersSound(s: State) {
    && (forall q | q in s.readers :: s.readers[q].conn in s.dialled)
    && (forall q | q in s.readers && !s.readers[q].phase.Done? ::
          CallerWaits(s, q) || s.readers[q].conn in s.shut)
    && (forall q | q in s.readers && s.readers[q].phase.Done? && s.readers[q].phase.outcome.Reply? ::
          s.readers[q].phase.outcome.of == q)
    && (forall t | t in s.threads && (s.threads[t].Awaiting? || s.threads[t].TimedOut?) ::
          var pc := s.threads[t];
          pc.query in s.readers && s.readers[pc.query].caller == t && s.readers[pc.query].conn == pc.conn)
  }

  /** What may be outstanding on a connection held at `pc`. */
  predicate WireMatches(s: State, pc: Pc, conn: Conn)
    requires conn in s.wire
  {
    match pc
    case Awaiting(c, q) => QueryWire(s, q, conn)
    case TimedOut(c, q) => QueryWire(s, q, conn)
    case Discarding(c) => true
    case Closing(c) => true
    case _ => s.wire[conn] == []
  }

  predicate QueryWire(s: State, q: Query, conn: Conn)
    requires conn in s.wire
  {
    q in s.readers &&
    match s.readers[q].phase
    case ToWrite => s.wire[conn] == []
    case ToRead => s.wire[conn] == [q]
    case Done(Reply(of)) => s.wire[conn] == []
    case Done(Failed) => true
  }

  ghost predicate WiresSound(s: State) {
    && s.wire.Keys == s.dialled
    && (forall h, conn | Owns(s, h, conn) :: conn in s.wire && OwnerWire(s, h, conn))
  }

  predicate OwnerWire(s: State, h: Owner, conn: Conn)
    requires conn in s.wire && Owns(s, h, conn)
  {
    match h
    case Caller(t) => WireMatches(s, s.threads[t], conn) && (Usable(s.threads[t]) && !s.pool.closed ==> conn !in s.shut)
    case IdleSlot(i) => s.wire[conn] == [] && (!s.pool.closed ==> conn !in s.shut)
    case TheCloser => s.wire[conn] == []
  }

  ghost predicate DeliveredSound(s: State) {
    forall q | q in s.delivered :: s.delivered[q] == q
  }

  ghost predicate Inv(s: State) {
    && Bounded(s)
    && Exclusive(s)
    && Accounted(s)
    && Registered(s)
    && CloserSound(s)
    && ReadersSound(s)
    && WiresSound(s)
    && DeliveredSound(s)
  }

  // ---- Counting slot owners ----

  lemma SlotOwnersUpdate(threads: map<Thread, Pc>, t: Thread, pc: Pc)
    ensures var was := if t in threads && OwnsSlot(threads[t]) then 1 else 0;
            |SlotOwners(threads[t := pc])| ==
            |SlotOwners(threads)| - was + if OwnsSlot(pc) then 1 else 0
  {
    var before, after := SlotOwners(threads), SlotOwners(threads[t := pc]);
    assert before - {t} == after - {t};
    if t in before { assert before == (before - {t}) + {t}; }
    if t in after { assert after == (after - {t}) + {t}; }
  }

  lemma SlotOwnerCounts(s: State, t: Thread)
    requires t in s.threads && OwnsSlot(s.threads[t])
    ensures |SlotOwners(s.threads)| >= 1
  {
    assert t in SlotOwners(s.threads);
    assert |SlotOwners(s.threads) - {t}| >= 0;
  }

  // ---- One step keeps each clause ----

  lemma CallerStepFrame(s: State, step: Step)
    requires Enabled(s, step) && step.ByCaller()
    ensures var s' := Apply(s, step);
            && s'.closer == s.closer
            && step.t in s'.threads && s'.threads == s.threads[step.t := s'.threads[step.t]]
  {
  }

  lemma CallerKeepsBounded(s: State, step: Step)
    requires Bounded(s) && Enabled(s, step) && step.ByCaller()
    ensures Bounded(Apply(s, step))
  {
    var s' := Apply(s, step);
    CallerStepFrame(s, step);
    SlotOwnersUpdate(s.threads, step.t, s'.threads[step.t]);
    if step.t in s.threads && OwnsSlot(s.threads[step.t]) { SlotOwnerCounts(s, step.t); }
  }

  lemma KeepsBounded(s: State, step: Step)
    requires Bounded(s) && CloserSound(s) && Enabled(s, step)
    ensures Bounded(Apply(s, step))
  {
    if step.ByCaller() {
      CallerKeepsBounded(s, step);
    }
  }

  // ---- Where a connection was before a step, and where it goes ----

  /** The owner, before `step`, of what `h` owns after it. */
  function Prior(s: State, step: Step, h: Owner): Owner {
    match step
    case PollTake(t) => if h == Caller(t) then IdleSlot(0) else ShiftUp(h)
    case WaitTake(t) => if h == Caller(t) then IdleSlot(0) else ShiftUp(h)
    case DrainTake => if h.TheCloser? then IdleSlot(0) else ShiftUp(h)
    case ReleaseSection(t) => if h == IdleSlot(|s.pool.idle|) then Caller(t) else h
    case _ => h
  }

  function ShiftUp(h: Owner): Owner {
    if h.IdleSlot? then IdleSlot(h.i + 1) else h
  }

  /** The owner, after `step`, of what `h` owned before it. */
  function Later(s: State, step: Step, h: Owner): Owner {
    match step
    case PollTake(t) => if h == IdleSlot(0) then Caller(t) else ShiftDown(h)
    case WaitTake(t) => if h == IdleSlot(0) then Caller(t) else ShiftDown(h)
    case DrainTake => if h == IdleSlot(0) then TheCloser else ShiftDown(h)
    case ReleaseSection(t) =>
      if h == Caller(t) && ReleaseOutcome(s.pool).Returned? then IdleSlot(|s.pool.idle|) else h
    case _ => h
  }

  function ShiftDown(h: Owner): Owner {
    if h.IdleSlot? then IdleSlot(h.i - 1) else h
  }

  lemma CallerOwnedBefore(s: State, step: Step, h: Owner, conn: Conn)
    requires Bounded(s) && Enabled(s, step) && step.ByCaller() && Owns(Apply(s, step), h, conn)
    ensures (step.DialOk? && h == Caller(step.t) && conn == step.conn) || Owns(s, Prior(s, step, h), conn)
  {
  }

  lemma OwnedBefore(s: State, step: Step, h: Owner, conn: Conn)
    requires Bounded(s) && Enabled(s, step) && Owns(Apply(s, step), h, conn)
    ensures (step.DialOk? && h == Caller(step.t) && conn == step.conn) || Owns(s, Prior(s, step, h), conn)
  {
    if step.ByCaller() { CallerOwnedBefore(s, step, h, conn); }
  }

  lemma CallerOwnedAfter(s: State, step: Step, h: Owner, conn: Conn)
    requires Bounded(s) && Enabled(s, step) && step.ByCaller() && Owns(s, h, conn)
    ensures conn in Apply(s, step).shut || Owns(Apply(s, step), Later(s, step, h), conn)
  {
  }

  lemma OwnedAfter(s: State, step: Step, h: Owner, conn: Conn)
    requires Bounded(s) && CloserSound(s) && Enabled(s, step) && Owns(s, h, conn)
    ensures conn in Apply(s, step).shut || Owns(Apply(s, step), Later(s, step, h), conn)
  {
    if step.ByCaller() { CallerOwnedAfter(s, step, h, conn); }
  }

  lemma KeepsExclusive(s: State, step: Step)
    requires Bounded(s) && Exclusive(s) && Accounted(s) && Enabled(s, step)
    ensures Exclusive(Apply(s, step))
  {
    var s' := Apply(s, step);
    forall h, k, conn | Owns(s', h, conn) && Owns(s', k, conn)
      ensures h == k
    {
      OwnedBefore(s, step, h, conn);
      OwnedBefore(s, step, k, conn);
    }
  }

  lemma KeepsAccounted(s: State, step: Step)
    requires Bounded(s) && CloserSound(s) && Accounted(s) && Enabled(s, step)
    ensures Accounted(Apply(s, step))
  {
    var s' := Apply(s, step);
    forall h, conn | Owns(s', h, conn) ensures conn in s'.dialled {
      OwnedBefore(s, step, h, conn);
    }
    forall conn | conn in s'.dialled && conn !in s'.shut ensures Owned(s', conn) {
      if conn in s.dialled {
        var h :| Owns(s, h, conn);
        OwnedAfter(s, step, h, conn);
      } else {
        assert Owns(s', Caller(step.t), conn);
      }
    }
    ShutStaysDialled(s, step);
  }

  lemma ShutStaysDialled(s: State, step: Step)
    requires CloserSound(s) && Accounted(s) && Enabled(s, step)
    ensures Apply(s, step).shut <= Apply(s, step).dialled
  {
    match step
    case ActivateIt(t) => assert Owns(s, Caller(t), s.threads[t].conn);
    case TimeoutClose(t) => assert Owns(s, Caller(t), s.threads[t].conn);
    case CloseConn(t) => assert Owns(s, Caller(t), s.threads[t].conn);
    case DrainClose => assert Owns(s, TheCloser, s.closer.conn);
    case _ =>
  }

  /** Only the activation of `conn` makes a caller hold it actively; only the section that
      releases or discards it ends that. */
  lemma ActiveBefore(s: State, step: Step, t: Thread, conn: Conn)
    requires Enabled(s, step) && HoldsActive(Apply(s, step), t, conn)
    ensures HoldsActive(s, t, conn) || (step == ActivateIt(t) && PcOf(s, t).conn == conn && !s.pool.closed)
  {
  }

  lemma ActiveAfter(s: State, step: Step, t: Thread, conn: Conn)
    requires Enabled(s, step) && HoldsActive(s, t, conn)
    ensures HoldsActive(Apply(s, step), t, conn)
         || ((step == ReleaseSection(t) || step == DiscardSection(t)) && PcOf(s, t).conn == conn)
  {
  }

  lemma KeepsRegistered(s: State, step: Step)
    requires Bounded(s) && Exclusive(s) && Registered(s) && Enabled(s, step)
    ensures Registered(Apply(s, step))
  {
    var s' := Apply(s, step);
    forall conn | conn in s'.pool.active ensures exists t :: HoldsActive(s', t, conn) {
      if conn in s.pool.active {
        var t :| HoldsActive(s, t, conn);
        ActiveAfter(s, step, t, conn);
        assert HoldsActive(s', t, conn);
      } else {
        assert HoldsActive(s', step.t, conn);
      }
    }
    forall t, conn | !s'.pool.closed && HoldsActive(s', t, conn) ensures conn in s'.pool.active {
      ActiveBefore(s, step, t, conn);
      if step.ReleaseSection? || step.DiscardSection? {
        assert Owns(s, Caller(t), conn) && Owns(s, Caller(step.t), PcOf(s, step.t).conn);
      }
    }
  }

  lemma ActiveAreDialled(s: State)
    requires Accounted(s) && Registered(s)
    ensures s.pool.active <= s.dialled
  {
    forall conn | conn in s.pool.active ensures conn in s.dialled {
      var t :| HoldsActive(s, t, conn);
      assert Owns(s, Caller(t), conn);
    }
  }

  lemma CallerKeepsCloserSound(s: State, step: Step)
    requires Bounded(s) && CloserSound(s) && Enabled(s, step) && step.ByCaller()
    ensures CloserSound(Apply(s, step))
  {
    CallerStepFrame(s, step);
  }

  lemma KeepsCloserSound(s: State, step: Step)
    requires Bounded(s) && Accounted(s) && Registered(s) && CloserSound(s) && Enabled(s, step)
    ensures CloserSound(Apply(s, step))
  {
    if step.ByCaller() {
      CallerKeepsCloserSound(s, step);
    } else {
      ActiveAreDialled(s);
    }
  }

  /** A reply can be read only while its caller still holds the connection, and it is the
      reply to that caller's query. */
  lemma ReplyIsOwn(s: State, q: Query)
    requires ReadersSound(s) && WiresSound(s)
    requires Enabled(s, ReaderRead(q, true, true))
    ensures CallerWaits(s, q) && s.wire[s.readers[q].conn] == [q]
  {
    var r := s.readers[q];
    assert CallerWaits(s, q);
    assert Owns(s, Caller(r.caller), r.conn);
  }

  lemma OthersPc(s: State, step: Step, t: Thread)
    requires Enabled(s, step) && !(step.ByCaller() && step.t == t)
    ensures PcOf(Apply(s, step), t) == PcOf(s, t)
  {
    if step.ByCaller() { CallerStepFrame(s, step); }
  }

  lemma ReadersStay(s: State, step: Step, q: Query)
    requires Enabled(s, step) && q in s.readers
    ensures var s' := Apply(s, step);
            && q in s'.readers && s'.readers[q].caller == s.readers[q].caller && s'.readers[q].conn == s.readers[q].conn
            && (s.readers[q].phase.Done? ==> s'.readers[q].phase.Done?)
    ensures s.shut <= Apply(s, step).shut
  {
  }

  /** A caller leaves a live reader only after closing its connection. */
  lemma OwnReaderStaysAwaited(s: State, step: Step, q: Query)
    requires Enabled(s, step) && step.ByCaller() && CallerWaits(s, q) && step.t == s.readers[q].caller
    requires !s.readers[q].phase.Done?
    ensures CallerWaits(Apply(s, step), q) || s.readers[q].conn in Apply(s, step).shut
  {
  }

  lemma LiveReaderStaysAwaited(s: State, step: Step, q: Query)
    requires ReadersSound(s) && Enabled(s, step)
    requires q in Apply(s, step).readers && !Apply(s, step).readers[q].phase.Done?
    ensures CallerWaits(Apply(s, step), q) || Apply(s, step).readers[q].conn in Apply(s, step).shut
  {
    if q in s.readers {
      assert CallerWaits(s, q) || s.readers[q].conn in s.shut || s.readers[q].phase.Done?;
      ReadersStay(s, step, q);
      if step.ByCaller() && step.t == s.readers[q].caller {
        if CallerWaits(s, q) { OwnReaderStaysAwaited(s, step, q); }
      } else {
        OthersPc(s, step, s.readers[q].caller);
      }
    }
  }

  lemma CallerKeepsItsReader(s: State, step: Step)
    requires ReadersSound(s) && Enabled(s, step) && step.ByCaller()
    requires PcOf(Apply(s, step), step.t).Awaiting? || PcOf(Apply(s, step), step.t).TimedOut?
    ensures var s' := Apply(s, step);
            var pc := PcOf(s', step.t);
            pc.query in s'.readers && s'.readers[pc.query].caller == step.t && s'.readers[pc.query].conn == pc.conn
  {
  }

  lemma CallersKeepTheirReaders(s: State, step: Step, t: Thread)
    requires ReadersSound(s) && Enabled(s, step)
    requires t in Apply(s, step).threads
    requires Apply(s, step).threads[t].Awaiting? || Apply(s, step).threads[t].TimedOut?
    ensures var s' := Apply(s, step);
            var pc := s'.threads[t];
            pc.query in s'.readers && s'.readers[pc.query].caller == t && s'.readers[pc.query].conn == pc.conn
  {
    if step.ByCaller() && step.t == t {
      CallerKeepsItsReader(s, step);
    } else {
      OthersPc(s, step, t);
      assert t in s.threads;
      ReadersStay(s, step, s.threads[t].query);
    }
  }

  lemma RepliesStayOwn(s: State, step: Step, q: Query)
    requires Accounted(s) && ReadersSound(s) && WiresSound(s) && Enabled(s, step)
    requires q in Apply(s, step).readers
    ensures var r := Apply(s, step).readers[q];
            && r.conn in Apply(s, step).dialled
            && (r.phase.Done? && r.phase.outcome.Reply? ==> r.phase.outcome.of == q)
  {
    if step.StartQuery? { assert Owns(s, Caller(step.t), s.threads[step.t].conn); }
    if step.ReaderRead? && step.ok { ReplyIsOwn(s, step.query); }
  }

  lemma KeepsReadersSound(s: State, step: Step)
    requires Accounted(s) && ReadersSound(s) && WiresSound(s) && Enabled(s, step)
    ensures ReadersSound(Apply(s, step))
  {
    var s' := Apply(s, step);
    forall q | q in s'.readers
      ensures var r := s'.readers[q];
              && r.conn in s'.dialled
              && (r.phase.Done? && r.phase.outcome.Reply? ==> r.phase.outcome.of == q)
              && (!r.phase.Done? ==> CallerWaits(s', q) || r.conn in s'.shut)
    {
      RepliesStayOwn(s, step, q);
      if !s'.readers[q].phase.Done? { LiveReaderStaysAwaited(s, step, q); }
    }
    forall t | t in s'.threads && (s'.threads[t].Awaiting? || s'.threads[t].TimedOut?)
      ensures var pc := s'.threads[t];
              pc.query in s'.readers && s'.readers[pc.query].caller == t && s'.readers[pc.query].conn == pc.conn
    {
      CallersKeepTheirReaders(s, step, t);
    }
  }

  /** Only a reader whose caller still waits moves bytes, and only on that caller's connection. */
  lemma MovingReaderIsOwners(s: State, step: Step, h: Owner)
    requires Exclusive(s) && ReadersSound(s) && Enabled(s, step)
    requires (step.ReaderWrite? && step.sent) || (step.ReaderRead? && step.consumed)
    requires Owns(s, h, s.readers[step.query].conn)
    ensures CallerWaits(s, step.query) && h == Caller(s.readers[step.query].caller)
  {
    assert Owns(s, Caller(s.readers[step.query].caller), s.readers[step.query].conn);
  }

  lemma ReaderKeepsOwnerWire(s: State, step: Step, h: Owner, conn: Conn)
    requires Exclusive(s) && ReadersSound(s) && WiresSound(s)
    requires Enabled(s, step) && (step.ReaderWrite? || step.ReaderRead?)
    requires Owns(Apply(s, step), h, conn)
    ensures conn in Apply(s, step).wire && OwnerWire(Apply(s, step), h, conn)
  {
    assert Owns(s, h, conn);
    var r := s.readers[step.query];
    if r.conn == conn && ((step.ReaderWrite? && step.sent) || (step.ReaderRead? && step.consumed)) {
      MovingReaderIsOwners(s, step, h);
    }
  }

  lemma OwnWire(s: State, step: Step, conn: Conn)
    requires Accounted(s) && ReadersSound(s) && WiresSound(s)
    requires Enabled(s, step) && step.ByCaller()
    requires Owns(Apply(s, step), Caller(step.t), conn)
    requires (step.DialOk? && conn == step.conn) || Owns(s, Prior(s, step, Caller(step.t)), conn)
    ensures conn in Apply(s, step).wire && OwnerWire(Apply(s, step), Caller(step.t), conn)
  {
    if !(step.DialOk? && conn == step.conn) {
      assert conn in s.wire && OwnerWire(s, Prior(s, step, Caller(step.t)), conn);
    }
  }

  lemma CallerKeepsOwnerWire(s: State, step: Step, h: Owner, conn: Conn)
    requires Bounded(s) && Exclusive(s) && Accounted(s) && ReadersSound(s) && WiresSound(s)
    requires Enabled(s, step) && step.ByCaller()
    requires Owns(Apply(s, step), h, conn)
    ensures conn in Apply(s, step).wire && OwnerWire(Apply(s, step), h, conn)
  {
    CallerOwnedBefore(s, step, h, conn);
    if h == Caller(step.t) {
      OwnWire(s, step, conn);
    } else {
      OthersOwnerWire(s, step, h, conn);
    }
  }

  /** A caller's step leaves the wire alone and closes only its own connection. */
  lemma CallerTouchesOwn(s: State, step: Step, conn: Conn)
    requires Enabled(s, step) && step.ByCaller() && conn in s.wire
    ensures conn in s.dialled ==> conn in Apply(s, step).wire && Apply(s, step).wire[conn] == s.wire[conn]
    ensures conn in Apply(s, step).shut && conn !in s.shut ==> Owns(s, Caller(step.t), conn)
    ensures s.pool.closed ==> Apply(s, step).pool.closed
    ensures forall q | q in s.readers :: q in Apply(s, step).readers && Apply(s, step).readers[q] == s.readers[q]
  {
  }

  lemma OthersOwnerWire(s: State, step: Step, h: Owner, conn: Conn)
    requires Bounded(s) && Exclusive(s) && WiresSound(s)
    requires Enabled(s, step) && step.ByCaller() && h != Caller(step.t)
    requires Owns(Apply(s, step), h, conn) && Owns(s, Prior(s, step, h), conn)
    ensures conn in Apply(s, step).wire && OwnerWire(Apply(s, step), h, conn)
  {
    assert conn in s.wire && OwnerWire(s, Prior(s, step, h), conn);
    CallerTouchesOwn(s, step, conn);
    CallerStepFrame(s, step);
    if step.ReleaseSection? && h.IdleSlot? {
      assert Owns(s, Caller(step.t), conn) ==> Prior(s, step, h) == Caller(step.t);
    }
  }

  lemma CloserKeepsOwnerWire(s: State, step: Step, h: Owner, conn: Conn)
    requires Bounded(s) && Exclusive(s) && CloserSound(s) && WiresSound(s)
    requires Enabled(s, step) && step.ByCloser()
    requires Owns(Apply(s, step), h, conn)
    ensures conn in Apply(s, step).wire && OwnerWire(Apply(s, step), h, conn)
  {
    OwnedBefore(s, step, h, conn);
    assert conn in s.wire && OwnerWire(s, Prior(s, step, h), conn);
  }

  lemma KeepsWiresSound(s: State, step: Step)
    requires Bounded(s) && Exclusive(s) && Accounted(s) && CloserSound(s) && ReadersSound(s) && WiresSound(s)
    requires Enabled(s, step)
    ensures WiresSound(Apply(s, step))
  {
    var s' := Apply(s, step);
    forall h, conn | Owns(s', h, conn) ensures conn in s'.wire && OwnerWire(s', h, conn) {
      if step.ByCaller() {
        CallerKeepsOwnerWire(s, step, h, conn);
      } else if step.ByCloser() {
        CloserKeepsOwnerWire(s, step, h, conn);
      } else {
        ReaderKeepsOwnerWire(s, step, h, conn);
      }
    }
  }

  lemma KeepsDeliveredSound(s: State, step: Step)
    requires ReadersSound(s) && DeliveredSound(s) && Enabled(s, step)
    ensures DeliveredSound(Apply(s, step))
  {
  }

  // ---- The whole invariant ----

  lemma KeepsInv(s: State, step: Step)
    requires Inv(s) && Enabled(s, step)
    ensures Inv(Apply(s, step))
  {
    KeepsBounded(s, step);
    KeepsExclusive(s, step);
    KeepsAccounted(s, step);
    KeepsRegistered(s, step);
    KeepsCloserSound(s, step);
    KeepsReadersSound(s, step);
    KeepsWiresSound(s, step);
    KeepsDeliveredSound(s, step);
  }

  lemma InitialInv()
    ensures Inv(INITIAL)
  {
  }

  lemma {:induction false} RunKeepsInv(s: State, run: seq<Step>)
    requires Inv(s) && Possible(s, run)
    ensures Inv(Final(s, run))
    decreases |run|
  {
    if run != [] {
      KeepsInv(s, run[0]);
      RunKeepsInv(Apply(s, run[0]), run[1..]);
    }
  }
}
