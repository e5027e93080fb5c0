/** The connection pool as a concurrent protocol: callers, per-query reader goroutines, one
    closer and one FIFO server per connection.  Every step is one critical section, one channel
    operation, one dial, one close, one write or one read; anything may happen between two steps
    of the same thread. */
module PoolProtocol {
  import opened SyncPool

  type Thread = nat
  type Query = nat

  /** Where a caller stands between entering the query runner and leaving it. */
  datatype Pc =
    | Outside
    | Ensured                             // the pool exists; the loop has not fetched the channels
    | Polling                             // about to try the non-blocking receive
    | Waiting                             // blocked on idle channel, slot channel and timer
    | TookIdle(conn: Conn)
    | Dialling
    | Dialled(conn: Conn)
    | Holding(conn: Conn)                 // activated
    | Awaiting(conn: Conn, query: Query)  // blocked on the reader goroutine and the query timer
    | TimedOut(conn: Conn, query: Query)
    | Releasing(conn: Conn)
    | Discarding(conn: Conn)
    | Closing(conn: Conn)                 // section done, the connection must still be closed
    | Freeing                             // the slot must still be given back

  datatype Closer =
    | NotClosing
    | ClosingActive(todo: set<Conn>)
    | Draining
    | DrainTook(conn: Conn)
    | DrainFreeing
    | Closed

  datatype Outcome = Reply(of: Query) | Failed
  datatype ReaderPhase = ToWrite | ToRead | Done(outcome: Outcome)

  /** The goroutine that serves one query; it may outlive the caller that started it. */
  datatype Reader = Reader(conn: Conn, caller: Thread, phase: ReaderPhase)

  /** `wire[c]`: the queries written to `c` whose replies have not been read, oldest first.
      `shut`: connections that were closed.  `delivered[q]`: whose reply the caller of `q` got. */
  datatype State = State(
    pool: Shared,
    threads: map<Thread, Pc>,
    closer: Closer,
    dialled: set<Conn>,
    shut: set<Conn>,
    wire: map<Conn, seq<Query>>,
    readers: map<Query, Reader>,
    delivered: map<Query, Query>)

  const INITIAL := State(EMPTY, map[], NotClosing, {}, {}, map[], map[], map[])

  datatype Step =
    | Begin(t: Thread, configuredMax: nat)
    | FetchChannels(t: Thread)
    | PollTake(t: Thread)
    | PollEmpty(t: Thread)
    | WaitTake(t: Thread)
    | WaitReserve(t: Thread)
    | WaitTimeout(t: Thread)
    | DialOk(t: Thread, conn: Conn)
    | DialFail(t: Thread)
    | ActivateIt(t: Thread)
    | StartQuery(t: Thread, query: Query)
    | Receive(t: Thread)
    | QueryTimeout(t: Thread)
    | TimeoutClose(t: Thread)
    | ReleaseSection(t: Thread)
    | DiscardSection(t: Thread)
    | CloseConn(t: Thread)
    | FreeIt(t: Thread)
    | ReaderWrite(query: Query, ok: bool, sent: bool)
    | ReaderRead(query: Query, ok: bool, consumed: bool)
    | CloseSection
    | CloseActive(conn: Conn)
    | CloseActiveDone
    | DrainTake
    | DrainClose
    | DrainFree
    | DrainEnd
  {
    predicate ByCaller() {
      !ReaderWrite? && !ReaderRead? && !ByCloser()
    }

    predicate ByCloser() {
      CloseSection? || CloseActive? || CloseActiveDone? || DrainTake? || DrainClose? || DrainFree? || DrainEnd?
    }
  }

  function PcOf(s: State, t: Thread): Pc {
    if t in s.threads then s.threads[t] else Outside
  }

  function At(s: State, t: Thread, pc: Pc): State {
    s.(threads := s.threads[t := pc])
  }

  /** May `step` happen in `s`? */
  predicate Enabled(s: State, step: Step) {
    match step
    case Begin(t, configuredMax) => PcOf(s, t).Outside? && configuredMax >= 1
    case FetchChannels(t) => PcOf(s, t).Ensured?
    case PollTake(t) => PcOf(s, t).Polling? && s.pool.idle != []
    case PollEmpty(t) => PcOf(s, t).Polling? && s.pool.idle == []
    case WaitTake(t) => PcOf(s, t).Waiting? && s.pool.idle != []
    case WaitReserve(t) => PcOf(s, t).Waiting? && s.pool.slots < s.pool.max
    case WaitTimeout(t) => PcOf(s, t).Waiting?
    case DialOk(t, conn) => PcOf(s, t).Dialling? && conn !in s.dialled
    case DialFail(t) => PcOf(s, t).Dialling?
    case ActivateIt(t) => PcOf(s, t).TookIdle? || PcOf(s, t).Dialled?
    case StartQuery(t, query) => PcOf(s, t).Holding? && query !in s.readers
    case Receive(t) =>
      var pc := PcOf(s, t);
      pc.Awaiting? && pc.query in s.readers && s.readers[pc.query].phase.Done?
    case QueryTimeout(t) => PcOf(s, t).Awaiting?
    case TimeoutClose(t) => PcOf(s, t).TimedOut?
    case ReleaseSection(t) => PcOf(s, t).Releasing?
    case DiscardSection(t) => PcOf(s, t).Discarding?
    case CloseConn(t) => PcOf(s, t).Closing?
    case FreeIt(t) => PcOf(s, t).Freeing?
    case ReaderWrite(q, ok, sent) =>
      && q in s.readers && s.readers[q].phase.ToWrite? && s.readers[q].conn in s.wire
      && (ok ==> sent)
      && (sent ==> s.readers[q].conn !in s.shut)
    case ReaderRead(q, ok, consumed) =>
      && q in s.readers && s.readers[q].phase.ToRead? && s.readers[q].conn in s.wire
      && (ok ==> consumed)
      && (consumed ==> s.readers[q].conn !in s.shut && s.wire[s.readers[q].conn] != [])
    case CloseSection => !s.pool.closed
    case CloseActive(conn) => s.closer.ClosingActive? && conn in s.closer.todo
    case CloseActiveDone => s.closer.ClosingActive? && s.closer.todo == {}
    case DrainTake => s.closer.Draining? && s.pool.idle != []
    case DrainClose => s.closer.DrainTook?
    case DrainFree => s.closer.DrainFreeing?
    case DrainEnd => s.closer.Draining? && s.pool.idle == []
  }

  /** The state after `step`. */
  function Apply(s: State, step: Step): State
    requires Enabled(s, step)
  {
    match step
    case Begin(t, configuredMax) =>
      At(s, t, if s.pool.closed then Outside else Ensured).(pool := Ensure(s.pool, configuredMax))
    case FetchChannels(t) => At(s, t, if s.pool.closed || !s.pool.created then Outside else Polling)
    case PollTake(t) => At(s, t, TookIdle(s.pool.idle[0])).(pool := TakeIdle(s.pool))
    case PollEmpty(t) => At(s, t, Waiting)
    case WaitTake(t) => At(s, t, TookIdle(s.pool.idle[0])).(pool := TakeIdle(s.pool))
    case WaitReserve(t) => At(s, t, Dialling).(pool := s.pool.(slots := s.pool.slots + 1))
    case WaitTimeout(t) => At(s, t, Outside)
    case DialOk(t, conn) =>
      At(s, t, Dialled(conn)).(dialled := s.dialled + {conn}, wire := s.wire[conn := []])
    case DialFail(t) => At(s, t, Freeing)
    case ActivateIt(t) =>
      var conn := PcOf(s, t).conn;
      At(s, t, if s.pool.closed then Outside else Holding(conn))
      .(pool := Activate(s.pool, conn), shut := if s.pool.closed then s.shut + {conn} else s.shut)
    case StartQuery(t, query) =>
      var conn := PcOf(s, t).conn;
      At(s, t, Awaiting(conn, query)).(readers := s.readers[query := Reader(conn, t, ToWrite)])
    case Receive(t) =>
      var pc := PcOf(s, t);
      (match s.readers[pc.query].phase.outcome
       case Reply(of) => At(s, t, Releasing(pc.conn)).(delivered := s.delivered[pc.query := of])
       case Failed => At(s, t, Discarding(pc.conn)))
    case QueryTimeout(t) =>
      var pc := PcOf(s, t);
      At(s, t, TimedOut(pc.conn, pc.query))
    case TimeoutClose(t) =>
      var conn := PcOf(s, t).conn;
      At(s, t, Discarding(conn)).(shut := s.shut + {conn})
    case ReleaseSection(t) =>
      var conn := PcOf(s, t).conn;
      At(s, t, if ReleaseOutcome(s.pool).Returned? then Outside else Closing(conn))
      .(pool := Release(s.pool, conn))
    case DiscardSection(t) =>
      var conn := PcOf(s, t).conn;
      At(s, t, Closing(conn)).(pool := Discard(s.pool, conn))
    case CloseConn(t) => At(s, t, Freeing).(shut := s.shut + {PcOf(s, t).conn})
    case FreeIt(t) => At(s, t, Outside).(pool := FreeSlot(s.pool))
    case ReaderWrite(q, ok, sent) =>
      var r := s.readers[q];
      s.(readers := s.readers[q := r.(phase := if ok then ToRead else Done(Failed))],
         wire := if sent then s.wire[r.conn := s.wire[r.conn] + [q]] else s.wire)
    case ReaderRead(q, ok, consumed) =>
      var r := s.readers[q];
      var outcome := if ok then Reply(s.wire[r.conn][0]) else Failed;
      s.(readers := s.readers[q := r.(phase := Done(outcome))],
         wire := if consumed then s.wire[r.conn := s.wire[r.conn][1..]] else s.wire)
    case CloseSection => s.(pool := Close(s.pool), closer := ClosingActive(s.pool.active))
    case CloseActive(conn) => s.(closer := ClosingActive(s.closer.todo - {conn}), shut := s.shut + {conn})
    case CloseActiveDone => s.(closer := if s.pool.created then Draining else Closed)
    case DrainTake => s.(closer := DrainTook(s.pool.idle[0]), pool := TakeIdle(s.pool))
    case DrainClose => s.(closer := DrainFreeing, shut := s.shut + {s.closer.conn})
    case DrainFree => s.(closer := Draining, pool := FreeSlot(s.pool))
    case DrainEnd => s.(closer := Closed)
  }

  /** `run` is a possible interleaving from `s`. */
  predicate Possible(s: State, run: seq<Step>)
    decreases |run|
  {
    run == [] || (Enabled(s, run[0]) && Possible(Apply(s, run[0]), run[1..]))
  }

  function Final(s: State, run: seq<Step>): State
    requires Possible(s, run)
    decreases |run|
  {
    if run == [] then s else Final(Apply(s, run[0]), run[1..])
  }
}
