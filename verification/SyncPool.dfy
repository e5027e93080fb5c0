/** The bounded pool of IPC connections, seen one critical section at a time.

    `Shared` is the state that the datasource mutex and the two channels guard.
    Each function below is the effect of one critical section or one channel
    operation; the class `ConnectionPool` performs the same sections in place and
    every method is proved against its function.  How the sections of many
    threads interleave is the subject of module `PoolProtocol`. */
module SyncPool {
  type Conn = nat

  /** `idle` is the buffered channel of reusable connections (oldest first), `slots` the
      number of tokens in the slot channel.  Both channels have capacity `max`.
      A nil `active` map is an empty set: deleting from either is a no-op. */
  datatype Shared = Shared(
    created: bool,
    closed: bool,
    max: nat,
    idle: seq<Conn>,
    slots: nat,
    active: set<Conn>)

  const EMPTY := Shared(false, false, 0, [], 0, {})

  datatype ReleaseAction = Returned | MustClose

  function Ensure(s: Shared, configuredMax: nat): Shared {
    if s.closed || s.created then s else Shared(true, false, configuredMax, [], 0, {})
  }

  function FreeSlot(s: Shared): Shared {
    if s.created && s.slots > 0 then s.(slots := s.slots - 1) else s
  }

  /** On a closed pool the section also closes the connection. */
  function Activate(s: Shared, conn: Conn): Shared {
    if s.closed then FreeSlot(s) else s.(active := s.active + {conn})
  }

  function ReleaseOutcome(s: Shared): ReleaseAction {
    if s.closed || !s.created || |s.idle| >= s.max then MustClose else Returned
  }

  function Release(s: Shared, conn: Conn): Shared {
    var s' := s.(active := s.active - {conn});
    if ReleaseOutcome(s).Returned? then s'.(idle := s.idle + [conn]) else s'
  }

  function Discard(s: Shared, conn: Conn): Shared {
    s.(active := s.active - {conn})
  }

  function Close(s: Shared): Shared {
    s.(closed := true, active := {})
  }

  function TakeIdle(s: Shared): Shared
    requires s.idle != []
  {
    s.(idle := s.idle[1..])
  }

  /** `n` times: take an idle connection and give its slot back. */
  function Drained(s: Shared, n: nat): (r: Shared)
    requires n <= |s.idle|
    ensures r.idle == s.idle[n..]
  {
    if n == 0 then s else FreeSlot(TakeIdle(Drained(s, n - 1)))
  }

  function Members(conns: seq<Conn>): set<Conn> {
    set c | c in conns
  }

  lemma MembersNext(conns: seq<Conn>, n: nat)
    requires n < |conns|
    ensures Members(conns[..n + 1]) == Members(conns[..n]) + {conns[n]}
  {
    assert conns[..n + 1] == conns[..n] + [conns[n]];
  }

  lemma {:induction false} DrainedShape(s: Shared, n: nat)
    requires n <= |s.idle| <= s.slots && s.created
    ensures Drained(s, n) == s.(idle := s.idle[n..], slots := s.slots - n)
  {
    if n == 0 {
      assert s.idle[0..] == s.idle;
    } else {
      DrainedShape(s, n - 1);
      assert s.idle[n - 1..][1..] == s.idle[n..];
    }
  }

  /** The pool object.  `shut` records the connections on which `Close` was called. */
  class ConnectionPool {
    var created: bool
    var closed: bool
    var max: nat
    var idle: seq<Conn>
    var slots: nat
    var active: set<Conn>
    var shut: set<Conn>

    ghost function View(): Shared
      reads this
    {
      Shared(created, closed, max, idle, slots, active)
    }

    constructor ()
      ensures View() == EMPTY && shut == {}
    {
      created, closed, max, idle, slots, active, shut := false, false, 0, [], 0, {}, {};
    }

    method EnsurePool(configuredMax: nat) returns (ok: bool)
      modifies this
      ensures ok == !old(closed)
      ensures View() == Ensure(old(View()), configuredMax) && shut == old(shut)
    {
      if closed {
        return false;
      }
      if created {
        return true;
      }
      created, max, idle, slots, active := true, configuredMax, [], 0, {};
      return true;
    }

    /** The non-blocking receive from the idle channel. */
    method PollIdle() returns (conn: Conn, ok: bool)
      modifies this`idle
      ensures ok == (old(idle) != [])
      ensures ok ==> conn == old(idle)[0] && View() == TakeIdle(old(View()))
      ensures !ok ==> View() == old(View())
    {
      if idle == [] {
        return 0, false;
      }
      conn, ok := idle[0], true;
      idle := idle[1..];
    }

    method ActivateConnection(conn: Conn) returns (ok: bool)
      modifies this
      ensures ok == !old(closed)
      ensures View() == Activate(old(View()), conn)
      ensures shut == if ok then old(shut) else old(shut) + {conn}
    {
      if closed {
        shut := shut + {conn};
        ReleaseSlot();
        return false;
      }
      active := active + {conn};
      return true;
    }

    /** A release runs its section, and outside the mutex closes the connection and frees
        the slot if the section did not put it back. */
    method ReleaseConnection(conn: Conn) returns (action: ReleaseAction)
      modifies this
      ensures action == ReleaseOutcome(old(View()))
      ensures action.Returned? ==> View() == Release(old(View()), conn) && shut == old(shut)
      ensures action.MustClose? ==>
                View() == FreeSlot(Release(old(View()), conn)) && shut == old(shut) + {conn}
    {
      active := active - {conn};
      if closed || !created || |idle| >= max {
        shut := shut + {conn};
        ReleaseSlot();
        return MustClose;
      }
      idle := idle + [conn];
      return Returned;
    }

    method DiscardConnection(conn: Conn)
      modifies this
      ensures View() == FreeSlot(Discard(old(View()), conn)) && shut == old(shut) + {conn}
    {
      active := active - {conn};
      shut := shut + {conn};
      ReleaseSlot();
    }

    method ReleaseSlot()
      modifies this`slots
      ensures View() == FreeSlot(old(View()))
    {
      if created && slots > 0 {
        slots := slots - 1;
      }
    }

    /** Closing with nobody else running: every active connection is closed, then the idle
        channel is drained one connection and one slot at a time. */
    method ClosePool()
      modifies this
      ensures old(closed) ==> View() == old(View()) && shut == old(shut)
      ensures !old(closed) ==>
                && View() == Drained(Close(old(View())), if old(created) then |old(idle)| else 0)
                && shut == old(shut) + old(active) +
                           if old(created) then Members(old(idle)) else {}
      ensures !old(closed) && old(created) && |old(idle)| <= old(slots) ==>
                idle == [] && slots == old(slots) - |old(idle)|
    {
      if closed {
        return;
      }
      closed := true;
      shut := shut + active;
      active := {};
      if !created {
        return;
      }
      ghost var start := View();
      ghost var closedActive := shut;
      ghost var n := 0;
      while idle != []
        invariant 0 <= n <= |start.idle| && idle == start.idle[n..]
        invariant View() == Drained(start, n)
        invariant shut == closedActive + Members(start.idle[..n])
        decreases |idle|
      {
        var conn := idle[0];
        MembersNext(start.idle, n);
        idle := idle[1..];
        shut := shut + {conn};
        ReleaseSlot();
        n := n + 1;
        assert idle == start.idle[n..];
      }
      assert start.idle[..n] == start.idle;
      if |start.idle| <= start.slots { DrainedShape(start, n); }
    }
  }
}
