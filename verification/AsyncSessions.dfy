/** The browser-side sessions of asynchronous queries: a map in insertion order, at most a hundred
    keys, the least recently used one dropped first. */
module AsyncSessions {
  import opened Sequences

  type Key = string

  const MAX_ASYNC_SESSIONS: nat := 100

  /** The keys in insertion order, and their sessions. */
  datatype State<S> = State(order: seq<Key>, sessions: map<Key, S>)

  function Without(keys: seq<Key>, key: Key): seq<Key> {
    if keys == [] then [] else (if keys[0] == key then [] else [keys[0]]) + Without(keys[1..], key)
  }

  /** One access to `key`; `created` becomes its session when it has none. */
  function Access<S>(s: State<S>, key: Key, created: S): State<S> {
    if key in s.sessions then State(Without(s.order, key) + [key], s.sessions)
    else if |s.order| >= MAX_ASYNC_SESSIONS then
      State(s.order[1..] + [key], (s.sessions - {s.order[0]})[key := created])
    else State(s.order + [key], s.sessions[key := created])
  }

  ghost predicate Sound<S>(s: State<S>) {
    && NoRepeat(s.order)
    && (forall k :: k in s.order <==> k in s.sessions)
    && |s.order| <= MAX_ASYNC_SESSIONS
  }

  class Session {
    const maxRows: int

    constructor (maxRows: int)
      ensures this.maxRows == maxRows
    {
      this.maxRows := maxRows;
    }
  }

  class Sessions {
    var order: seq<Key>
    var sessions: map<Key, Session>

    ghost function Contents(): State<Session>
      reads this
    {
      State(order, sessions)
    }

    constructor ()
      ensures Contents() == State([], map[])
    {
      order, sessions := [], map[];
    }

    method GetOrCreate(key: Key, maxRows: int) returns (session: Session)
      requires Sound(Contents())
      modifies this
      ensures Sound(Contents())
      ensures key in old(sessions) ==> session == old(sessions)[key]
      ensures key !in old(sessions) ==> fresh(session) && session.maxRows == maxRows
      ensures Contents() == Access(old(Contents()), key, session)
    {
      if key in sessions {
        session := sessions[key];
        AccessIsSound(Contents(), key, session);
        order := Without(order, key) + [key];
        return;
      }
      ghost var before := Contents();
      if |order| >= MAX_ASYNC_SESSIONS {
        sessions := sessions - {order[0]};
        order := order[1..];
      }
      session := new Session(maxRows);
      AccessIsSound(before, key, session);
      sessions := sessions[key := session];
      order := order + [key];
    }
  }

  // ---- Deleting from an order ----

  lemma {:induction false} WithoutConcat(a: seq<Key>, b: seq<Key>, key: Key)
    ensures Without(a + b, key) == Without(a, key) + Without(b, key)
    decreases |a|
  {
    if a == [] {
      assert a + b == b;
    } else {
      WithoutConcat(a[1..], b, key);
      assert (a + b)[0] == a[0] && (a + b)[1..] == a[1..] + b;
      assert Without(a + b, key) == (if a[0] == key then [] else [a[0]]) + Without(a[1..] + b, key);
    }
  }

  lemma {:induction false} WithoutKeeps(keys: seq<Key>, key: Key)
    ensures forall k :: k in Without(keys, key) <==> k in keys && k != key
    ensures key !in keys ==> Without(keys, key) == keys
    decreases |keys|
  {
    if keys != [] {
      WithoutKeeps(keys[1..], key);
      assert keys == [keys[0]] + keys[1..];
    }
  }

  lemma {:induction false} WithoutOne(keys: seq<Key>, key: Key)
    requires NoRepeat(keys)
    ensures NoRepeat(Without(keys, key))
    ensures |Without(keys, key)| == |keys| - (if key in keys then 1 else 0)
    decreases |keys|
  {
    if keys != [] {
      WithoutOne(keys[1..], key);
      WithoutKeeps(keys[1..], key);
      assert keys == [keys[0]] + keys[1..];
      assert keys[0] !in keys[1..];
    }
  }

  lemma AccessIsSound<S>(s: State<S>, key: Key, created: S)
    requires Sound(s)
    ensures Sound(Access(s, key, created))
  {
    WithoutKeeps(s.order, key);
    WithoutOne(s.order, key);
    if key !in s.sessions && |s.order| >= MAX_ASYNC_SESSIONS {
      assert s.order == [s.order[0]] + s.order[1..];
      assert s.order[0] !in s.order[1..];
    }
  }

  // ---- Access histories ----

  /** The state after a history of accesses; sessions are named by the access that made them. */
  function After(history: seq<Key>): State<nat> {
    var n := |history| - 1;
    if history == [] then State([], map[]) else Access(After(history[..n]), history[n], n)
  }

  /** The distinct keys of a history, least recently used first. */
  function Recent(history: seq<Key>): seq<Key> {
    var n := |history| - 1;
    if history == [] then [] else Without(Recent(history[..n]), history[n]) + [history[n]]
  }

  function LastUpTo(keys: seq<Key>, limit: nat): seq<Key> {
    if |keys| <= limit then keys else keys[|keys| - limit..]
  }

  lemma {:induction false} AfterIsSound(history: seq<Key>)
    ensures Sound(After(history))
    decreases |history|
  {
    var n := |history| - 1;
    if history != [] {
      AfterIsSound(history[..n]);
      AccessIsSound(After(history[..n]), history[n], n);
    }
  }

  lemma {:induction false} RecentDistinct(history: seq<Key>)
    ensures NoRepeat(Recent(history))
    ensures forall k :: k in Recent(history) <==> k in history
    decreases |history|
  {
    var n := |history| - 1;
    if history != [] {
      RecentDistinct(history[..n]);
      WithoutOne(Recent(history[..n]), history[n]);
      WithoutKeeps(Recent(history[..n]), history[n]);
      assert history == history[..n] + [history[n]];
    }
  }

  /** `i` is the last access to its key. */
  predicate LastAccess(history: seq<Key>, i: int) {
    0 <= i < |history| && forall j | i < j < |history| :: history[j] != history[i]
  }

  ghost predicate ByLastAccess(keys: seq<Key>, history: seq<Key>) {
    forall a, b, i, j | 0 <= a < b < |keys| && LastAccess(history, i) && LastAccess(history, j)
                        && history[i] == keys[a] && history[j] == keys[b] :: i < j
  }

  lemma {:induction false} WithoutKeepsOrder(keys: seq<Key>, key: Key, history: seq<Key>)
    requires ByLastAccess(keys, history)
    ensures ByLastAccess(Without(keys, key), history)
    decreases |keys|
  {
    if keys != [] {
      assert ByLastAccess(keys[1..], history) by {
        assert forall a | 0 <= a < |keys| - 1 :: keys[1..][a] == keys[a + 1];
      }
      WithoutKeepsOrder(keys[1..], key, history);
      if keys[0] != key {
        PrependedInOrder(keys, Without(keys[1..], key), history) by {
          WithoutKeeps(keys[1..], key);
        }
      }
    }
  }

  lemma PrependedInOrder(keys: seq<Key>, rest: seq<Key>, history: seq<Key>)
    requires keys != [] && ByLastAccess(keys, history) && ByLastAccess(rest, history)
    requires forall k | k in rest :: k in keys[1..]
    ensures ByLastAccess([keys[0]] + rest, history)
  {
    var all := [keys[0]] + rest;
    forall a, b, i, j | 0 <= a < b < |all| && LastAccess(history, i) && LastAccess(history, j)
                        && history[i] == all[a] && history[j] == all[b]
      ensures i < j
    {
      assert all[b] == rest[b - 1] && all[b] in keys[1..];
      if a == 0 {
        var c :| 0 <= c < |keys[1..]| && keys[1..][c] == all[b];
        assert keys[c + 1] == all[b];
      } else {
        assert all[a] == rest[a - 1];
      }
    }
  }

  lemma LastAccessBefore(before: seq<Key>, key: Key, i: int)
    requires LastAccess(before + [key], i) && (before + [key])[i] != key
    ensures LastAccess(before, i) && before[i] == (before + [key])[i]
  {
    forall j | i < j < |before| ensures before[j] != before[i] {
      assert (before + [key])[j] == before[j];
    }
  }

  /** Accessing `key` puts it last. */
  lemma AccessedLast(before: seq<Key>, key: Key, rest: seq<Key>)
    requires ByLastAccess(rest, before) && key !in rest
    ensures ByLastAccess(rest + [key], before + [key])
  {
    var history, all, n := before + [key], rest + [key], |before|;
    forall a, b, i, j | 0 <= a < b < |all| && LastAccess(history, i) && LastAccess(history, j)
                        && history[i] == all[a] && history[j] == all[b]
      ensures i < j
    {
      assert all[a] == rest[a] && rest[a] in rest;
      LastAccessBefore(before, key, i);
      if b < |rest| {
        assert all[b] == rest[b] && rest[b] in rest;
        LastAccessBefore(before, key, j);
      } else {
        assert history[n] == key && j == n;
      }
    }
  }

  /** `Recent` is what it says: ordered by last access. */
  lemma {:induction false} RecentByLastAccess(history: seq<Key>)
    ensures ByLastAccess(Recent(history), history)
    decreases |history|
  {
    var n := |history| - 1;
    if history != [] {
      var before, key := history[..n], history[n];
      RecentByLastAccess(before);
      WithoutKeepsOrder(Recent(before), key, before);
      WithoutKeeps(Recent(before), key);
      assert history == before + [key];
      AccessedLast(before, key, Without(Recent(before), key));
    }
  }

  /** The map holds exactly the last hundred distinct keys of the history, in recency order. */
  lemma {:induction false} HoldsTheMostRecent(history: seq<Key>)
    ensures After(history).order == LastUpTo(Recent(history), MAX_ASYNC_SESSIONS)
    decreases |history|
  {
    var n := |history| - 1;
    if history != [] {
      var before := history[..n];
      HoldsTheMostRecent(before);
      AfterIsSound(before);
      RecentDistinct(before);
      AccessKeepsRecent(After(before), Recent(before), history[n], n);
    }
  }

  lemma SuffixIs(before: seq<Key>, kept: seq<Key>, limit: nat)
    requires if before == [] then |kept| <= limit else |kept| == limit
    ensures LastUpTo(before + kept, limit) == kept
  {
  }

  lemma AccessKeepsRecent(s: State<nat>, recent: seq<Key>, key: Key, created: nat)
    requires Sound(s) && NoRepeat(recent) && s.order == LastUpTo(recent, MAX_ASYNC_SESSIONS)
    ensures Access(s, key, created).order == LastUpTo(Without(recent, key) + [key], MAX_ASYNC_SESSIONS)
  {
    var dropped := recent[..|recent| - |s.order|];
    assert recent == dropped + s.order;
    WithoutConcat(dropped, s.order, key);
    if key in s.order {
      KeptMovesToTheEnd(dropped, s.order, key);
    } else {
      WithoutKeeps(s.order, key);
      NewKeyAtTheEnd(Without(dropped, key), s.order, key);
    }
  }

  lemma KeptMovesToTheEnd(dropped: seq<Key>, kept: seq<Key>, key: Key)
    requires NoRepeat(dropped + kept) && key in kept
    requires if dropped == [] then |kept| <= MAX_ASYNC_SESSIONS else |kept| == MAX_ASYNC_SESSIONS
    ensures LastUpTo(Without(dropped, key) + Without(kept, key) + [key], MAX_ASYNC_SESSIONS) ==
            Without(kept, key) + [key]
  {
    KeptHasNoRepeat(dropped, kept, key);
    WithoutKeeps(dropped, key);
    WithoutOne(kept, key);
    assert dropped + Without(kept, key) + [key] == dropped + (Without(kept, key) + [key]);
    SuffixIs(dropped, Without(kept, key) + [key], MAX_ASYNC_SESSIONS);
  }

  lemma NewKeyAtTheEnd(dropped: seq<Key>, kept: seq<Key>, key: Key)
    requires if |kept| < MAX_ASYNC_SESSIONS then dropped == [] else |kept| == MAX_ASYNC_SESSIONS
    ensures LastUpTo(dropped + kept + [key], MAX_ASYNC_SESSIONS) ==
            (if |kept| < MAX_ASYNC_SESSIONS then kept else kept[1..]) + [key]
  {
    if |kept| < MAX_ASYNC_SESSIONS {
      assert dropped + kept + [key] == kept + [key];
    } else {
      assert dropped + kept + [key] == (dropped + [kept[0]]) + (kept[1..] + [key]);
      SuffixIs(dropped + [kept[0]], kept[1..] + [key], MAX_ASYNC_SESSIONS);
    }
  }

  lemma KeptHasNoRepeat(dropped: seq<Key>, kept: seq<Key>, key: Key)
    requires NoRepeat(dropped + kept) && key in kept
    ensures NoRepeat(kept) && key !in dropped
  {
    var all := dropped + kept;
    forall i, j | 0 <= i < j < |kept| ensures kept[i] != kept[j] {
      assert all[|dropped| + i] != all[|dropped| + j];
    }
    var i :| 0 <= i < |kept| && kept[i] == key;
    forall j | 0 <= j < |dropped| ensures dropped[j] != key {
      assert all[j] != all[|dropped| + i];
    }
  }

  /** A key is there exactly when fewer than a hundred distinct keys were accessed after it. */
  lemma PresentExactly(history: seq<Key>, p: nat)
    requires p < |Recent(history)|
    ensures Recent(history)[p] in After(history).sessions <==> |Recent(history)| - p <= MAX_ASYNC_SESSIONS
  {
    HoldsTheMostRecent(history);
    AfterIsSound(history);
    RecentDistinct(history);
    var recent, kept := Recent(history), After(history).order;
    var gone := |recent| - |kept|;
    if p >= gone {
      assert kept[p - gone] == recent[p];
    } else {
      forall i | 0 <= i < |kept| ensures kept[i] != recent[p] {
        assert kept[i] == recent[gone + i];
      }
    }
  }

  /** Access `i` made a new session for `key`, and the key has been there ever since. */
  ghost predicate NewAt(history: seq<Key>, key: Key, i: nat) {
    && i < |history| && history[i] == key
    && key !in After(history[..i]).sessions
    && forall j | i < j <= |history| :: key in After(history[..j]).sessions
  }

  /** A surviving key still has the session made when it was last inserted as new. */
  lemma {:induction false} SessionIsFromLatestInsertion(history: seq<Key>, key: Key)
    requires key in After(history).sessions
    ensures NewAt(history, key, After(history).sessions[key])
    decreases |history|
  {
    var n := |history| - 1;
    var before, s := history[..n], After(history[..n]);
    assert history[..|history|] == history;
    if key in s.sessions {
      SessionIsFromLatestInsertion(before, key);
      var i := s.sessions[key];
      assert before[..i] == history[..i];
      forall j | i < j <= |history| ensures key in After(history[..j]).sessions {
        if j <= n { assert before[..j] == history[..j]; }
      }
    }
  }
}
