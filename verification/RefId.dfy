/** Frames carry the refID of the query they answer, and cached frames are renamed for whoever
    asks next.  When is a renamed frame the one that parsing would have given? */
module RefId {
  /** `body` stands for the fields and metadata, which renaming copies unchanged. */
  datatype Frame = Frame(name: string, refID: string, body: nat)

  /** A kdb+ response: one table, named after the query, or a grouped table whose frames have
      names of their own. */
  datatype Response = Single(body: nat) | Grouped(groups: seq<Group>)
  datatype Group = Group(name: string, body: nat)

  function Parse(r: Response, refID: string): seq<Frame> {
    match r
    case Single(body) => [Frame(refID, refID, body)]
    case Grouped(groups) =>
      seq(|groups|, i requires 0 <= i < |groups| => Frame(groups[i].name, refID, groups[i].body))
  }

  function CloneFrame(f: Frame, stored: string, refID: string): Frame {
    if refID == "" then f else f.(refID := refID, name := if f.name == stored then refID else f.name)
  }

  /** `cloneFramesForRefID`: copies of frames stored under `stored`, for a query `refID`. */
  function Clone(frames: seq<Frame>, stored: string, refID: string): (r: seq<Frame>)
    ensures Bodies(r) == Bodies(frames)
  {
    seq(|frames|, i requires 0 <= i < |frames| => CloneFrame(frames[i], stored, refID))
  }

  function Bodies(frames: seq<Frame>): seq<nat> {
    seq(|frames|, i requires 0 <= i < |frames| => frames[i].body)
  }

  method CloneFramesForRefID(frames: seq<Frame>, stored: string, refID: string) returns (cloned: seq<Frame>)
    ensures cloned == Clone(frames, stored, refID)
  {
    cloned := [];
    for i := 0 to |frames|
      invariant cloned == Clone(frames, stored, refID)[..i]
    {
      var frame := frames[i];
      if refID != "" {
        var name := if frame.name == stored then refID else frame.name;
        frame := Frame(name, refID, frame.body);
      }
      cloned := cloned + [frame];
    }
  }

  /** A lookup without a refID gets the frames as they are stored. */
  lemma NoRefIdNoRenaming(frames: seq<Frame>, stored: string)
    ensures Clone(frames, stored, "") == frames
  {
  }

  // ---- Chains of store, promotion and lookup ----

  /** A response fetched for `chain[0]`, stored, and then served to `chain[1]`, stored under that
      refID, served to `chain[2]`, and so on. */
  function Served(r: Response, chain: seq<string>): seq<Frame>
    requires chain != []
  {
    var n := |chain| - 1;
    if n == 0 then Clone(Parse(r, chain[0]), chain[0], chain[0])
    else Clone(Served(r, chain[..n]), chain[n - 1], chain[n])
  }

  /** Where the name of a frame ends up along a chain. */
  function Walk(name: string, chain: seq<string>): string
    requires chain != []
  {
    var n := |chain| - 1;
    if n == 0 then name
    else
      var before := Walk(name, chain[..n]);
      if before == chain[n - 1] then chain[n] else before
  }

  predicate AllNamed(chain: seq<string>) {
    forall i | 0 <= i < |chain| :: chain[i] != ""
  }

  lemma {:induction false} ServedByWalking(r: Response, chain: seq<string>)
    requires chain != [] && AllNamed(chain)
    ensures var served, parsed, last := Served(r, chain), Parse(r, chain[0]), chain[|chain| - 1];
            && |served| == |parsed|
            && forall i | 0 <= i < |parsed| ::
                 served[i] == Frame(Walk(parsed[i].name, chain), last, parsed[i].body)
    decreases |chain|
  {
    var n := |chain| - 1;
    if n > 0 {
      assert chain[..n][n - 1] == chain[n - 1];
      ServedByWalking(r, chain[..n]);
    }
  }

  /** A name is caught by the first refID it equals, and then follows the requester. */
  lemma {:induction false} WalkEndsAt(name: string, chain: seq<string>)
    requires chain != []
    ensures Walk(name, chain) == if name in chain[..|chain| - 1] then chain[|chain| - 1] else name
    decreases |chain|
  {
    var n := |chain| - 1;
    if n > 0 {
      WalkEndsAt(name, chain[..n]);
      assert chain[..n] == chain[..n - 1] + [chain[n - 1]];
      assert chain[..n][..n - 1] == chain[..n - 1];
    }
  }

  /** No group is named like a refID that the frames were stored under, unless the last
      requester has that very name. */
  predicate NoClash(r: Response, chain: seq<string>)
    requires chain != []
  {
    r.Grouped? ==>
      forall i | 0 <= i < |r.groups| ::
        r.groups[i].name in chain[..|chain| - 1] ==> r.groups[i].name == chain[|chain| - 1]
  }

  /** Renaming commutes with parsing exactly on the chains without a clash. */
  lemma RenamingCommutesWithParsing(r: Response, chain: seq<string>)
    requires chain != [] && AllNamed(chain)
    ensures Served(r, chain) == Parse(r, chain[|chain| - 1]) <==> NoClash(r, chain)
  {
    var served, last := Served(r, chain), chain[|chain| - 1];
    ServedByWalking(r, chain);
    match r
    case Single(body) =>
      WalkEndsAt(chain[0], chain);
      assert |chain| > 1 ==> chain[0] in chain[..|chain| - 1];
    case Grouped(groups) =>
      var parsed := Parse(r, chain[0]);
      forall i | 0 <= i < |groups|
        ensures served[i] == Parse(r, last)[i] <==>
                (groups[i].name in chain[..|chain| - 1] ==> groups[i].name == last)
      {
        WalkEndsAt(groups[i].name, chain);
        assert served[i] == Frame(Walk(parsed[i].name, chain), last, parsed[i].body);
      }
      if Served(r, chain) == Parse(r, last) {
        forall i | 0 <= i < |groups| && groups[i].name in chain[..|chain| - 1]
          ensures groups[i].name == last
        {
          assert served[i] == Parse(r, last)[i];
        }
      }
  }

  /** A group named like the refID it was stored under follows the requester. */
  lemma GroupNameIsLost()
    ensures var r, chain := Grouped([Group("A", 0)]), ["A", "B"];
            && Served(r, chain) == [Frame("B", "B", 0)] && Parse(r, "B") == [Frame("A", "B", 0)]
            && Served(r, chain) != Parse(r, "B")
  {
    var r, chain := Grouped([Group("A", 0)]), ["A", "B"];
    assert chain[..1] == ["A"];
    assert Served(r, ["A"]) == [Frame("A", "A", 0)];
    assert Served(r, chain)[0] == Frame("B", "B", 0) && Parse(r, "B")[0] == Frame("A", "B", 0);
  }

  // ---- Coalesced callers ----

  /** What a caller that joined another caller's fetch is given: the leader's frames, cloned with
      the follower's own refID as the stored one. */
  function Coalesced(r: Response, leader: string, follower: string): seq<Frame> {
    Clone(Clone(Parse(r, leader), leader, leader), follower, follower)
  }

  /** A follower gets its own frames exactly when the frames have names of their own or the
      follower asked under the leader's refID. */
  lemma CoalescedNamesExactly(r: Response, leader: string, follower: string)
    requires leader != "" && follower != ""
    ensures Coalesced(r, leader, follower) == Parse(r, follower) <==> (r.Grouped? || leader == follower)
  {
    var given := Coalesced(r, leader, follower);
    if r.Single? {
      assert given[0].name == leader;
    }
  }

  /** The frame keeps the leader's name. */
  lemma CoalescedNameIsLost()
    ensures Coalesced(Single(0), "A", "B") == [Frame("A", "B", 0)]
    ensures Coalesced(Single(0), "A", "B") != Parse(Single(0), "B")
  {
    var given := Coalesced(Single(0), "A", "B");
    assert given[0] == Frame("A", "B", 0);
    assert Parse(Single(0), "B")[0].name == "B";
  }
}
