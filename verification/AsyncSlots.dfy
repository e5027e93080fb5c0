/** The slots that bound the jobs run at a time, and the drivers that take them: a slot is taken
    without waiting, and given back when the driver returns, whatever made it return.  A driver is
    seen twice: by itself, as the moves it makes (`SlotUse`, which the drivers' own code goes
    through), and in any interleaving with others (`State`). */
module AsyncSlots {
  import opened Wrappers

  // ---- One driver ----

  /** Where a driver is.  From `SettingUp` on its deferred release is registered. */
  datatype Pc =
    | Arriving
    | Refused
    | SettingUp
    | Polling
    | Leaving
    | Gone

  datatype Move =
    | Invalid                  // refused before a slot was asked for
    | LimitReached
    | ContextEnded
    | Report
    | Acquire
    | Start
    | Leave
    | Release

  /** Why there was no slot. */
  datatype Refusal = AtLimit(text: string) | AtEnd(text: string)

  function Next(pc: Pc, move: Move): Option<Pc> {
    match (pc, move)
    case (Arriving, Invalid) => Some(Refused)
    case (Arriving, LimitReached) => Some(Refused)
    case (Arriving, ContextEnded) => Some(Refused)
    case (Arriving, Acquire) => Some(SettingUp)
    case (Refused, Report) => Some(Gone)
    case (SettingUp, Start) => Some(Polling)
    case (SettingUp, Leave) => Some(Leaving)
    case (Polling, Leave) => Some(Leaving)
    case (Leaving, Release) => Some(Gone)
    case _ => None
  }

  /** Where a driver is that arrived at `pc` and made these moves, if it could. */
  function Walk(pc: Pc, moves: seq<Move>): Option<Pc>
    decreases |moves|
  {
    if moves == [] then Some(pc)
    else
      match Next(pc, moves[0])
      case None => None
      case Some(next) => Walk(next, moves[1..])
  }

  lemma {:induction false} WalkOn(pc: Pc, moves: seq<Move>, move: Move)
    requires Walk(pc, moves).Some?
    ensures Walk(pc, moves + [move]) == Next(Walk(pc, moves).value, move)
    decreases |moves|
  {
    if moves == [] {
      assert [move][1..] == [];
    } else {
      WalkOn(Next(pc, moves[0]).value, moves[1..], move);
      assert (moves + [move])[1..] == moves[1..] + [move];
    }
  }

  /** How often a slot may still be taken, and how often one must be given back, before return. */
  function Taken(pc: Pc): nat {
    if pc.Arriving? then 1 else 0
  }

  function Owed(pc: Pc): nat {
    if pc.SettingUp? || pc.Polling? || pc.Leaving? then 1 else 0
  }

  /** On every path to the return a slot is given back exactly as often as it was taken. */
  lemma {:induction false} ReturnedGaveBackWhatItTook(pc: Pc, moves: seq<Move>)
    requires Walk(pc, moves) == Some(Gone)
    ensures multiset(moves)[Release] == multiset(moves)[Acquire] + Owed(pc)
    ensures multiset(moves)[Acquire] <= Taken(pc)
    decreases |moves|
  {
    if moves != [] {
      ReturnedGaveBackWhatItTook(Next(pc, moves[0]).value, moves[1..]);
      assert moves == [moves[0]] + moves[1..];
    }
  }

  /** The moves of one driver, as it makes them. */
  class SlotUse {
    var pc: Pc
    ghost var moves: seq<Move>

    ghost predicate Valid()
      reads this
    {
      Walk(Arriving, moves) == Some(pc)
    }

    ghost predicate Fresh()
      reads this
    {
      pc.Arriving? && moves == []
    }

    /** Whether a slot was taken, and whether the driver is back with its caller or still polling. */
    ghost predicate Came(took: bool, returned: bool)
      reads this
    {
      && pc == (if returned then Gone else Polling)
      && moves != [] && (moves[0].Acquire? <==> took)
    }

    /** The driver is about to poll, or to return before that. */
    ghost predicate Started(took: bool)
      reads this
    {
      && pc == (if took then SettingUp else Refused)
      && moves != [] && (moves[0].Acquire? <==> took)
    }

    constructor ()
      ensures Valid() && Fresh()
    {
      pc, moves := Arriving, [];
    }

    method Make(move: Move)
      requires Valid() && Next(pc, move).Some?
      modifies this
      ensures Valid() && Some(pc) == Next(old(pc), move) && moves == old(moves) + [move]
    {
      WalkOn(Arriving, moves, move);
      pc := Next(pc, move).value;
      moves := moves + [move];
    }

    method Refuse(refusal: Refusal)
      requires Valid() && pc.Arriving?
      modifies this
      ensures Valid() && pc.Refused?
      ensures moves == old(moves) + [match refusal case AtLimit(_) => LimitReached case AtEnd(_) => ContextEnded]
    {
      Make(match refusal case AtLimit(_) => LimitReached case AtEnd(_) => ContextEnded);
    }

    /** The deferred release, or nothing where none was registered. */
    method Return()
      requires Valid() && (pc.Refused? || pc.SettingUp? || pc.Polling?)
      modifies this
      ensures Valid() && pc.Gone? && old(moves) <= moves
    {
      if pc.Refused? {
        Make(Report);
      } else {
        Make(Leave);
        Make(Release);
      }
    }
  }

  // ---- All drivers ----

  /** `acquired` and `released` count what the driver did to the slot channel. */
  datatype Driver = Driver(pc: Pc, acquired: nat, released: nat)

  /** `inUse` is the number of tokens in the slot channel. */
  datatype State = State(max: nat, inUse: nat, drivers: map<nat, Driver>)

  function Initial(max: nat): State {
    State(max, 0, map[])
  }

  datatype Step = Arrive(d: nat) | Moves(d: nat, move: Move)

  predicate Is(s: State, d: nat, pc: Pc) {
    d in s.drivers && s.drivers[d].pc == pc
  }

  /** The limit is reported only when a slot could not be taken at once. */
  predicate Enabled(s: State, step: Step) {
    match step
    case Arrive(d) => d !in s.drivers
    case Moves(d, move) =>
      && d in s.drivers && Next(s.drivers[d].pc, move).Some?
      && (move.Acquire? ==> s.inUse < s.max)
      && (move.LimitReached? ==> s.inUse >= s.max)
  }

  /** A release is a receive that does not wait: from an empty channel it takes nothing. */
  function Tokens(inUse: nat, move: Move): nat {
    match move
    case Acquire => inUse + 1
    case Release => if inUse > 0 then inUse - 1 else 0
    case _ => inUse
  }

  function Moved(driver: Driver, move: Move): Driver
    requires Next(driver.pc, move).Some?
  {
    Driver(Next(driver.pc, move).value,
           driver.acquired + (if move.Acquire? then 1 else 0),
           driver.released + (if move.Release? then 1 else 0))
  }

  function Apply(s: State, step: Step): State
    requires Enabled(s, step)
  {
    match step
    case Arrive(d) => s.(drivers := s.drivers[d := Driver(Arriving, 0, 0)])
    case Moves(d, move) =>
      s.(inUse := Tokens(s.inUse, move), drivers := s.drivers[d := Moved(s.drivers[d], move)])
  }

  ghost predicate Possible(s: State, run: seq<Step>)
    decreases |run|
  {
    run == [] || (Enabled(s, run[0]) && Possible(Apply(s, run[0]), run[1..]))
  }

  ghost function Final(s: State, run: seq<Step>): State
    requires Possible(s, run)
    decreases |run|
  {
    if run == [] then s else Final(Apply(s, run[0]), run[1..])
  }

  // ---- Invariant ----

  predicate Holds(pc: Pc) {
    pc.SettingUp? || pc.Polling? || pc.Leaving?
  }

  /** The drivers that have a slot. */
  function Holders(drivers: map<nat, Driver>): set<nat> {
    set d | d in drivers && Holds(drivers[d].pc)
  }

  predicate Paired(driver: Driver) {
    match driver.pc
    case Arriving => driver.acquired == driver.released == 0
    case Refused => driver.acquired == driver.released == 0
    case Gone => driver.acquired == driver.released <= 1
    case _ => driver.acquired == 1 && driver.released == 0
  }

  ghost predicate Inv(s: State) {
    && s.inUse == |Holders(s.drivers)| <= s.max
    && forall d | d in s.drivers :: Paired(s.drivers[d])
  }

  lemma HoldersAfter(drivers: map<nat, Driver>, d: nat, driver: Driver)
    ensures Holders(drivers[d := driver]) ==
            if Holds(driver.pc) then Holders(drivers) + {d} else Holders(drivers) - {d}
  {
  }

  lemma KeepsInv(s: State, step: Step)
    requires Inv(s) && Enabled(s, step)
    ensures Inv(Apply(s, step))
  {
    var d, s' := step.d, Apply(s, step);
    HoldersAfter(s.drivers, d, s'.drivers[d]);
    assert d in s.drivers ==> (d in Holders(s.drivers) <==> Holds(s.drivers[d].pc));
  }

  lemma {:induction false} RunKeepsInv(s: State, run: seq<Step>)
    requires Inv(s) && Possible(s, run)
    ensures Inv(Final(s, run)) && Final(s, run).max == s.max
    decreases |run|
  {
    if run != [] {
      KeepsInv(s, run[0]);
      RunKeepsInv(Apply(s, run[0]), run[1..]);
    }
  }

  // ---- The drivers in a run ----

  /** What driver `d` did in a run. */
  function MovesOf(run: seq<Step>, d: nat): seq<Move>
    decreases |run|
  {
    if run == [] then []
    else (if run[0].Moves? && run[0].d == d then [run[0].move] else []) + MovesOf(run[1..], d)
  }

  /** In every interleaving each driver makes a walk of its own. */
  lemma {:induction false} EveryDriverWalks(s: State, run: seq<Step>, d: nat)
    requires Possible(s, run) && d in s.drivers
    ensures d in Final(s, run).drivers
    ensures Walk(s.drivers[d].pc, MovesOf(run, d)) == Some(Final(s, run).drivers[d].pc)
    decreases |run|
  {
    if run != [] {
      EveryDriverWalks(Apply(s, run[0]), run[1..], d);
      if run[0].Moves? && run[0].d == d {
        assert ([run[0].move] + MovesOf(run[1..], d))[1..] == MovesOf(run[1..], d);
      } else {
        assert [] + MovesOf(run[1..], d) == MovesOf(run[1..], d);
      }
    }
  }

  function StepsOf(d: nat, moves: seq<Move>): seq<Step> {
    seq(|moves|, i requires 0 <= i < |moves| => Moves(d, moves[i]))
  }

  /** The first move finds the channel as it needs it. */
  predicate Allowed(s: State, moves: seq<Move>) {
    && (moves != [] && moves[0].Acquire? ==> s.inUse < s.max)
    && (moves != [] && moves[0].LimitReached? ==> s.inUse >= s.max)
  }

  /** And every walk is what a driver does in some run: whatever is going on, as long as there is a
      slot if it takes one, and none if it reports the limit. */
  lemma {:induction false} EveryWalkHappens(s: State, d: nat, moves: seq<Move>)
    requires d in s.drivers && Walk(s.drivers[d].pc, moves).Some? && Allowed(s, moves)
    ensures Possible(s, StepsOf(d, moves))
    ensures var f := Final(s, StepsOf(d, moves));
            d in f.drivers && Some(f.drivers[d].pc) == Walk(s.drivers[d].pc, moves)
    decreases |moves|
  {
    if moves != [] {
      assert StepsOf(d, moves)[0] == Moves(d, moves[0]);
      assert StepsOf(d, moves)[1..] == StepsOf(d, moves[1..]);
      assert Allowed(Apply(s, Moves(d, moves[0])), moves[1..]) by {
        assert moves[1..] != [] ==> Next(Next(s.drivers[d].pc, moves[0]).value, moves[1..][0]).Some?;
      }
      EveryWalkHappens(Apply(s, Moves(d, moves[0])), d, moves[1..]);
    }
  }

  // ---- Theorems ----

  /** In every interleaving the slots in use are the drivers between acquire and return, at most
      the limit, and a driver that has returned gave back exactly what it took. */
  lemma SlotsCountDrivers(max: nat, run: seq<Step>)
    requires Possible(Initial(max), run)
    ensures var s := Final(Initial(max), run);
            && s.inUse == |Holders(s.drivers)| <= max
            && forall d | d in s.drivers && s.drivers[d].pc.Gone? :: s.drivers[d].acquired == s.drivers[d].released <= 1
  {
    assert Holders(map[]) == {};
    RunKeepsInv(Initial(max), run);
  }

  /** A release always finds a token, so it never drops somebody else's. */
  lemma ReleaseFindsItsToken(max: nat, run: seq<Step>, d: nat)
    requires Possible(Initial(max), run) && Enabled(Final(Initial(max), run), Moves(d, Release))
    ensures var s := Final(Initial(max), run);
            s.inUse > 0 && Apply(s, Moves(d, Release)).inUse == s.inUse - 1
  {
    var s := Final(Initial(max), run);
    assert Holders(map[]) == {};
    RunKeepsInv(Initial(max), run);
    assert d in Holders(s.drivers);
  }

  /** The limit is reported exactly when as many drivers hold a slot as there are; each of them
      can go on by itself. */
  lemma LimitMeansAllSlotsAreHeld(max: nat, run: seq<Step>, d: nat)
    requires Possible(Initial(max), run) && Is(Final(Initial(max), run), d, Arriving)
    ensures var s := Final(Initial(max), run);
            && (Enabled(s, Moves(d, LimitReached)) <==> |Holders(s.drivers)| == max)
            && (Enabled(s, Moves(d, Acquire)) <==> !Enabled(s, Moves(d, LimitReached)))
            && forall h | h in Holders(s.drivers) :: Enabled(s, Moves(h, Leave)) || Enabled(s, Moves(h, Release))
  {
    assert Holders(map[]) == {};
    RunKeepsInv(Initial(max), run);
  }

  /** When every driver has returned, all slots are free. */
  lemma NothingHeldAtRest(max: nat, run: seq<Step>)
    requires Possible(Initial(max), run)
    requires forall d | d in Final(Initial(max), run).drivers :: Final(Initial(max), run).drivers[d].pc.Gone?
    ensures Final(Initial(max), run).inUse == 0
  {
    assert Holders(map[]) == {};
    RunKeepsInv(Initial(max), run);
    assert Holders(Final(Initial(max), run).drivers) == {};
  }
}
