/** Herd suppression: any number of callers query one key under one policy that reads and stores
    and never serves stale answers.  Each caller looks in memory, then enters the key's flight,
    looks again as its leader, and only then queries kdb+.  Eviction and clearing may drop the
    entry at any moment. */
module Herd {
  import opened Wrappers
  import opened MemoryCache

  datatype Pc =
    | Idle
    | Looking(now: Time)       // the clock was read, the lock is not yet held
    | Missed
    | Waiting                  // joined another caller's flight
    | Leading
    | LookingAgain(now: Time)
    | MissedAgain
    | Fetching
    | Answered
    | Storing(createdAt: Time)
    | Ending

  datatype Event = Begin(at: Time) | Stored(at: Time) | Dropped

  /** `created` is the creation time of the key's entry; `log` has every kdb+ query begun,
      every answer stored, and every eviction or clearing of the key, in order. */
  datatype State = State(
    created: Option<Time>,
    clock: Time,
    flight: Option<nat>,
    pcs: map<nat, Pc>,
    log: seq<Event>)

  const INITIAL := State(None, 1, None, map[], [])

  datatype Step =
    | Tick(now: Time)
    | Arrive(t: nat)
    | Look(t: nat)
    | EnterFlight(t: nat)
    | SampleAgain(t: nat)
    | LookAgain(t: nat)
    | BeginFetch(t: nat)
    | FetchOk(t: nat)
    | FetchFailed(t: nat)
    | SampleCreation(t: nat)
    | Store(t: nat)
    | EndFlight(t: nat)
    | Drop

  function PcOf(s: State, t: nat): Pc {
    if t in s.pcs then s.pcs[t] else Idle
  }

  predicate Enabled(s: State, step: Step) {
    match step
    case Tick(now) => now >= s.clock
    case Arrive(t) => PcOf(s, t).Idle?
    case Look(t) => PcOf(s, t).Looking?
    case EnterFlight(t) => PcOf(s, t).Missed?
    case SampleAgain(t) => PcOf(s, t).Leading?
    case LookAgain(t) => PcOf(s, t).LookingAgain?
    case BeginFetch(t) => PcOf(s, t).MissedAgain?
    case FetchOk(t) => PcOf(s, t).Fetching?
    case FetchFailed(t) => PcOf(s, t).Fetching?
    case SampleCreation(t) => PcOf(s, t).Answered?
    case Store(t) => PcOf(s, t).Storing?
    case EndFlight(t) => PcOf(s, t).Ending?
    case Drop => true
  }

  predicate Served(s: State, p: Policy, now: Time) {
    s.created.Some? && !Refused(now - s.created.value, p)
  }

  function At(s: State, t: nat, pc: Pc): State {
    s.(pcs := s.pcs[t := pc])
  }

  /** A lookup that is not served removes the entry. */
  function Looked(s: State, t: nat, p: Policy, now: Time, hit: Pc, miss: Pc): State {
    if Served(s, p, now) then At(s, t, hit) else At(s, t, miss).(created := None)
  }

  function Apply(p: Policy, s: State, step: Step): State
    requires Enabled(s, step)
  {
    match step
    case Tick(now) => s.(clock := now)
    case Arrive(t) => At(s, t, Looking(s.clock))
    case Look(t) => Looked(s, t, p, PcOf(s, t).now, Idle, Missed)
    case EnterFlight(t) =>
      if s.flight.Some? then At(s, t, Waiting) else At(s, t, Leading).(flight := Some(t))
    case SampleAgain(t) => At(s, t, LookingAgain(s.clock))
    case LookAgain(t) => Looked(s, t, p, PcOf(s, t).now, Ending, MissedAgain)
    case BeginFetch(t) => At(s, t, Fetching).(log := s.log + [Begin(s.clock)])
    case FetchOk(t) => At(s, t, Answered)
    case FetchFailed(t) => At(s, t, Ending)
    case SampleCreation(t) => At(s, t, Storing(s.clock))
    case Store(t) =>
      var createdAt := PcOf(s, t).createdAt;
      At(s, t, Ending).(created := Some(createdAt), log := s.log + [Stored(createdAt)])
    case EndFlight(t) =>
      s.(flight := None, pcs := map u | u in s.pcs :: if u == t || s.pcs[u].Waiting? then Idle else s.pcs[u])
    case Drop => s.(created := None, log := s.log + [Dropped])
  }

  ghost predicate Possible(p: Policy, s: State, run: seq<Step>)
    decreases |run|
  {
    run == [] || (Enabled(s, run[0]) && Possible(p, Apply(p, s, run[0]), run[1..]))
  }

  ghost function Final(p: Policy, s: State, run: seq<Step>): State
    requires Possible(p, s, run)
    decreases |run|
  {
    if run == [] then s else Final(p, Apply(p, s, run[0]), run[1..])
  }

  // ---- Invariant ----

  predicate InFlight(pc: Pc) {
    !pc.Idle? && !pc.Looking? && !pc.Missed? && !pc.Waiting?
  }

  /** One leader at a time. */
  ghost predicate Exclusive(s: State) {
    && (forall t | t in s.pcs :: InFlight(s.pcs[t]) ==> s.flight == Some(t))
    && (s.flight.Some? ==> s.flight.value in s.pcs && InFlight(s.pcs[s.flight.value]))
    && (forall t | t in s.pcs :: s.pcs[t].Waiting? ==> s.flight.Some?)
  }

  ghost predicate UpTo(log: seq<Event>, time: Time) {
    forall i | 0 <= i < |log| && !log[i].Dropped? :: log[i].at <= time
  }

  ghost predicate Clocked(s: State) {
    && UpTo(s.log, s.clock)
    && forall t | t in s.pcs ::
         match s.pcs[t]
         case Looking(now) => now <= s.clock
         case LookingAgain(now) => now <= s.clock
         case Storing(createdAt) => UpTo(s.log, createdAt) && createdAt <= s.clock
         case _ => true
  }

  /** The key was not dropped after event `i` and before event `j`. */
  ghost predicate Undisturbed(log: seq<Event>, i: int, j: int)
    requires 0 <= i && j <= |log|
  {
    forall k | i < k < j :: !log[k].Dropped?
  }

  /** Event `i` stored an answer that was not dropped since. */
  ghost predicate StillStored(log: seq<Event>, i: int) {
    0 <= i < |log| && log[i].Stored? && Undisturbed(log, i, |log|)
  }

  /** Every answer stored and not dropped so far is older than `ttl` at `time`. */
  ghost predicate AllOld(log: seq<Event>, p: Policy, time: Time) {
    forall i | StillStored(log, i) :: log[i].at + p.ttl < time
  }

  /** As long as a stored answer is within its time to live and not dropped, memory has it or a
      newer one. */
  ghost predicate FreshIsThere(p: Policy, s: State) {
    forall i | StillStored(s.log, i) ::
      s.clock <= s.log[i].at + p.ttl ==> s.created.Some? && s.created.value >= s.log[i].at
  }

  ghost predicate Suppressed(log: seq<Event>, p: Policy) {
    forall i, j | 0 <= i < j < |log| && log[i].Stored? && log[j].Begin? && Undisturbed(log, i, j) ::
      log[i].at + p.ttl < log[j].at
  }

  ghost predicate Ordered(log: seq<Event>) {
    forall i, j | 0 <= i < j < |log| && !log[i].Dropped? && !log[j].Dropped? :: log[i].at <= log[j].at
  }

  predicate Querying(pc: Pc) {
    pc.MissedAgain? || pc.Fetching?
  }

  ghost predicate QueriesAreDue(p: Policy, s: State) {
    forall t | t in s.pcs && Querying(s.pcs[t]) :: AllOld(s.log, p, s.clock)
  }

  ghost predicate Inv(p: Policy, s: State) {
    && Exclusive(s) && Clocked(s) && FreshIsThere(p, s) && QueriesAreDue(p, s)
    && Suppressed(s.log, p) && Ordered(s.log)
  }

  lemma KeepsExclusive(p: Policy, s: State, step: Step)
    requires Exclusive(s) && Enabled(s, step)
    ensures Exclusive(Apply(p, s, step))
  {
  }

  lemma KeepsClocked(p: Policy, s: State, step: Step)
    requires Exclusive(s) && Clocked(s) && Enabled(s, step)
    ensures Clocked(Apply(p, s, step))
  {
  }

  lemma StillStoredNext(log: seq<Event>, e: Event, i: int)
    ensures StillStored(log + [e], i) <==> (StillStored(log, i) && !e.Dropped?) || (i == |log| && e.Stored?)
  {
    if StillStored(log + [e], i) && i < |log| {
      forall k | i < k < |log| ensures !log[k].Dropped? {
        assert (log + [e])[k] == log[k];
      }
      assert (log + [e])[|log|] == e;
    }
  }

  lemma LogNext(log: seq<Event>, e: Event)
    ensures forall i :: StillStored(log + [e], i) <==> (StillStored(log, i) && !e.Dropped?) || (i == |log| && e.Stored?)
  {
    forall i ensures StillStored(log + [e], i) <==> (StillStored(log, i) && !e.Dropped?) || (i == |log| && e.Stored?) {
      StillStoredNext(log, e, i);
    }
  }

  /** The event that a step adds to the log, if any. */
  function EventOf(s: State, step: Step): Option<Event>
    requires Enabled(s, step)
  {
    match step
    case BeginFetch(_) => Some(Begin(s.clock))
    case Store(t) => Some(Event.Stored(PcOf(s, t).createdAt))
    case Drop => Some(Dropped)
    case _ => None
  }

  lemma StepLogs(p: Policy, s: State, step: Step)
    requires Enabled(s, step)
    ensures Apply(p, s, step).log == s.log + match EventOf(s, step) case None => [] case Some(e) => [e]
    ensures EventOf(s, step).Some? ==>
              forall i :: StillStored(Apply(p, s, step).log, i) <==>
                            (StillStored(s.log, i) && !step.Drop?) || (i == |s.log| && step.Store?)
  {
    if EventOf(s, step).Some? { LogNext(s.log, EventOf(s, step).value); }
  }

  lemma KeepsFresh(p: Policy, s: State, step: Step)
    requires p.staleTTL == 0
    requires Clocked(s) && FreshIsThere(p, s) && Enabled(s, step)
    ensures FreshIsThere(p, Apply(p, s, step))
  {
    StepLogs(p, s, step);
  }

  /** The second lookup is what a fetch rests on: it refuses only when every stored answer is
      past its time to live, and nobody else can store one before the fetch begins. */
  lemma KeepsDue(p: Policy, s: State, step: Step)
    requires p.staleTTL == 0 && Inv(p, s) && Enabled(s, step)
    ensures QueriesAreDue(p, Apply(p, s, step))
  {
    StepLogs(p, s, step);
  }

  lemma KeepsLog(p: Policy, s: State, step: Step)
    requires Inv(p, s) && Enabled(s, step)
    ensures var s' := Apply(p, s, step); Suppressed(s'.log, p) && Ordered(s'.log)
  {
    var s' := Apply(p, s, step);
    StepLogs(p, s, step);
    forall i, j | 0 <= i < j < |s'.log| && s'.log[i].Stored? && s'.log[j].Begin? && Undisturbed(s'.log, i, j)
      ensures s'.log[i].at + p.ttl < s'.log[j].at
    {
      if j < |s.log| {
        assert forall k | i < k < j :: s.log[k] == s'.log[k];
        assert Undisturbed(s.log, i, j);
      } else {
        assert forall k | i < k < j :: s.log[k] == s'.log[k];
        assert StillStored(s.log, i);
      }
    }
  }

  lemma {:induction false} RunKeepsInv(p: Policy, s: State, run: seq<Step>)
    requires p.staleTTL == 0 && Inv(p, s) && Possible(p, s, run)
    ensures Inv(p, Final(p, s, run))
    decreases |run|
  {
    if run != [] {
      KeepsExclusive(p, s, run[0]);
      KeepsClocked(p, s, run[0]);
      KeepsFresh(p, s, run[0]);
      KeepsDue(p, s, run[0]);
      KeepsLog(p, s, run[0]);
      RunKeepsInv(p, Apply(p, s, run[0]), run[1..]);
    }
  }

  // ---- Theorems ----

  /** After an answer is stored, and unless it is dropped, the next fetch begins only once the clock
      is past its creation time plus the time to live. */
  lemma FetchesAreSuppressed(p: Policy, run: seq<Step>, i: nat, j: nat)
    requires p.staleTTL == 0 && Possible(p, INITIAL, run)
    requires i < j < |Final(p, INITIAL, run).log|
    requires var log := Final(p, INITIAL, run).log; log[i].Stored? && log[j].Begin? && Undisturbed(log, i, j)
    ensures var log := Final(p, INITIAL, run).log; log[i].at + p.ttl < log[j].at
  {
    RunKeepsInv(p, INITIAL, run);
  }

  /** Two fetches with a stored answer between them that is not dropped begin more than a time to
      live apart. */
  lemma FetchesAreSpaced(p: Policy, run: seq<Step>, i: nat, k: nat, j: nat)
    requires p.staleTTL == 0 && Possible(p, INITIAL, run)
    requires i < k < j < |Final(p, INITIAL, run).log|
    requires var log := Final(p, INITIAL, run).log;
             log[i].Begin? && log[k].Stored? && log[j].Begin? && Undisturbed(log, k, j)
    ensures var log := Final(p, INITIAL, run).log; log[i].at + p.ttl < log[j].at
  {
    RunKeepsInv(p, INITIAL, run);
  }

  lemma {:induction false} RunKeepsExclusive(p: Policy, s: State, run: seq<Step>)
    requires Exclusive(s) && Possible(p, s, run)
    ensures Exclusive(Final(p, s, run))
    decreases |run|
  {
    if run != [] {
      KeepsExclusive(p, s, run[0]);
      RunKeepsExclusive(p, Apply(p, s, run[0]), run[1..]);
    }
  }

  /** However many callers there are, and whatever the policy, at most one is querying kdb+. */
  lemma OneFetchAtATime(p: Policy, run: seq<Step>, t: nat, u: nat)
    requires Possible(p, INITIAL, run)
    requires PcOf(Final(p, INITIAL, run), t).Fetching? && PcOf(Final(p, INITIAL, run), u).Fetching?
    ensures t == u
  {
    RunKeepsExclusive(p, INITIAL, run);
  }

  /** While a stored answer is within its time to live and not dropped, memory serves it and nobody is querying
      for another one. */
  lemma NobodyFetchesWhatIsFresh(p: Policy, run: seq<Step>, t: nat, i: nat)
    requires p.staleTTL == 0 && Possible(p, INITIAL, run)
    requires var s := Final(p, INITIAL, run); StillStored(s.log, i) && s.clock <= s.log[i].at + p.ttl
    ensures var s := Final(p, INITIAL, run); Served(s, p, s.clock) && !Querying(PcOf(s, t))
  {
    RunKeepsInv(p, INITIAL, run);
  }
}
