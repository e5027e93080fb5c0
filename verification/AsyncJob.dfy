/** What an asynchronous job does, independent of who watches it.

    A gateway and a scheduler are an arbitrary trace of events.  `Run` reads such a trace once
    and says which statuses the job went through and how it ended.  The drivers that stream a
    job and the drivers that wait for it are methods of modules `LegacyAsync` and `HelperAsync`;
    each is proved to render this run. */
module AsyncJob {
  import opened Wrappers

  /** A kdb+ object that may hold a result; `Null` is a nil one. */
  datatype Payload = Null | Value(id: nat)
  type Frame = nat
  datatype Parsed = Frames(frames: seq<Frame>) | ParseError(text: string)

  /** The answer of a gateway function, by what the extraction paths find in it. */
  datatype Reply =
    | NilReply
    | TextReply(text: string, whole: Payload)
    | Record(
        id: Option<string>,
        status: Option<string>,
        progress: Option<real>,
        message: Option<string>,
        error: Option<string>,
        payload: Option<Payload>,
        isDict: bool,
        whole: Payload)

  /** Who ended the job's context: the subscriber, or the query timeout. */
  datatype ContextEnd = BySubscriber | ByTimeout

  /** A call that fails because the context ended is a `CallCut`. */
  datatype CallOutcome = Answered(reply: Reply) | CallFailed(text: string) | CallCut(who: ContextEnd)

  /** One turn of a poll loop; `result` is what the result function would answer if called. */
  datatype Event = ContextEnded(who: ContextEnd) | Tick(poll: CallOutcome, result: CallOutcome)

  datatype JobStatus = JobStatus(
    id: string,
    status: string,
    raw: string,
    message: string,
    error: string,
    progress: real,
    payload: Payload)

  /** How a job ended.  `polled` is the status of the poll that reported a terminal state, and
      `completed` the status recorded with the result frames. */
  datatype Ending = Ending(
    polled: Option<JobStatus>,
    state: string,
    code: string,
    message: string,
    error: string,
    progress: real,
    completed: Option<JobStatus>,
    frames: seq<Frame>,
    byContext: bool)

  datatype Verdict = Goes(status: JobStatus) | Ends(ending: Ending)

  /** `seen`: the non-terminal statuses, in order, the answer to the submit first. */
  datatype JobRun = JobRun(jobID: string, submitted: bool, seen: seq<JobStatus>, ending: Option<Ending>)

  function Blank(id: string): JobStatus {
    JobStatus(id, "", "", "", "", 0.0, Null)
  }

  function Failing(code: string, error: string, progress: real, polled: Option<JobStatus>): Ending {
    Ending(polled, "error", code, "", error, progress, None, [], false)
  }

  function Cut(who: ContextEnd, text: ContextEnd -> string, polled: Option<JobStatus>): Ending {
    match who
    case BySubscriber => Ending(polled, "cancelled", "cancelled", "", text(who), 1.0, None, [], true)
    case ByTimeout => Ending(polled, "error", "timeout", "", text(who), 1.0, None, [], true)
  }

  function Completing(polled: Option<JobStatus>, recorded: JobStatus, frames: seq<Frame>): Ending {
    Ending(polled, "done", "", recorded.message, "", 1.0, Some(recorded), frames, false)
  }

  /** The run of a submitted job: `judge` reads one event. */
  function Follow<E>(judge: E -> Verdict, run: JobRun, events: seq<E>): JobRun
    decreases |events|
  {
    if events == [] then run
    else
      match judge(events[0])
      case Goes(status) => Follow(judge, run.(seen := run.seen + [status]), events[1..])
      case Ends(ending) => run.(ending := Some(ending))
  }

  /** The run of a job that answered its submit with `first`. */
  function Followed<E>(judge: E -> Verdict, jobID: string, first: JobStatus, events: seq<E>): JobRun {
    Follow(judge, JobRun(jobID, true, [first], None), events)
  }

  /** The cancel function, if there is one, is called when the context ends a submitted job. */
  function Cancels(cancelFn: string, run: JobRun): seq<string> {
    if run.submitted && run.ending.Some? && run.ending.value.byContext && cancelFn != "" && run.jobID != ""
    then [run.jobID] else []
  }

  method BestEffortCancel(cancelFn: string, jobID: string, e: Ending) returns (cancels: seq<string>)
    ensures cancels == if e.byContext && cancelFn != "" && jobID != "" then [jobID] else []
  {
    cancels := [];
    if e.byContext && cancelFn != "" && jobID != "" {
      cancels := [jobID];
    }
  }

  // ---- What a streaming subscriber receives ----

  datatype Emitted =
    | Control(state: string, id: string, message: string, error: string, progress: real, terminal: bool)
    | Data(frame: Frame, id: string)

  function StatusFrame(jobID: string, st: JobStatus): Emitted {
    Control(st.status, jobID, st.message, st.error, st.progress, false)
  }

  function StatusFrames(jobID: string, seen: seq<JobStatus>): seq<Emitted> {
    seq(|seen|, i requires 0 <= i < |seen| => StatusFrame(jobID, seen[i]))
  }

  function DataFrames(jobID: string, frames: seq<Frame>): seq<Emitted> {
    seq(|frames|, i requires 0 <= i < |frames| => Data(frames[i], jobID))
  }

  function EndFrames(jobID: string, e: Ending): seq<Emitted> {
    DataFrames(jobID, e.frames) + [Control(e.state, jobID, e.message, e.error, e.progress, true)]
  }

  function Streamed(run: JobRun): seq<Emitted> {
    StatusFrames(run.jobID, run.seen) +
    match run.ending
    case None => []
    case Some(e) => EndFrames(run.jobID, e)
  }

  /** Sends stop after the first one that fails. */
  function Attempted(plan: seq<Emitted>, ok: nat -> bool, from: nat): seq<Emitted>
    decreases |plan|
  {
    if plan == [] then []
    else if !ok(from) then [plan[0]]
    else [plan[0]] + Attempted(plan[1..], ok, from + 1)
  }

  predicate AllSent(plan: seq<Emitted>, ok: nat -> bool, from: nat) {
    forall i | from <= i < from + |plan| :: ok(i)
  }

  lemma {:induction false} AttemptedAll(plan: seq<Emitted>, ok: nat -> bool, from: nat)
    requires AllSent(plan, ok, from)
    ensures Attempted(plan, ok, from) == plan
    decreases |plan|
  {
    if plan != [] {
      AttemptedAll(plan[1..], ok, from + 1);
      assert plan == [plan[0]] + plan[1..];
    }
  }

  lemma {:induction false} AttemptedSplit(a: seq<Emitted>, b: seq<Emitted>, ok: nat -> bool, from: nat)
    ensures AllSent(a, ok, from) ==> Attempted(a + b, ok, from) == a + Attempted(b, ok, from + |a|)
    ensures !AllSent(a, ok, from) ==> Attempted(a + b, ok, from) == Attempted(a, ok, from)
    decreases |a|
  {
    if a == [] {
      assert a + b == b;
    } else {
      assert (a + b)[1..] == a[1..] + b;
      AttemptedSplit(a[1..], b, ok, from + 1);
      assert AllSent(a, ok, from) <==> ok(from) && AllSent(a[1..], ok, from + 1);
      assert a == [a[0]] + a[1..];
    }
  }

  // ---- What a waiting caller receives ----

  datatype WaitEvent = WaitEvent(
    state: string,
    raw: string,
    jobID: string,
    message: string,
    error: string,
    progress: real,
    final: bool)

  datatype WaitResult = WaitResult(
    ok: bool,
    code: string,
    error: string,
    jobID: string,
    status: string,
    frames: seq<Frame>,
    statuses: seq<WaitEvent>)

  const WAIT_START := WaitResult(false, "", "", "", "queued", [], [])

  function EventOf(requestID: string, state: string, st: JobStatus, final: bool): WaitEvent {
    WaitEvent(state, st.raw, if st.id == "" then requestID else st.id, st.message, st.error, st.progress, final)
  }

  function AddStatus(w: WaitResult, requestID: string, state: string, st: JobStatus, final: bool): WaitResult {
    var event := EventOf(requestID, state, st, final);
    w.(jobID := event.jobID, status := state, statuses := w.statuses + [event])
  }

  function Fail(w: WaitResult, requestID: string, code: string, state: string, jobID: string,
                message: string, progress: real): WaitResult {
    AddStatus(w.(ok := false, code := code, error := message), requestID, state,
              JobStatus(jobID, state, "", "", message, progress, Null), true)
  }

  function Complete(w: WaitResult, requestID: string, frames: seq<Frame>, st: JobStatus): WaitResult {
    AddStatus(w.(ok := true, code := "", error := "", frames := frames), requestID, "done", st, true)
  }

  function AddSeen(w: WaitResult, requestID: string, seen: seq<JobStatus>): WaitResult {
    if seen == [] then w
    else
      var last := seen[|seen| - 1];
      AddStatus(AddSeen(w, requestID, seen[..|seen| - 1]), requestID, last.status, last, false)
  }

  function AddEnding(w: WaitResult, requestID: string, jobID: string, e: Ending): WaitResult {
    var w' := match e.polled case None => w case Some(st) => AddStatus(w, requestID, st.status, st, false);
    match e.completed
    case Some(st) => Complete(w', requestID, e.frames, st)
    case None => Fail(w', requestID, e.code, e.state, jobID, e.error, e.progress)
  }

  function Awaited(requestID: string, run: JobRun): WaitResult {
    var w := AddSeen(WAIT_START, requestID, run.seen);
    match run.ending
    case None => w
    case Some(e) => AddEnding(w, requestID, run.jobID, e)
  }

  // ---- Following a run event by event ----

  lemma {:induction false} FollowKeepsSeen<E>(judge: E -> Verdict, run: JobRun, events: seq<E>)
    ensures var f := Follow(judge, run, events);
            && run.seen <= f.seen && f.jobID == run.jobID && f.submitted == run.submitted
    decreases |events|
  {
    if events != [] && judge(events[0]).Goes? {
      FollowKeepsSeen(judge, run.(seen := run.seen + [judge(events[0]).status]), events[1..]);
    }
  }

  lemma FollowOne<E>(judge: E -> Verdict, run: JobRun, events: seq<E>, i: nat)
    requires i < |events|
    ensures Follow(judge, run, events[i..]) ==
            match judge(events[i])
            case Goes(status) => Follow(judge, run.(seen := run.seen + [status]), events[i + 1..])
            case Ends(ending) => run.(ending := Some(ending))
  {
    assert events[i..][0] == events[i] && events[i..][1..] == events[i + 1..];
  }

  /** The statuses `seen` were sent and the next one, `st`, was not: the stream ends there. */
  lemma StopsAtLostStatus(run: JobRun, seen: seq<JobStatus>, st: JobStatus, ok: nat -> bool)
    requires seen + [st] <= run.seen
    requires AllSent(StatusFrames(run.jobID, seen), ok, 0) && !ok(|seen|)
    ensures Attempted(Streamed(run), ok, 0) == StatusFrames(run.jobID, seen + [st])
    ensures !AllSent(Streamed(run), ok, 0) && !AllSent(StatusFrames(run.jobID, run.seen), ok, 0)
  {
    var prefix := StatusFrames(run.jobID, seen);
    var rest := Streamed(run)[|prefix|..];
    assert |seen| < |run.seen| && |StatusFrames(run.jobID, run.seen)| == |run.seen|;
    assert Streamed(run) == prefix + rest;
    AttemptedSplit(prefix, rest, ok, 0);
    StatusFramesGrow(run.jobID, seen, st);
    assert rest[0] == StatusFrames(run.jobID, seen + [st])[|seen|];
    assert Attempted(rest, ok, |prefix|) == [rest[0]];
    assert |prefix| < |Streamed(run)|;
  }

  /** All statuses were sent; the run ends with `e`, or is not over. */
  lemma StreamsEnding(run: JobRun, ok: nat -> bool)
    requires AllSent(StatusFrames(run.jobID, run.seen), ok, 0)
    ensures run.ending.None? ==> Attempted(Streamed(run), ok, 0) == StatusFrames(run.jobID, run.seen)
    ensures run.ending.Some? ==>
              var frames := EndFrames(run.jobID, run.ending.value);
              && Attempted(Streamed(run), ok, 0) ==
                 StatusFrames(run.jobID, run.seen) + Attempted(frames, ok, |run.seen|)
              && (AllSent(Streamed(run), ok, 0) <==> AllSent(frames, ok, |run.seen|))
  {
    var prefix := StatusFrames(run.jobID, run.seen);
    if run.ending.None? {
      assert Streamed(run) == prefix;
      AttemptedAll(prefix, ok, 0);
    } else {
      AttemptedSplit(prefix, EndFrames(run.jobID, run.ending.value), ok, 0);
    }
  }

  lemma OneMoreStatusSent(jobID: string, seen: seq<JobStatus>, st: JobStatus, ok: nat -> bool)
    requires AllSent(StatusFrames(jobID, seen), ok, 0) && ok(|seen|)
    ensures AllSent(StatusFrames(jobID, seen + [st]), ok, 0)
  {
  }

  lemma StatusFramesGrow(jobID: string, seen: seq<JobStatus>, st: JobStatus)
    ensures StatusFrames(jobID, seen + [st]) ==
            StatusFrames(jobID, seen) + [StatusFrame(jobID, st)]
  {
  }

  /** What a streaming driver has done with `run`: all of it if every send succeeds, and
      otherwise everything up to the first lost frame.  A lost status, and a lost frame of a result,
      is the driver's error; a job is cancelled only after all statuses were sent. */
  ghost predicate StreamedRun(cancelFn: string, run: JobRun, sender: StreamSender,
                              returned: bool, failed: bool, cancels: seq<string>)
    reads sender
  {
    && sender.sent == Attempted(Streamed(run), sender.ok, 0)
    && if AllSent(StatusFrames(run.jobID, run.seen), sender.ok, 0) then
         && (returned <==> run.ending.Some?) && cancels == Cancels(cancelFn, run)
         && (failed <==> run.ending.Some? && run.ending.value.completed.Some? && !AllSent(Streamed(run), sender.ok, 0))
       else returned && failed && cancels == []
  }

  /** The sender of a stream; `ok(n)` says whether its send number `n` succeeds.  `sent` lists
      every frame whose send was attempted. */
  class StreamSender {
    const ok: nat -> bool
    var sent: seq<Emitted>

    constructor (ok: nat -> bool)
      ensures this.ok == ok && sent == []
    {
      this.ok := ok;
      sent := [];
    }

    method Send(frame: Emitted) returns (delivered: bool)
      modifies this
      ensures sent == old(sent) + [frame]
      ensures delivered == ok(|old(sent)|)
    {
      delivered := ok(|sent|);
      sent := sent + [frame];
    }

    /** Sends the frames of an ending.  Only the errors of data frames and of the final "done"
        are reported; a lost error or cancellation notice is ignored. */
    method SendEnding(jobID: string, e: Ending) returns (failed: bool)
      modifies this
      ensures sent == old(sent) + Attempted(EndFrames(jobID, e), ok, |old(sent)|)
      ensures failed <==> e.completed.Some? && !AllSent(EndFrames(jobID, e), ok, |old(sent)|)
    {
      ghost var plan := EndFrames(jobID, e);
      ghost var start := |sent|;
      var i := 0;
      while i < |e.frames|
        invariant 0 <= i <= |e.frames|
        invariant AllSent(plan[..i], ok, start) && sent == old(sent) + plan[..i]
      {
        var delivered := Send(Data(e.frames[i], jobID));
        assert plan[..i + 1] == plan[..i] + [Data(e.frames[i], jobID)];
        if !delivered {
          assert plan == plan[..i] + plan[i..];
          AttemptedSplit(plan[..i], plan[i..], ok, start);
          assert !ok(start + i);
          return e.completed.Some?;
        }
        i := i + 1;
      }
      assert plan == plan[..i] + plan[i..];
      AttemptedSplit(plan[..i], plan[i..], ok, start);
      var delivered := Send(Control(e.state, jobID, e.message, e.error, e.progress, true));
      failed := e.completed.Some? && !delivered;
    }

    /** The poll loop of a streaming driver, after the job was submitted. */
    method FollowJob<E>(judge: E -> Verdict, jobID: string, first: JobStatus, events: seq<E>, cancelFn: string)
      returns (returned: bool, failed: bool, cancels: seq<string>, ending: Option<Ending>)
      requires sent == []
      modifies this
      ensures StreamedRun(cancelFn, Followed(judge, jobID, first, events), this, returned, failed, cancels)
      ensures var run := Followed(judge, jobID, first, events);
              ending == if AllSent(StatusFrames(jobID, run.seen), ok, 0) then run.ending else None
    {
      ghost var run := Followed(judge, jobID, first, events);
      ghost var seen := [first];
      FollowKeepsSeen(judge, JobRun(jobID, true, seen, None), events);
      var delivered := Send(StatusFrame(jobID, first));
      if !delivered {
        StopsAtLostStatus(run, [], first, ok);
        return true, true, [], None;
      }
      assert events[0..] == events;
      var i := 0;
      while i < |events|
        invariant 0 <= i <= |events|
        invariant run == Follow(judge, JobRun(jobID, true, seen, None), events[i..])
        invariant sent == StatusFrames(jobID, seen) && AllSent(StatusFrames(jobID, seen), ok, 0)
      {
        FollowOne(judge, JobRun(jobID, true, seen, None), events, i);
        match judge(events[i]) {
          case Ends(last) =>
            failed, cancels := EndJob(run, jobID, last, cancelFn);
            return true, failed, cancels, Some(last);
          case Goes(st) =>
            FollowKeepsSeen(judge, JobRun(jobID, true, seen + [st], None), events[i + 1..]);
            StatusFramesGrow(jobID, seen, st);
            delivered := Send(StatusFrame(jobID, st));
            if !delivered {
              StopsAtLostStatus(run, seen, st, ok);
              return true, true, [], None;
            }
            OneMoreStatusSent(jobID, seen, st, ok);
            seen := seen + [st];
        }
        i := i + 1;
      }
      StreamsEnding(run, ok);
      return false, false, [], None;
    }

    /** A job that its context ended is cancelled before the subscriber is told. */
    method EndJob(ghost run: JobRun, jobID: string, e: Ending, cancelFn: string)
      returns (failed: bool, cancels: seq<string>)
      requires run.submitted && run.jobID == jobID && run.ending == Some(e)
      requires sent == StatusFrames(jobID, run.seen) && AllSent(sent, ok, 0)
      modifies this
      ensures StreamedRun(cancelFn, run, this, true, failed, cancels)
    {
      StreamsEnding(run, ok);
      cancels := BestEffortCancel(cancelFn, jobID, e);
      failed := SendEnding(jobID, e);
    }
  }

  lemma AddSeenOne(requestID: string, seen: seq<JobStatus>, st: JobStatus)
    ensures AddSeen(WAIT_START, requestID, seen + [st]) ==
            AddStatus(AddSeen(WAIT_START, requestID, seen), requestID, st.status, st, false)
  {
    assert (seen + [st])[..|seen|] == seen;
  }

  /** The response object of a run-and-wait call. */
  class WaitResponse {
    const requestID: string
    var ok: bool
    var code: string
    var error: string
    var jobID: string
    var status: string
    var frames: seq<Frame>
    var statuses: seq<WaitEvent>

    ghost function View(): WaitResult
      reads this
    {
      WaitResult(ok, code, error, jobID, status, frames, statuses)
    }

    constructor (requestID: string)
      ensures this.requestID == requestID && View() == WAIT_START
    {
      this.requestID := requestID;
      ok, code, error, jobID, status, frames, statuses := false, "", "", "", "queued", [], [];
    }

    method Record(state: string, st: JobStatus, final: bool)
      modifies this
      ensures View() == AddStatus(old(View()), requestID, state, st, final)
    {
      jobID := if st.id == "" then requestID else st.id;
      status := state;
      statuses := statuses + [WaitEvent(state, st.raw, jobID, st.message, st.error, st.progress, final)];
    }

    method Reject(code: string, state: string, jobID: string, message: string, progress: real)
      modifies this
      ensures View() == Fail(old(View()), requestID, code, state, jobID, message, progress)
    {
      this.ok := false;
      this.code := code;
      this.error := message;
      Record(state, JobStatus(jobID, state, "", "", message, progress, Null), true);
    }

    method Finish(frames: seq<Frame>, st: JobStatus)
      modifies this
      ensures View() == Complete(old(View()), requestID, frames, st)
    {
      this.ok := true;
      this.code := "";
      this.error := "";
      this.frames := frames;
      Record("done", st, true);
    }

    /** A poll that reports a terminal state is recorded as a status before it ends the call. */
    method End(jobID: string, e: Ending)
      modifies this
      ensures View() == AddEnding(old(View()), requestID, jobID, e)
    {
      if e.polled.Some? {
        Record(e.polled.value.status, e.polled.value, false);
      }
      if e.completed.Some? {
        Finish(e.frames, e.completed.value);
      } else {
        Reject(e.code, e.state, jobID, e.error, e.progress);
      }
    }

    /** The poll loop of a run-and-wait driver, after the job was submitted. */
    method FollowJob<E>(judge: E -> Verdict, jobID: string, first: JobStatus, events: seq<E>, cancelFn: string)
      returns (returned: bool, cancels: seq<string>)
      requires View() == WAIT_START
      modifies this
      ensures var run := Followed(judge, jobID, first, events);
              && View() == Awaited(requestID, run)
              && (returned <==> run.ending.Some?) && cancels == Cancels(cancelFn, run)
    {
      ghost var run := Followed(judge, jobID, first, events);
      ghost var seen := [first];
      Record(first.status, first, false);
      AddSeenOne(requestID, [], first);
      assert events[0..] == events;
      var i := 0;
      while i < |events|
        invariant 0 <= i <= |events|
        invariant run == Follow(judge, JobRun(jobID, true, seen, None), events[i..])
        invariant View() == AddSeen(WAIT_START, requestID, seen)
      {
        FollowOne(judge, JobRun(jobID, true, seen, None), events, i);
        match judge(events[i]) {
          case Ends(ending) =>
            cancels := BestEffortCancel(cancelFn, jobID, ending);
            End(jobID, ending);
            return true, cancels;
          case Goes(st) =>
            Record(st.status, st, false);
            AddSeenOne(requestID, seen, st);
            seen := seen + [st];
        }
        i := i + 1;
      }
      return false, [];
    }
  }
}
