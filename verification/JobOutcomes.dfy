/** What the two watchers of a job are shown of one of its statuses, and of its end. */
module JobOutcomes {
  import opened Wrappers
  import opened AsyncJob
  import opened AsyncTheorems

  /** How a job ends, as somebody who watches it would put it. */
  datatype End = End(state: string, code: string, message: string, error: string, progress: real, frames: seq<Frame>)

  function Broken(code: string, error: string, progress: real): End {
    End("error", code, "", error, progress, [])
  }

  /** The subscriber went away, or the time was over. */
  function Interrupted(who: ContextEnd, text: string): End {
    match who
    case BySubscriber => End("cancelled", "cancelled", "", text, 1.0, [])
    case ByTimeout => End("error", "timeout", "", text, 1.0, [])
  }

  function Finished(message: string, frames: seq<Frame>): End {
    End("done", "", message, "", 1.0, frames)
  }

  /** The streamed frames end so. */
  predicate StreamEnds(sent: seq<Emitted>, id: string, end: End) {
    && Terminals(sent) == [Control(end.state, id, end.message, end.error, end.progress, true)]
    && ResultFrames(sent) == end.frames
  }

  /** A job without an id goes by that of its request. */
  function Called(id: string, requestID: string): string {
    if id == "" then requestID else id
  }

  /** The response of the waiting caller ends so.  A "done" has no error and no code. */
  predicate WaitEnds(w: WaitResult, called: string, end: End) {
    && |Finals(w.statuses)| == 1 && w.statuses[|w.statuses| - 1] == Finals(w.statuses)[0]
    && Finals(w.statuses)[0].state == w.status == end.state
    && Finals(w.statuses)[0].progress == end.progress
    && w.code == end.code && w.frames == end.frames && (w.ok <==> end.state == "done")
    && w.jobID == Finals(w.statuses)[0].jobID
    && (end.state != "done" ==>
          w.error == Finals(w.statuses)[0].error == end.error && w.jobID == called)
  }

  function EndOf(e: Ending): End {
    End(e.state, if e.completed.Some? then "" else e.code, e.message, e.error, e.progress, e.frames)
  }

  lemma EndIsShown(requestID: string, run: JobRun)
    requires run.ending.Some? && Proper(run.ending.value)
    ensures StreamEnds(Streamed(run), run.jobID, EndOf(run.ending.value))
    ensures WaitEnds(Awaited(requestID, run), Called(run.jobID, requestID), EndOf(run.ending.value))
  {
    StreamedObservations(run);
    AwaitedObservations(requestID, run);
    assert "error"[0] != "done"[0] && "cancelled"[0] != "done"[0];
  }

  // ---- Statuses ----

  /** One status as the two watchers see it. */
  predicate StatusShown(requestID: string, run: JobRun, i: nat, id: string, state: string, raw: string,
                        message: string, error: string, progress: real)
  {
    var sent, w := Streamed(run), Awaited(requestID, run);
    && i < |sent| && sent[i] == Control(state, run.jobID, message, error, progress, false)
    && i < |w.statuses| && w.statuses[i].state == state && w.statuses[i].raw == raw
    && w.statuses[i].message == message && w.statuses[i].error == error && w.statuses[i].progress == progress
    && w.statuses[i].jobID == Called(id, requestID) && !w.statuses[i].final
  }

  lemma {:induction false} SeenIsRecorded(requestID: string, seen: seq<JobStatus>, i: nat)
    requires i < |seen|
    ensures var w := AddSeen(WAIT_START, requestID, seen);
            |w.statuses| == |seen| && w.statuses[i] == EventOf(requestID, seen[i].status, seen[i], false)
    decreases |seen|
  {
    var n := |seen| - 1;
    if n > 0 {
      SeenIsRecorded(requestID, seen[..n], if i < n then i else 0);
    }
  }

  lemma StatusIsShown(requestID: string, run: JobRun, i: nat)
    requires i < |run.seen|
    ensures var st := run.seen[i];
            StatusShown(requestID, run, i, st.id, st.status, st.raw, st.message, st.error, st.progress)
  {
    SeenIsRecorded(requestID, run.seen, i);
  }

  // ---- Reading events up to the one that ends the job ----

  lemma {:induction false} ReadsUpTo<E>(judge: E -> Verdict, events: seq<E>, n: nat)
    requires n <= |events| && (forall i | 0 <= i < n :: judge(events[i]).Goes?)
             && (n < |events| ==> judge(events[n]).Ends?)
    ensures ReadBeforeEnd(judge, events) == n
    decreases n
  {
    if n > 0 {
      ReadsUpTo(judge, events[1..], n - 1);
    }
  }

  /** The run of a job that goes on for `n` events. */
  lemma RunUpTo<E>(judge: E -> Verdict, jobID: string, first: JobStatus, events: seq<E>, n: nat)
    requires n <= |events| && (forall i | 0 <= i < n :: judge(events[i]).Goes?)
             && (n < |events| ==> judge(events[n]).Ends?)
    ensures var run := Followed(judge, jobID, first, events);
            && run.jobID == jobID && run.submitted && |run.seen| == n + 1 && run.seen[0] == first
            && (forall i | 0 <= i < n :: run.seen[i + 1] == judge(events[i]).status)
            && run.ending == (if n < |events| then Some(judge(events[n]).ending) else None)
  {
    var start := JobRun(jobID, true, [first], None);
    ReadsUpTo(judge, events, n);
    FollowClosedForm(judge, start, events);
    FollowKeepsSeen(judge, start, events);
    forall i | 0 <= i < n ensures Follow(judge, start, events).seen[i + 1] == judge(events[i]).status {
      assert judge(events[i]) == Goes(Follow(judge, start, events).seen[|start.seen| + i]);
    }
  }

  // ---- What a gateway's answer says ----

  function StatusText(r: Reply): string {
    match r
    case NilReply => ""
    case TextReply(text, _) => text
    case Record(_, status, _, _, _, _, _, _) => if status.Some? then status.value else ""
  }

  function MessageText(r: Reply): string {
    if r.Record? && r.message.Some? then r.message.value else ""
  }

  function ErrorText(r: Reply): string {
    if r.Record? && r.error.Some? then r.error.value else ""
  }

  function ProgressIn(r: Reply): real {
    if r.Record? && r.progress.Some? then r.progress.value else 0.0
  }

  function PayloadIn(r: Reply): Payload {
    if r.Record? && r.payload.Some? then r.payload.value else Null
  }
}
