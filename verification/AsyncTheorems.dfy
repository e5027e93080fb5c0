/** What a subscriber and a waiting caller can observe of the same job. */
module AsyncTheorems {
  import opened Wrappers
  import opened AsyncJob
  import L = LegacyAsync
  import H = HelperAsync
  import P = PluginAsync

  // ---- Observations ----

  function ProgressStates(sent: seq<Emitted>): seq<string> {
    if sent == [] then []
    else (if sent[0].Control? && !sent[0].terminal then [sent[0].state] else []) + ProgressStates(sent[1..])
  }

  function ResultFrames(sent: seq<Emitted>): seq<Frame> {
    if sent == [] then []
    else (if sent[0].Data? then [sent[0].frame] else []) + ResultFrames(sent[1..])
  }

  function Terminals(sent: seq<Emitted>): seq<Emitted> {
    if sent == [] then []
    else (if sent[0].Control? && sent[0].terminal then [sent[0]] else []) + Terminals(sent[1..])
  }

  function NonFinalStates(events: seq<WaitEvent>): seq<string> {
    if events == [] then []
    else (if events[0].final then [] else [events[0].state]) + NonFinalStates(events[1..])
  }

  function Finals(events: seq<WaitEvent>): seq<WaitEvent> {
    if events == [] then []
    else (if events[0].final then [events[0]] else []) + Finals(events[1..])
  }

  function States(seen: seq<JobStatus>): seq<string> {
    seq(|seen|, i requires 0 <= i < |seen| => seen[i].status)
  }

  lemma {:induction false} ProgressConcat(a: seq<Emitted>, b: seq<Emitted>)
    ensures ProgressStates(a + b) == ProgressStates(a) + ProgressStates(b)
    decreases |a|
  {
    if a == [] {
      assert a + b == b;
    } else {
      assert (a + b)[1..] == a[1..] + b;
      ProgressConcat(a[1..], b);
    }
  }

  lemma {:induction false} FramesConcat(a: seq<Emitted>, b: seq<Emitted>)
    ensures ResultFrames(a + b) == ResultFrames(a) + ResultFrames(b)
    decreases |a|
  {
    if a == [] {
      assert a + b == b;
    } else {
      assert (a + b)[1..] == a[1..] + b;
      FramesConcat(a[1..], b);
    }
  }

  lemma {:induction false} TerminalsConcat(a: seq<Emitted>, b: seq<Emitted>)
    ensures Terminals(a + b) == Terminals(a) + Terminals(b)
    decreases |a|
  {
    if a == [] {
      assert a + b == b;
    } else {
      assert (a + b)[1..] == a[1..] + b;
      TerminalsConcat(a[1..], b);
    }
  }

  lemma ObserveConcat(a: seq<Emitted>, b: seq<Emitted>)
    ensures ProgressStates(a + b) == ProgressStates(a) + ProgressStates(b)
    ensures ResultFrames(a + b) == ResultFrames(a) + ResultFrames(b)
    ensures Terminals(a + b) == Terminals(a) + Terminals(b)
  {
    ProgressConcat(a, b);
    FramesConcat(a, b);
    TerminalsConcat(a, b);
  }

  lemma {:induction false} ObserveEventsConcat(a: seq<WaitEvent>, b: seq<WaitEvent>)
    ensures NonFinalStates(a + b) == NonFinalStates(a) + NonFinalStates(b)
    ensures Finals(a + b) == Finals(a) + Finals(b)
    decreases |a|
  {
    if a == [] {
      assert a + b == b;
    } else {
      assert (a + b)[1..] == a[1..] + b;
      ObserveEventsConcat(a[1..], b);
    }
  }

  lemma {:induction false} ObserveStatuses(jobID: string, seen: seq<JobStatus>)
    ensures ProgressStates(StatusFrames(jobID, seen)) == States(seen)
    ensures ResultFrames(StatusFrames(jobID, seen)) == []
    ensures Terminals(StatusFrames(jobID, seen)) == []
    decreases |seen|
  {
    if seen != [] {
      assert StatusFrames(jobID, seen)[1..] == StatusFrames(jobID, seen[1..]);
      ObserveStatuses(jobID, seen[1..]);
      assert States(seen) == [seen[0].status] + States(seen[1..]);
    }
  }

  lemma {:induction false} ObserveData(jobID: string, frames: seq<Frame>)
    ensures ProgressStates(DataFrames(jobID, frames)) == []
    ensures ResultFrames(DataFrames(jobID, frames)) == frames
    ensures Terminals(DataFrames(jobID, frames)) == []
    decreases |frames|
  {
    if frames != [] {
      assert DataFrames(jobID, frames)[1..] == DataFrames(jobID, frames[1..]);
      ObserveData(jobID, frames[1..]);
      assert frames == [frames[0]] + frames[1..];
    }
  }

  lemma {:induction false} ObserveSeen(requestID: string, seen: seq<JobStatus>)
    ensures var w := AddSeen(WAIT_START, requestID, seen);
            && NonFinalStates(w.statuses) == States(seen) && Finals(w.statuses) == []
            && w.frames == [] && !w.ok && w.code == ""
            && |w.statuses| == |seen|
    decreases |seen|
  {
    if seen != [] {
      var init, last := seen[..|seen| - 1], seen[|seen| - 1];
      ObserveSeen(requestID, init);
      var w := AddSeen(WAIT_START, requestID, init);
      ObserveEventsConcat(w.statuses, [EventOf(requestID, last.status, last, false)]);
      assert States(seen) == States(init) + [last.status];
    }
  }

  // ---- Any run, streamed and awaited ----

  /** The endings the drivers can produce. */
  ghost predicate Proper(e: Ending) {
    && (e.completed.Some? ==>
          e.state == "done" && e.progress == e.completed.value.progress && !e.byContext)
    && (e.completed.None? ==> e.frames == [] && (e.state == "error" || e.state == "cancelled"))
  }

  lemma ObserveTerminal(last: Emitted)
    requires last.Control? && last.terminal
    ensures ProgressStates([last]) == [] && ResultFrames([last]) == [] && Terminals([last]) == [last]
  {
    assert [last][1..] == [];
  }

  lemma ObserveEnd(jobID: string, e: Ending)
    ensures ProgressStates(EndFrames(jobID, e)) == []
    ensures ResultFrames(EndFrames(jobID, e)) == e.frames
    ensures Terminals(EndFrames(jobID, e)) == [Control(e.state, jobID, e.message, e.error, e.progress, true)]
  {
    var last := Control(e.state, jobID, e.message, e.error, e.progress, true);
    ObserveData(jobID, e.frames);
    ObserveTerminal(last);
    ObserveConcat(DataFrames(jobID, e.frames), [last]);
  }

  lemma StreamedObservations(run: JobRun)
    ensures var sent := Streamed(run);
            && ProgressStates(sent) == States(run.seen)
            && match run.ending
               case None => ResultFrames(sent) == [] && Terminals(sent) == []
               case Some(e) =>
                 && ResultFrames(sent) == e.frames
                 && Terminals(sent) == [Control(e.state, run.jobID, e.message, e.error, e.progress, true)]
  {
    ObserveStatuses(run.jobID, run.seen);
    if run.ending.Some? {
      ObserveEnd(run.jobID, run.ending.value);
      ObserveConcat(StatusFrames(run.jobID, run.seen), EndFrames(run.jobID, run.ending.value));
    } else {
      assert Streamed(run) == StatusFrames(run.jobID, run.seen);
    }
  }

  function Extra(polled: Option<JobStatus>): seq<string> {
    match polled case None => [] case Some(st) => [st.status]
  }

  /** The events that an ending adds. */
  lemma EndingEvents(requestID: string, jobID: string, w: WaitResult, e: Ending)
    requires Proper(e) && Finals(w.statuses) == []
    ensures var f := AddEnding(w, requestID, jobID, e);
            && f.statuses != [] && Finals(f.statuses) == [f.statuses[|f.statuses| - 1]]
            && NonFinalStates(f.statuses) == NonFinalStates(w.statuses) + Extra(e.polled)
  {
    var polled := if e.polled.Some? then [EventOf(requestID, e.polled.value.status, e.polled.value, false)] else [];
    ObserveEventsConcat(w.statuses, polled);
    var f := AddEnding(w, requestID, jobID, e);
    var final := [f.statuses[|f.statuses| - 1]];
    assert f.statuses == (w.statuses + polled) + final;
    ObserveEventsConcat(w.statuses + polled, final);
    assert NonFinalStates(final) == [] && Finals(final) == final;
    assert NonFinalStates(polled) == Extra(e.polled) && Finals(polled) == [];
  }

  lemma AwaitedObservations(requestID: string, run: JobRun)
    requires run.ending.Some? ==> Proper(run.ending.value)
    ensures var w := Awaited(requestID, run);
            match run.ending
            case None => NonFinalStates(w.statuses) == States(run.seen) && Finals(w.statuses) == [] && w.frames == []
            case Some(e) =>
              && NonFinalStates(w.statuses) == States(run.seen) + Extra(e.polled)
              && |Finals(w.statuses)| == 1 && w.statuses[|w.statuses| - 1] == Finals(w.statuses)[0]
              && w.status == Finals(w.statuses)[0].state == e.state
              && Finals(w.statuses)[0].progress ==
                 (if e.completed.Some? then e.completed.value.progress else e.progress)
              && (e.completed.None? ==> w.error == Finals(w.statuses)[0].error == e.error)
              && w.frames == e.frames && w.ok == e.completed.Some? && w.code == (if w.ok then "" else e.code)
  {
    ObserveSeen(requestID, run.seen);
    if run.ending.Some? {
      EndingEvents(requestID, run.jobID, AddSeen(WAIT_START, requestID, run.seen), run.ending.value);
    }
  }

  /** What the terminal control and the final event have in common. */
  predicate SameOutcome(last: Emitted, final: WaitEvent, w: WaitResult) {
    && last.Control?
    && last.state == final.state == w.status
    && last.progress == final.progress
    && (w.ok <==> last.state == "done")
    && (!w.ok ==> last.error == final.error == w.error)
  }

  ghost predicate SameEnd(sent: seq<Emitted>, w: WaitResult) {
    var last, final := Terminals(sent), Finals(w.statuses);
    && |last| == |final| <= 1
    && ResultFrames(sent) == w.frames
    && (|last| == 1 ==> SameOutcome(last[0], final[0], w))
  }

  /** Runs that end alike are seen to end alike, whatever they reported before. */
  lemma SameEndingsAgree(requestID: string, streamed: JobRun, awaited: JobRun)
    requires streamed.ending == awaited.ending && streamed.jobID == awaited.jobID
    requires streamed.ending.Some? ==> Proper(streamed.ending.value)
    ensures SameEnd(Streamed(streamed), Awaited(requestID, awaited))
    ensures |Finals(Awaited(requestID, awaited).statuses)| == 1 <==> awaited.ending.Some?
  {
    StreamedObservations(streamed);
    AwaitedObservations(requestID, awaited);
    assert "error"[0] != "done"[0] && "cancelled"[0] != "done"[0];
  }

  lemma ProperRunsAgree(requestID: string, run: JobRun)
    requires run.ending.Some? ==> Proper(run.ending.value)
    ensures SameEnd(Streamed(run), Awaited(requestID, run))
    ensures NonFinalStates(Awaited(requestID, run).statuses) ==
            ProgressStates(Streamed(run)) + if run.ending.Some? then Extra(run.ending.value.polled) else []
  {
    SameEndingsAgree(requestID, run, run);
    StreamedObservations(run);
    AwaitedObservations(requestID, run);
  }

  // ---- The legacy gateway ----

  /** How many events the driver reads without ending. */
  function ReadBeforeEnd<E>(judge: E -> Verdict, events: seq<E>): nat
    ensures ReadBeforeEnd(judge, events) <= |events|
    decreases |events|
  {
    if events == [] || judge(events[0]).Ends? then 0 else 1 + ReadBeforeEnd(judge, events[1..])
  }

  /** The run in closed form: one status per event read, and the verdict of the next event. */
  lemma {:induction false} FollowClosedForm<E>(judge: E -> Verdict, run: JobRun, events: seq<E>)
    requires run.ending.None?
    ensures var n := ReadBeforeEnd(judge, events);
            var f := Follow(judge, run, events);
            && |f.seen| == |run.seen| + n && run.seen <= f.seen
            && (forall i | 0 <= i < n :: judge(events[i]) == Goes(f.seen[|run.seen| + i]))
            && (n < |events| ==> judge(events[n]).Ends? && f.ending == Some(judge(events[n]).ending))
            && (n == |events| ==> f.ending == None)
    decreases |events|
  {
    if events != [] && judge(events[0]).Goes? {
      var run' := run.(seen := run.seen + [judge(events[0]).status]);
      FollowClosedForm(judge, run', events[1..]);
      var n := ReadBeforeEnd(judge, events[1..]);
      var f := Follow(judge, run', events[1..]);
      forall i | 0 <= i < 1 + n ensures judge(events[i]) == Goes(f.seen[|run.seen| + i]) {
        if i > 0 {
          assert judge(events[1..][i - 1]) == Goes(f.seen[|run'.seen| + (i - 1)]);
        }
      }
    }
  }

  lemma LegacyStatusProper(cfg: L.Config, st: JobStatus, result: CallOutcome)
    requires L.JudgeStatus(cfg, st, result).Ends?
    ensures Proper(L.JudgeStatus(cfg, st, result).ending)
  {
  }

  lemma LegacyVerdictsProper(cfg: L.Config, jobID: string, e: Event)
    requires L.Judge(cfg, jobID, e).Ends?
    ensures Proper(L.Judge(cfg, jobID, e).ending)
  {
    if e.Tick? && e.poll.Answered? && L.ParseStatus(e.poll.reply, jobID).Success? {
      LegacyStatusProper(cfg, L.Normalized(cfg.adapter, L.ParseStatus(e.poll.reply, jobID).value, "running"), e.result);
    }
  }

  lemma LegacyEndingsProper(cfg: L.Config, setup: L.Setup, events: seq<Event>)
    ensures var run := L.Run(cfg, setup, events);
            run.ending.Some? ==> Proper(run.ending.value)
  {
    if L.SetupFailure(cfg, setup).None? {
      var st := L.Submitted(cfg, setup);
      var judge := L.JudgeFor(cfg, st.id);
      FollowClosedForm(judge, JobRun(st.id, true, [st], None), events);
      var n := ReadBeforeEnd(judge, events);
      if n < |events| {
        LegacyVerdictsProper(cfg, st.id, events[n]);
      }
    }
  }

  /** The terminal state that the poll inside `e` reports, if it reports one. */
  function PolledTerminal(cfg: L.Config, jobID: string, e: Event): seq<string> {
    if e.Tick? && e.poll.Answered? && L.ParseStatus(e.poll.reply, jobID).Success? then
      var state := L.Normalized(cfg.adapter, L.ParseStatus(e.poll.reply, jobID).value, "running").status;
      if state == "error" || state == "cancelled" || state == "done" then [state] else []
    else []
  }

  /** The state that the last event read reports on top of what was shown before. */
  function FinalPoll(cfg: L.Config, setup: L.Setup, events: seq<Event>): seq<string> {
    if L.SetupFailure(cfg, setup).Some? then []
    else
      var id := L.Submitted(cfg, setup).id;
      var n := ReadBeforeEnd(L.JudgeFor(cfg, id), events);
      if n < |events| then PolledTerminal(cfg, id, events[n]) else []
  }

  lemma PolledIsRecorded(cfg: L.Config, jobID: string, e: Event)
    requires L.Judge(cfg, jobID, e).Ends?
    ensures Extra(L.Judge(cfg, jobID, e).ending.polled) == PolledTerminal(cfg, jobID, e)
  {
  }

  lemma FinalPollIsExtra(cfg: L.Config, setup: L.Setup, events: seq<Event>)
    ensures var run := L.Run(cfg, setup, events);
            FinalPoll(cfg, setup, events) == if run.ending.Some? then Extra(run.ending.value.polled) else []
  {
    if L.SetupFailure(cfg, setup).None? {
      var st := L.Submitted(cfg, setup);
      var judge := L.JudgeFor(cfg, st.id);
      FollowClosedForm(judge, JobRun(st.id, true, [st], None), events);
      var n := ReadBeforeEnd(judge, events);
      if n < |events| {
        PolledIsRecorded(cfg, st.id, events[n]);
      }
    }
  }

  /** For every configuration, set-up and trace: a subscriber whose sends succeed and a waiting
      caller see the job end at the same event, in the same state, with the same error,
      progress and frames; the waiting caller records exactly the subscriber's progress
      states, plus the terminal state that the last poll itself reports. */
  lemma LegacyDriversAgree(cfg: L.Config, setup: L.Setup, events: seq<Event>)
    ensures var run := L.Run(cfg, setup, events);
            var sent, w := Streamed(run), Awaited(cfg.requestID, run);
            && SameEnd(sent, w)
            && NonFinalStates(w.statuses) == ProgressStates(sent) + FinalPoll(cfg, setup, events)
  {
    LegacyEndingsProper(cfg, setup, events);
    FinalPollIsExtra(cfg, setup, events);
    ProperRunsAgree(cfg.requestID, L.Run(cfg, setup, events));
  }

  // ---- Shapes ----

  /** Progress controls, then the result frames and one terminal "done", or no frame and one
      terminal "error" or "cancelled". */
  ghost predicate WellShaped(sent: seq<Emitted>, over: bool) {
    exists n: nat, m: nat :: ShapedAt(sent, over, n, m)
  }

  predicate ShapedAt(sent: seq<Emitted>, over: bool, n: nat, m: nat) {
    && |sent| == n + m + (if over then 1 else 0)
    && (forall i | 0 <= i < n :: sent[i].Control? && !sent[i].terminal)
    && (forall i | n <= i < n + m :: sent[i].Data?)
    && (!over ==> m == 0)
    && (over ==>
          var last := sent[n + m];
          && last.Control? && last.terminal
          && (last.state == "done" || (m == 0 && (last.state == "error" || last.state == "cancelled"))))
  }

  lemma ProperRunsAreWellShaped(run: JobRun)
    requires run.ending.Some? ==> Proper(run.ending.value)
    ensures WellShaped(Streamed(run), run.ending.Some?)
  {
    var m := if run.ending.Some? then |run.ending.value.frames| else 0;
    assert ShapedAt(Streamed(run), run.ending.Some?, |run.seen|, m);
  }

  lemma LegacyStreamsAreWellShaped(cfg: L.Config, setup: L.Setup, events: seq<Event>)
    ensures WellShaped(Streamed(L.Run(cfg, setup, events)), L.Run(cfg, setup, events).ending.Some?)
  {
    LegacyEndingsProper(cfg, setup, events);
    ProperRunsAreWellShaped(L.Run(cfg, setup, events));
  }

  /** Exactly one final event, and it is the last one. */
  lemma LegacyWaitsEndOnce(cfg: L.Config, setup: L.Setup, events: seq<Event>)
    ensures var run := L.Run(cfg, setup, events);
            var w := Awaited(cfg.requestID, run);
            && |Finals(w.statuses)| == (if run.ending.Some? then 1 else 0)
            && (run.ending.Some? ==> w.statuses != [] && w.statuses[|w.statuses| - 1].final)
  {
    var run := L.Run(cfg, setup, events);
    LegacyEndingsProper(cfg, setup, events);
    AwaitedObservations(cfg.requestID, run);
    if run.ending.Some? {
      var e := run.ending.value;
      assert Awaited(cfg.requestID, run).statuses[|Awaited(cfg.requestID, run).statuses| - 1].final;
    }
  }

  // ---- Cancellation ----

  predicate EndsByContext(e: Event) {
    e.ContextEnded? || e.poll.CallCut? || (e.poll.Answered? && e.result.CallCut?)
  }

  lemma OnlyContextsCut(cfg: L.Config, jobID: string, e: Event)
    requires L.Judge(cfg, jobID, e).Ends? && L.Judge(cfg, jobID, e).ending.byContext
    ensures EndsByContext(e)
  {
  }

  /** The gateway's cancel function is called at most once, for a submitted job that its
      context ended. */
  lemma LegacyCancelsOnlyCutJobs(cfg: L.Config, setup: L.Setup, events: seq<Event>)
    ensures var cancels := Cancels(cfg.adapter.cancel, L.Run(cfg, setup, events));
            cancels != [] ==>
              && L.SetupFailure(cfg, setup).None?
              && var id := L.Submitted(cfg, setup).id;
              && cancels == [id]
              && var n := ReadBeforeEnd(L.JudgeFor(cfg, id), events);
              && n < |events| && EndsByContext(events[n])
  {
    if L.SetupFailure(cfg, setup).None? {
      var st := L.Submitted(cfg, setup);
      var judge := L.JudgeFor(cfg, st.id);
      var start := JobRun(st.id, true, [st], None);
      FollowClosedForm(judge, start, events);
      FollowKeepsSeen(judge, start, events);
      var n := ReadBeforeEnd(judge, events);
      if n < |events| && L.Judge(cfg, st.id, events[n]).ending.byContext {
        OnlyContextsCut(cfg, st.id, events[n]);
      }
    }
  }

  // ---- The q helper ----

  lemma HelperEndingsProper(cfg: H.Config, setup: H.Setup, events: seq<Event>)
    ensures var run := H.Run(cfg, setup, events);
            run.ending.Some? ==> Proper(run.ending.value)
  {
    if H.SetupFailure(cfg, setup).None? {
      var st := H.Submitted(cfg, setup);
      var jobID := H.JobID(cfg, st);
      var judge := H.JudgeFor(cfg, jobID);
      FollowClosedForm(judge, JobRun(jobID, true, [st], None), events);
      var n := ReadBeforeEnd(judge, events);
      if n < |events| {
        HelperVerdictsProper(cfg, jobID, events[n]);
      }
    }
  }

  lemma HelperVerdictsProper(cfg: H.Config, jobID: string, e: Event)
    requires H.Judge(cfg, jobID, e).Ends?
    ensures Proper(H.Judge(cfg, jobID, e).ending)
  {
  }

  /** What the helper's streaming driver sends if every send succeeds. */
  function HelperStream(cfg: H.Config, setup: H.Setup, events: seq<Event>): seq<Emitted> {
    if H.SetupFailure(cfg, setup).Some? then [] else Streamed(H.Run(cfg, setup, events))
  }

  /** The waiting caller always gets a final event when the job is over.  The subscriber gets a
      terminal frame exactly when the connection and the submit succeeded, and then both agree. */
  lemma HelperDriversAgreeAfterSubmit(cfg: H.Config, setup: H.Setup, events: seq<Event>)
    ensures var run := H.Run(cfg, setup, events);
            var sent, w := HelperStream(cfg, setup, events), Awaited(cfg.requestID, run);
            && |Finals(w.statuses)| == (if run.ending.Some? then 1 else 0)
            && (|Terminals(sent)| == |Finals(w.statuses)| <==> H.SetupFailure(cfg, setup).None?)
            && (H.SetupFailure(cfg, setup).None? ==> SameEnd(sent, w) && WellShaped(sent, run.ending.Some?))
  {
    var run := H.Run(cfg, setup, events);
    HelperEndingsProper(cfg, setup, events);
    AwaitedObservations(cfg.requestID, run);
    ProperRunsAgree(cfg.requestID, run);
    ProperRunsAreWellShaped(run);
  }

  // ---- Plugin-managed jobs ----

  lemma PluginEndingsProper(cfg: P.Config, setup: P.Setup, events: seq<P.Event>)
    ensures var run := P.Run(cfg, setup, events);
            run.ending.Some? ==> Proper(run.ending.value) && run.ending.value.polled.None?
  {
    if setup.slot.None? && setup.connection.None? {
      FollowClosedForm(P.JudgeFor(cfg), JobRun(cfg.requestID, true, [P.Queued(cfg)], None), events);
    }
  }

  /** Streaming and waiting end alike, each with one last word. */
  lemma PluginDriversAgree(cfg: P.Config, setup: P.Setup, events: seq<P.Event>)
    ensures var run := P.Run(cfg, setup, events);
            var sent, w := Streamed(run), Awaited(cfg.requestID, P.WaitRun(cfg, setup, events));
            && SameEnd(sent, w) && WellShaped(sent, run.ending.Some?)
            && (|Finals(w.statuses)| == 1 <==> run.ending.Some?)
  {
    var run, waited := P.Run(cfg, setup, events), P.WaitRun(cfg, setup, events);
    PluginEndingsProper(cfg, setup, events);
    SameEndingsAgree(cfg.requestID, run, waited);
    ProperRunsAreWellShaped(run);
  }

  /** Until then the response says "queued" and "running" once each, */
  lemma PluginWaitStates(cfg: P.Config, setup: P.Setup, events: seq<P.Event>)
    ensures NonFinalStates(Awaited(cfg.requestID, P.WaitRun(cfg, setup, events)).statuses) ==
            (if setup.slot.Some? then [] else if setup.connection.Some? then ["queued"] else ["queued", "running"])
  {
    PluginEndingsProper(cfg, setup, events);
    AwaitedObservations(cfg.requestID, P.WaitRun(cfg, setup, events));
    assert States([P.Queued(cfg), P.Running(cfg)]) == ["queued", "running"];
  }

  /** and the stream says "running" once per tick. */
  lemma PluginStreamStates(cfg: P.Config, setup: P.Setup, events: seq<P.Event>, i: nat)
    requires i < |ProgressStates(Streamed(P.Run(cfg, setup, events)))|
    ensures ProgressStates(Streamed(P.Run(cfg, setup, events)))[i] == (if i == 0 then "queued" else "running")
  {
    StreamedObservations(P.Run(cfg, setup, events));
    if setup.slot.None? && setup.connection.None? {
      PluginProgress(cfg, events);
    }
  }

  lemma PluginProgress(cfg: P.Config, events: seq<P.Event>)
    ensures var seen := Followed(P.JudgeFor(cfg), cfg.requestID, P.Queued(cfg), events).seen;
            forall i | 0 <= i < |seen| :: seen[i].status == (if i == 0 then "queued" else "running")
  {
    var judge, start := P.JudgeFor(cfg), JobRun(cfg.requestID, true, [P.Queued(cfg)], None);
    FollowClosedForm(judge, start, events);
    var seen := Follow(judge, start, events).seen;
    forall i | 1 <= i < |seen| ensures seen[i].status == "running" {
      assert judge(events[i - 1]) == Goes(seen[1 + (i - 1)]);
    }
  }
}
