/** The statuses and the end of a legacy job, read off what its gateway answered.  The gateway says
    a word, which the adapter's five lists of values give a meaning. */
module LegacyOutcomes {
  import opened Wrappers
  import opened AsyncJob
  import opened AsyncTheorems
  import opened JobOutcomes
  import L = LegacyAsync
  import Text

  // ---- Words ----

  /** Lower-cased and without surrounding blanks; nothing at all stands for the fallback. */
  function Word(text: string, fallback: string): string {
    if Text.Canonical(text) == "" then fallback else Text.Canonical(text)
  }

  predicate SaysQueued(a: L.Adapter, word: string) {
    word in a.queued
  }

  predicate SaysDone(a: L.Adapter, word: string) {
    word in a.done && word !in a.queued + a.running
  }

  predicate SaysError(a: L.Adapter, word: string) {
    word in a.error && word !in a.queued + a.running + a.done
  }

  predicate SaysCancelled(a: L.Adapter, word: string) {
    word in a.cancelled && word !in a.queued + a.running + a.done + a.error
  }

  predicate SaysOver(a: L.Adapter, word: string) {
    SaysDone(a, word) || SaysError(a, word) || SaysCancelled(a, word)
  }

  /** What a status is shown as: a word that no list has counts as running. */
  predicate ShownAs(a: L.Adapter, word: string, state: string) {
    && (state == "queued" <==> SaysQueued(a, word))
    && (state == "done" <==> SaysDone(a, word))
    && (state == "error" <==> SaysError(a, word))
    && (state == "cancelled" <==> SaysCancelled(a, word))
    && (state == "running" <==> !SaysQueued(a, word) && !SaysOver(a, word))
  }

  lemma DifferentStates()
    ensures "queued" != "running" && "queued" != "done" && "queued" != "error" && "queued" != "cancelled"
    ensures "running" != "done" && "running" != "error" && "running" != "cancelled"
    ensures "done" != "error" && "done" != "cancelled" && "error" != "cancelled"
  {
    assert "queued"[0] == 'q' && "running"[0] == 'r' && "done"[0] == 'd' && "error"[0] == 'e' && "cancelled"[0] == 'c';
  }

  lemma NormalizedShows(a: L.Adapter, text: string, fallback: string)
    ensures ShownAs(a, Word(text, fallback), L.Normalize(a, text, fallback))
  {
    DifferentStates();
  }

  // ---- Submitting ----

  function IdIn(r: Reply, fallback: string): string {
    match r
    case NilReply => fallback
    case TextReply(text, _) => fallback
    case Record(id, _, _, _, _, _, _, _) => if id.Some? then id.value else fallback
  }

  /** A text answer to the submit is the job's id, and says that the job is queued. */
  function SubmittedId(r: Reply, requestID: string): string {
    if r.TextReply? then r.text else IdIn(r, requestID)
  }

  function CalledIn(cfg: L.Config, setup: L.Setup): string
    requires setup.submit.Answered?
  {
    Called(SubmittedId(setup.submit.reply, cfg.requestID), cfg.requestID)
  }

  function SubmittedWord(r: Reply): string {
    if r.TextReply? then "queued" else Word(StatusText(r), "queued")
  }

  /** Everything before the first poll goes well. */
  predicate Submits(cfg: L.Config, setup: L.Setup) {
    && cfg.adapter.submit != "" && cfg.adapter.status != ""
    && setup.slot.None? && setup.connection.None? && setup.build.None?
    && setup.submit.Answered? && !setup.submit.reply.NilReply?
    && (setup.submit.reply.Record? ==> SubmittedId(setup.submit.reply, cfg.requestID) != "")
  }

  lemma SubmitsExactly(cfg: L.Config, setup: L.Setup)
    ensures Submits(cfg, setup) <==> L.SetupFailure(cfg, setup).None?
  {
  }

  lemma SubmittedStatus(cfg: L.Config, setup: L.Setup)
    requires Submits(cfg, setup)
    ensures L.SetupFailure(cfg, setup).None?
    ensures var r, st := setup.submit.reply, L.Submitted(cfg, setup);
            && st.id == SubmittedId(r, cfg.requestID)
            && ShownAs(cfg.adapter, SubmittedWord(r), st.status)
            && st.raw == (if r.TextReply? then "queued" else StatusText(r))
            && st.message == MessageText(r) && st.error == ErrorText(r) && st.progress == ProgressIn(r)
  {
    SubmitsExactly(cfg, setup);
    var raw := if setup.submit.reply.TextReply? then "queued" else StatusText(setup.submit.reply);
    NormalizedShows(cfg.adapter, raw, "queued");
    QueuedIsCanonical();
  }

  lemma QueuedIsCanonical()
    ensures Text.Canonical("queued") == "queued"
  {
    assert Text.Trim("queued") == "queued" && Text.Lower("queued") == "queued";
  }

  // ---- Polling ----

  predicate Polled(e: Event) {
    e.Tick? && e.poll.Answered? && !e.poll.reply.NilReply?
  }

  function PolledWord(e: Event): string
    requires Polled(e)
  {
    Word(StatusText(e.poll.reply), "running")
  }

  /** The poll says that the job is not over. */
  predicate GoesOn(a: L.Adapter, e: Event) {
    Polled(e) && !SaysOver(a, PolledWord(e))
  }

  predicate GoOn(a: L.Adapter, events: seq<Event>, n: nat) {
    n <= |events| && forall i | 0 <= i < n :: GoesOn(a, events[i])
  }

  function PolledStatus(cfg: L.Config, jobID: string, e: Event): JobStatus
    requires Polled(e)
  {
    L.Normalized(cfg.adapter, L.ParseStatus(e.poll.reply, jobID).value, "running")
  }

  lemma PolledStatusIs(cfg: L.Config, jobID: string, e: Event)
    requires Polled(e)
    ensures var r, st := e.poll.reply, PolledStatus(cfg, jobID, e);
            && ShownAs(cfg.adapter, PolledWord(e), st.status) && st.raw == StatusText(r)
            && st.message == MessageText(r) && st.error == ErrorText(r) && st.progress == ProgressIn(r)
            && st.payload == PayloadIn(r) && st.id == IdIn(r, jobID)
    ensures L.Judge(cfg, jobID, e) == L.JudgeStatus(cfg, PolledStatus(cfg, jobID, e), e.result)
  {
    NormalizedShows(cfg.adapter, StatusText(e.poll.reply), "running");
  }

  lemma GoesOnExactly(cfg: L.Config, jobID: string, e: Event)
    ensures GoesOn(cfg.adapter, e) <==> L.Judge(cfg, jobID, e).Goes?
    ensures GoesOn(cfg.adapter, e) ==> L.Judge(cfg, jobID, e) == Goes(PolledStatus(cfg, jobID, e))
  {
    if Polled(e) {
      PolledStatusIs(cfg, jobID, e);
      DifferentStates();
    }
  }

  lemma LegacyRunUpTo(cfg: L.Config, setup: L.Setup, events: seq<Event>, n: nat)
    requires Submits(cfg, setup) && GoOn(cfg.adapter, events, n) && (n < |events| ==> !GoesOn(cfg.adapter, events[n]))
    ensures L.SetupFailure(cfg, setup).None?
    ensures var run, first := L.Run(cfg, setup, events), L.Submitted(cfg, setup);
            && run.submitted && run.jobID == first.id == SubmittedId(setup.submit.reply, cfg.requestID)
            && |run.seen| == n + 1 && run.seen[0] == first
            && (forall i | 0 <= i < n :: run.seen[i + 1] == PolledStatus(cfg, first.id, events[i]))
            && (run.ending.Some? <==> n < |events|)
            && (n < |events| ==> L.Judge(cfg, first.id, events[n]) == Ends(run.ending.value))
  {
    SubmittedStatus(cfg, setup);
    var first := L.Submitted(cfg, setup);
    var judge := L.JudgeFor(cfg, first.id);
    forall i | 0 <= i <= n && i < |events| ensures judge(events[i]).Goes? <==> GoesOn(cfg.adapter, events[i]) {
      GoesOnExactly(cfg, first.id, events[i]);
    }
    RunUpTo(judge, first.id, first, events, n);
    forall i | 0 <= i < n ensures judge(events[i]).status == PolledStatus(cfg, first.id, events[i]) {
      GoesOnExactly(cfg, first.id, events[i]);
    }
  }

  // ---- Theorems ----

  /** The answer to the submit is the first status that is shown. */
  lemma SubmitIsShown(cfg: L.Config, setup: L.Setup, events: seq<Event>, n: nat)
    requires Submits(cfg, setup) && GoOn(cfg.adapter, events, n) && (n < |events| ==> !GoesOn(cfg.adapter, events[n]))
    ensures var r, run := setup.submit.reply, L.Run(cfg, setup, events);
            && run.jobID == SubmittedId(r, cfg.requestID)
            && exists state :: ShownAs(cfg.adapter, SubmittedWord(r), state) &&
                 StatusShown(cfg.requestID, run, 0, run.jobID, state, if r.TextReply? then "queued" else StatusText(r),
                             MessageText(r), ErrorText(r), ProgressIn(r))
  {
    LegacyRunUpTo(cfg, setup, events, n);
    SubmittedStatus(cfg, setup);
    StatusIsShown(cfg.requestID, L.Run(cfg, setup, events), 0);
  }

  /** Then every poll that says the job is not over: a queued word as "queued", any other as
      "running", with the gateway's message, error and progress. */
  lemma PollsAreShown(cfg: L.Config, setup: L.Setup, events: seq<Event>, n: nat, i: nat)
    requires Submits(cfg, setup) && GoOn(cfg.adapter, events, n) && (n < |events| ==> !GoesOn(cfg.adapter, events[n]))
    requires i < n
    ensures var r := events[i].poll.reply;
            StatusShown(cfg.requestID, L.Run(cfg, setup, events), i + 1,
                        IdIn(r, SubmittedId(setup.submit.reply, cfg.requestID)),
                        if SaysQueued(cfg.adapter, PolledWord(events[i])) then "queued" else "running", StatusText(r),
                        MessageText(r), ErrorText(r), ProgressIn(r))
  {
    LegacyRunUpTo(cfg, setup, events, n);
    PolledStatusIs(cfg, L.Submitted(cfg, setup).id, events[i]);
    DifferentStates();
    StatusIsShown(cfg.requestID, L.Run(cfg, setup, events), i + 1);
  }

  /** The result of a job that is done: its own payload, or what the result function answers. */
  function ResultIn(cfg: L.Config, reply: Reply, result: CallOutcome): Result<Payload>
    requires PayloadIn(reply) != Null || (cfg.adapter.result != "" && result.Answered?)
  {
    if PayloadIn(reply) != Null then Success(PayloadIn(reply))
    else
      match result.reply
      case NilReply => Failure("legacy async result returned nil")
      case TextReply(_, whole) => Success(whole)
      case Record(_, _, _, _, _, payload, isDict, whole) =>
        if payload.Some? then Success(payload.value)
        else if isDict then Failure("legacy async result response did not contain payload")
        else Success(whole)
  }

  /** How a job ends whose gateway says that it is done. */
  function DoneEnd(cfg: L.Config, reply: Reply, result: CallOutcome): End {
    if PayloadIn(reply) == Null && cfg.adapter.result == "" then
      Broken("result-unavailable", cfg.noResult, ProgressIn(reply))
    else if PayloadIn(reply) == Null && result.CallCut? then Interrupted(result.who, cfg.cutText(result.who))
    else if PayloadIn(reply) == Null && result.CallFailed? then Broken("result-failed", result.text, ProgressIn(reply))
    else
      match ResultIn(cfg, reply, result)
      case Failure(text) => Broken("result-parse-failed", text, ProgressIn(reply))
      case Success(payload) =>
        match cfg.parse(payload)
        case ParseError(text) => Broken("parse-failed", text, ProgressIn(reply))
        case Frames(frames) => Finished(MessageText(reply), frames)
  }

  lemma DoneEndsSo(cfg: L.Config, jobID: string, e: Event)
    requires Polled(e) && SaysDone(cfg.adapter, PolledWord(e))
    ensures L.Judge(cfg, jobID, e).Ends?
    ensures Proper(L.Judge(cfg, jobID, e).ending)
    ensures EndOf(L.Judge(cfg, jobID, e).ending) == DoneEnd(cfg, e.poll.reply, e.result)
  {
    PolledStatusIs(cfg, jobID, e);
    DifferentStates();
  }

  lemma ErrorEndsSo(cfg: L.Config, jobID: string, e: Event)
    requires Polled(e) && (SaysError(cfg.adapter, PolledWord(e)) || SaysCancelled(cfg.adapter, PolledWord(e)))
    ensures L.Judge(cfg, jobID, e).Ends?
    ensures Proper(L.Judge(cfg, jobID, e).ending)
    ensures var r := e.poll.reply;
            EndOf(L.Judge(cfg, jobID, e).ending) ==
              if SaysError(cfg.adapter, PolledWord(e))
              then End("error", "query-failed", MessageText(r), ErrorText(r), ProgressIn(r), [])
              else End("cancelled", "cancelled", MessageText(r), ErrorText(r), ProgressIn(r), [])
  {
    PolledStatusIs(cfg, jobID, e);
    DifferentStates();
  }

  lemma LegacyEndIsShown(cfg: L.Config, setup: L.Setup, events: seq<Event>, n: nat, end: End)
    requires Submits(cfg, setup) && GoOn(cfg.adapter, events, n) && n < |events| && !GoesOn(cfg.adapter, events[n])
    requires var id := SubmittedId(setup.submit.reply, cfg.requestID);
             L.Judge(cfg, id, events[n]).Ends? && Proper(L.Judge(cfg, id, events[n]).ending)
             && EndOf(L.Judge(cfg, id, events[n]).ending) == end
    ensures StreamEnds(Streamed(L.Run(cfg, setup, events)), SubmittedId(setup.submit.reply, cfg.requestID), end)
    ensures WaitEnds(Awaited(cfg.requestID, L.Run(cfg, setup, events)), CalledIn(cfg, setup), end)
  {
    LegacyRunUpTo(cfg, setup, events, n);
    EndIsShown(cfg.requestID, L.Run(cfg, setup, events));
  }

  /** The first word of the gateway that ends the job decides how both drivers end: an error value
      as "error" and a cancelled value as "cancelled", with the gateway's own message, error and
      progress; and a done value, and no other, has the result fetched and parsed. */
  lemma TerminalWordsDecide(cfg: L.Config, setup: L.Setup, events: seq<Event>, n: nat)
    requires Submits(cfg, setup) && GoOn(cfg.adapter, events, n)
    requires n < |events| && Polled(events[n]) && SaysOver(cfg.adapter, PolledWord(events[n]))
    ensures var run, word, r := L.Run(cfg, setup, events), PolledWord(events[n]), events[n].poll.reply;
            var end := if SaysError(cfg.adapter, word) then
                         End("error", "query-failed", MessageText(r), ErrorText(r), ProgressIn(r), [])
                       else if SaysCancelled(cfg.adapter, word) then
                         End("cancelled", "cancelled", MessageText(r), ErrorText(r), ProgressIn(r), [])
                       else DoneEnd(cfg, r, events[n].result);
            && StreamEnds(Streamed(run), SubmittedId(setup.submit.reply, cfg.requestID), end)
            && WaitEnds(Awaited(cfg.requestID, run), CalledIn(cfg, setup), end)
            && (end.code == "query-failed" <==> SaysError(cfg.adapter, word))
            && (end.frames != [] ==> SaysDone(cfg.adapter, word))
  {
    var id, e := SubmittedId(setup.submit.reply, cfg.requestID), events[n];
    if SaysDone(cfg.adapter, PolledWord(e)) {
      DoneEndsSo(cfg, id, e);
      LegacyEndIsShown(cfg, setup, events, n, DoneEnd(cfg, e.poll.reply, e.result));
      DoneIsNoQueryFailure(cfg, e.poll.reply, e.result);
    } else {
      ErrorEndsSo(cfg, id, e);
      LegacyEndIsShown(cfg, setup, events, n, EndOf(L.Judge(cfg, id, e).ending));
    }
    assert "query-failed"[0] != "cancelled"[0];
  }

  lemma DoneIsNoQueryFailure(cfg: L.Config, reply: Reply, result: CallOutcome)
    ensures DoneEnd(cfg, reply, result).code != "query-failed"
  {
    var q := "query-failed";
    assert q[0] == 'q' && "result-unavailable"[0] == 'r' && "result-failed"[0] == 'r'
           && "result-parse-failed"[0] == 'r';
    assert "parse-failed"[0] == 'p' && "cancelled"[0] == 'c' && "timeout"[0] == 't';
  }

  /** How a job ends without such a word: its context is over, or a poll goes wrong. */
  function UnpolledEnd(cfg: L.Config, e: Event): End
    requires !Polled(e)
  {
    match e
    case ContextEnded(who) => Interrupted(who, cfg.cutText(who))
    case Tick(CallCut(who), _) => Interrupted(who, cfg.cutText(who))
    case Tick(CallFailed(text), _) => Broken("status-failed", text, 0.0)
    case Tick(Answered(_), _) => Broken("status-parse-failed", "legacy async status returned nil", 0.0)
  }

  lemma OtherEndsAreShown(cfg: L.Config, setup: L.Setup, events: seq<Event>, n: nat)
    requires Submits(cfg, setup) && GoOn(cfg.adapter, events, n) && n < |events| && !Polled(events[n])
    ensures var run, end := L.Run(cfg, setup, events), UnpolledEnd(cfg, events[n]);
            && StreamEnds(Streamed(run), SubmittedId(setup.submit.reply, cfg.requestID), end)
            && WaitEnds(Awaited(cfg.requestID, run), CalledIn(cfg, setup), end)
  {
    GoesOnExactly(cfg, SubmittedId(setup.submit.reply, cfg.requestID), events[n]);
    LegacyEndIsShown(cfg, setup, events, n, UnpolledEnd(cfg, events[n]));
  }

  /** A job whose gateway never says that it is over has no end, for either driver. */
  lemma NoEndWithoutAReason(cfg: L.Config, setup: L.Setup, events: seq<Event>)
    requires Submits(cfg, setup) && GoOn(cfg.adapter, events, |events|)
    ensures Terminals(Streamed(L.Run(cfg, setup, events))) == []
    ensures Finals(Awaited(cfg.requestID, L.Run(cfg, setup, events)).statuses) == []
  {
    LegacyRunUpTo(cfg, setup, events, |events|);
    StreamedObservations(L.Run(cfg, setup, events));
    AwaitedObservations(cfg.requestID, L.Run(cfg, setup, events));
  }

  /** The first set-up step that fails, in the order in which they are tried. */
  function SetUpEnd(cfg: L.Config, setup: L.Setup): End
    requires !Submits(cfg, setup)
  {
    if cfg.adapter.submit == "" || cfg.adapter.status == "" then Broken("configuration-invalid", cfg.badConfig, 0.0)
    else if setup.slot.Some? then Broken("async-slot-unavailable", setup.slot.value.text, 0.0)
    else if setup.connection.Some? then Broken("connection-failed", setup.connection.value, 0.0)
    else if setup.build.Some? then Broken("request-build-failed", setup.build.value, 0.0)
    else
      match setup.submit
      case CallFailed(text) => Broken("submit-failed", text, 0.0)
      case CallCut(who) => Broken("submit-failed", cfg.submitCutText(who), 0.0)
      case Answered(reply) =>
        Broken("submit-parse-failed",
               if reply.NilReply? then "legacy async submit returned nil"
               else "legacy async submit response did not contain job id", 0.0)
  }

  lemma SetUpFailuresAreShown(cfg: L.Config, setup: L.Setup, events: seq<Event>)
    requires !Submits(cfg, setup)
    ensures var run, end := L.Run(cfg, setup, events), SetUpEnd(cfg, setup);
            && StreamEnds(Streamed(run), cfg.requestID, end)
            && WaitEnds(Awaited(cfg.requestID, run), cfg.requestID, end)
            && ProgressStates(Streamed(run)) == [] && Cancels(cfg.adapter.cancel, run) == []
  {
    SubmitsExactly(cfg, setup);
    EndIsShown(cfg.requestID, L.Run(cfg, setup, events));
    StreamedObservations(L.Run(cfg, setup, events));
  }

  /** The gateway is asked to cancel a job exactly if the job's context ended, and there is a
      function to call and an id to call it with. */
  lemma CutJobsAreCancelled(cfg: L.Config, setup: L.Setup, events: seq<Event>, n: nat)
    requires Submits(cfg, setup) && GoOn(cfg.adapter, events, n) && n < |events| && !GoesOn(cfg.adapter, events[n])
    ensures var id, e := SubmittedId(setup.submit.reply, cfg.requestID), events[n];
            Cancels(cfg.adapter.cancel, L.Run(cfg, setup, events)) ==
              if IsCut(cfg, e) && cfg.adapter.cancel != "" && id != "" then [id] else []
  {
    LegacyRunUpTo(cfg, setup, events, n);
    CutExactly(cfg, SubmittedId(setup.submit.reply, cfg.requestID), events[n]);
  }

  lemma CutExactly(cfg: L.Config, id: string, e: Event)
    requires !GoesOn(cfg.adapter, e)
    ensures L.Judge(cfg, id, e).Ends? && (L.Judge(cfg, id, e).ending.byContext <==> IsCut(cfg, e))
  {
    if Polled(e) {
      PolledStatusIs(cfg, id, e);
      DifferentStates();
    }
  }

  /** The context ended between polls, in a poll, or while the result of a done job was fetched. */
  predicate IsCut(cfg: L.Config, e: Event) {
    || e.ContextEnded?
    || e.poll.CallCut?
    || (Polled(e) && SaysDone(cfg.adapter, PolledWord(e)) && PayloadIn(e.poll.reply) == Null
        && cfg.adapter.result != "" && e.result.CallCut?)
  }
}
