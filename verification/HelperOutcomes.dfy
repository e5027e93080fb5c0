/** The statuses and the end of a job of the q helper, read off what the helper answered.  Only a
    dictionary says anything but that a job is queued. */
module HelperOutcomes {
  import opened Wrappers
  import opened AsyncJob
  import opened AsyncTheorems
  import opened JobOutcomes
  import H = HelperAsync
  import Text

  // ---- Words ----

  predicate HasFields(r: Reply) {
    r.Record? && r.isDict
  }

  /** The status text, which is queued for a text answer and missing in all others but dictionaries. */
  function Said(r: Reply): string {
    if r.TextReply? then "queued" else if HasFields(r) then StatusText(r) else ""
  }

  function Word(r: Reply, fallback: string): string {
    if Said(r) == "" then fallback else Text.Lower(Said(r))
  }

  const DONE_WORDS := {"done", "complete", "completed"}
  const CANCELLED_WORDS := {"cancelled", "canceled"}

  predicate SaysOver(word: string) {
    word == "error" || word in CANCELLED_WORDS || word in DONE_WORDS
  }

  lemma WordsDiffer()
    ensures DONE_WORDS !! CANCELLED_WORDS && "error" !in DONE_WORDS && "error" !in CANCELLED_WORDS
  {
    assert "done"[0] == 'd' && "complete"[1] == 'o' && "completed"[1] == 'o';
    assert "cancelled"[1] == 'a' && "canceled"[1] == 'a' && "cancelled"[0] == 'c' && "error"[0] == 'e';
  }

  function IdSaid(r: Reply, fallback: string): string {
    if r.TextReply? then r.text else if HasFields(r) && r.id.Some? then r.id.value else fallback
  }

  /** Fields count in dictionaries only. */
  function Heard(r: Reply): Reply {
    if HasFields(r) then r else NilReply
  }

  predicate StatusSays(st: JobStatus, r: Reply, id: string, fallback: string) {
    && st.status == Word(r, fallback) && st.raw == Said(r) && st.id == IdSaid(r, id)
    && st.message == MessageText(Heard(r)) && st.error == ErrorText(Heard(r)) && st.progress == ProgressIn(Heard(r))
  }

  lemma AnswerSays(r: Reply, id: string, fallback: string)
    ensures StatusSays(H.WithState(H.ParseAnswer(r, id), fallback), r, id, fallback)
    ensures H.ParseAnswer(r, id).id == IdSaid(r, id)
  {
    if r.TextReply? { LowerQueued(); }
  }

  lemma LowerQueued()
    ensures Text.Lower("queued") == "queued"
  {
  }

  // ---- Events ----

  predicate Polled(e: Event) {
    e.Tick? && e.poll.Answered?
  }

  predicate GoesOn(e: Event) {
    Polled(e) && !SaysOver(Word(e.poll.reply, "running"))
  }

  predicate GoOn(events: seq<Event>, n: nat) {
    n <= |events| && forall i | 0 <= i < n :: GoesOn(events[i])
  }

  predicate Submits(setup: H.Setup) {
    setup.connection.None? && setup.submit.Answered?
  }

  /** The job's id, or that of the request if the helper gave none. */
  function JobId(cfg: H.Config, setup: H.Setup): string
    requires Submits(setup)
  {
    var id := IdSaid(setup.submit.reply, cfg.requestID);
    if id == "" then cfg.requestID else id
  }

  /** How the job ends with an event. */
  function EventEnd(cfg: H.Config, e: Event): End
    requires !GoesOn(e)
  {
    match e
    case ContextEnded(who) => Interrupted(who, cfg.cutText(who))
    case Tick(CallCut(who), _) => Interrupted(who, cfg.cutText(who))
    case Tick(CallFailed(text), _) => Broken("status-failed", text, 0.0)
    case Tick(Answered(reply), result) =>
      var word, r := Word(reply, "running"), Heard(reply);
      if word == "error" then End("error", "query-failed", MessageText(r), ErrorText(r), ProgressIn(r), [])
      else if word in CANCELLED_WORDS then
        End("cancelled", "cancelled", MessageText(r), ErrorText(r), ProgressIn(r), [])
      else DoneEnd(cfg, r, result)
  }

  function DoneEnd(cfg: H.Config, r: Reply, result: CallOutcome): End {
    match result
    case CallCut(who) => Interrupted(who, cfg.cutText(who))
    case CallFailed(text) => Broken("result-failed", text, ProgressIn(r))
    case Answered(reply) =>
      match cfg.parse(if reply.NilReply? then Null else reply.whole)
      case ParseError(text) => Broken("parse-failed", text, ProgressIn(r))
      case Frames(frames) => Finished(MessageText(r), frames)
  }

  lemma EventEndsSo(cfg: H.Config, jobID: string, e: Event)
    ensures GoesOn(e) <==> H.Judge(cfg, jobID, e).Goes?
    ensures GoesOn(e) ==> StatusSays(H.Judge(cfg, jobID, e).status, e.poll.reply, jobID, "running")
    ensures !GoesOn(e) ==>
              && Proper(H.Judge(cfg, jobID, e).ending)
              && EndOf(H.Judge(cfg, jobID, e).ending) == EventEnd(cfg, e)
  {
    if Polled(e) {
      AnswerSays(e.poll.reply, jobID, "running");
      WordsDiffer();
    }
  }

  lemma HelperRunUpTo(cfg: H.Config, setup: H.Setup, events: seq<Event>, n: nat)
    requires Submits(setup) && GoOn(events, n) && (n < |events| ==> !GoesOn(events[n]))
    ensures var run, id := H.Run(cfg, setup, events), JobId(cfg, setup);
            && run.submitted && run.jobID == id && |run.seen| == n + 1
            && StatusSays(run.seen[0], setup.submit.reply, cfg.requestID, "queued")
            && (forall i | 0 <= i < n :: StatusSays(run.seen[i + 1], events[i].poll.reply, id, "running"))
            && (run.ending.Some? <==> n < |events|)
            && (n < |events| ==> H.Judge(cfg, id, events[n]) == Ends(run.ending.value))
  {
    var id, first := JobId(cfg, setup), H.Submitted(cfg, setup);
    var judge := H.JudgeFor(cfg, id);
    AnswerSays(setup.submit.reply, cfg.requestID, "queued");
    forall i | 0 <= i <= n && i < |events|
      ensures judge(events[i]).Goes? <==> GoesOn(events[i])
      ensures GoesOn(events[i]) ==> StatusSays(judge(events[i]).status, events[i].poll.reply, id, "running")
    {
      EventEndsSo(cfg, id, events[i]);
    }
    RunUpTo(judge, id, first, events, n);
  }

  // ---- Theorems ----

  /** Every status is shown with the helper's own word, lower-cased. */
  lemma HelperStatusesAreShown(cfg: H.Config, setup: H.Setup, events: seq<Event>, n: nat, i: nat)
    requires Submits(setup) && GoOn(events, n) && (n < |events| ==> !GoesOn(events[n])) && i <= n
    ensures var r := if i == 0 then setup.submit.reply else events[i - 1].poll.reply;
            StatusShown(cfg.requestID, H.Run(cfg, setup, events), i,
                        IdSaid(r, if i == 0 then cfg.requestID else JobId(cfg, setup)),
                        Word(r, if i == 0 then "queued" else "running"),
                        Said(r),
                        MessageText(Heard(r)), ErrorText(Heard(r)), ProgressIn(Heard(r)))
  {
    HelperRunUpTo(cfg, setup, events, n);
    StatusIsShown(cfg.requestID, H.Run(cfg, setup, events), i);
    if i > 0 { assert StatusSays(H.Run(cfg, setup, events).seen[(i - 1) + 1], events[i - 1].poll.reply,
                                    JobId(cfg, setup), "running"); }
  }

  /** The first event that ends the job decides how both drivers end. */
  lemma HelperEndsSo(cfg: H.Config, setup: H.Setup, events: seq<Event>, n: nat)
    requires Submits(setup) && GoOn(events, n) && n < |events| && !GoesOn(events[n])
    ensures var run, end := H.Run(cfg, setup, events), EventEnd(cfg, events[n]);
            && StreamEnds(Streamed(run), JobId(cfg, setup), end)
            && WaitEnds(Awaited(cfg.requestID, run), JobId(cfg, setup), end)
  {
    HelperRunUpTo(cfg, setup, events, n);
    EventEndsSo(cfg, JobId(cfg, setup), events[n]);
    EndIsShown(cfg.requestID, H.Run(cfg, setup, events));
  }

  /** Without a connection, or when the submit fails, the waiting caller is told so. */
  lemma HelperSetUpFailureIsShown(cfg: H.Config, setup: H.Setup, events: seq<Event>)
    requires !Submits(setup)
    ensures var end := if setup.connection.Some? then Broken("connection-failed", setup.connection.value, 0.0)
                       else if setup.submit.CallFailed? then
                         Broken("submit-failed", cfg.submitError(setup.submit.text), 0.0)
                       else Broken("submit-failed", cfg.submitError(cfg.submitCutText(setup.submit.who)), 0.0);
            WaitEnds(Awaited(cfg.requestID, H.Run(cfg, setup, events)), cfg.requestID, end)
  {
    EndIsShown(cfg.requestID, H.Run(cfg, setup, events));
  }

  /** A job is cancelled exactly if its context ended and it has an id. */
  lemma HelperCutJobsAreCancelled(cfg: H.Config, setup: H.Setup, events: seq<Event>, n: nat)
    requires Submits(setup) && GoOn(events, n) && n < |events| && !GoesOn(events[n])
    ensures var id, e := JobId(cfg, setup), events[n];
            Cancels(H.CANCEL_FN, H.Run(cfg, setup, events)) == if IsCut(e) && id != "" then [id] else []
  {
    HelperRunUpTo(cfg, setup, events, n);
    CutExactly(cfg, JobId(cfg, setup), events[n]);
  }

  lemma CutExactly(cfg: H.Config, id: string, e: Event)
    requires !GoesOn(e)
    ensures H.Judge(cfg, id, e).Ends? && (H.Judge(cfg, id, e).ending.byContext <==> IsCut(e))
  {
    if Polled(e) {
      AnswerSays(e.poll.reply, id, "running");
      WordsDiffer();
    }
  }

  predicate IsCut(e: Event) {
    || e.ContextEnded?
    || e.poll.CallCut?
    || (Polled(e) && Word(e.poll.reply, "running") in DONE_WORDS && e.result.CallCut?)
  }
}
