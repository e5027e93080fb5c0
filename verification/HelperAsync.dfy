/** The drivers of the q helper: same loop as a legacy gateway, other parsing, no slot. */
module HelperAsync {
  import opened Wrappers
  import opened AsyncJob
  import Text

  datatype Config = Config(
    requestID: string,
    parse: Payload -> Parsed,
    cutText: ContextEnd -> string,
    submitError: string -> string,      // prefixes the hint that the helper is not loaded
    submitCutText: ContextEnd -> string)

  datatype Setup = Setup(connection: Option<string>, submit: CallOutcome)

  /** Only a dictionary has status fields; a text answer is always read as a queued job's id. */
  function ParseAnswer(r: Reply, fallbackID: string): JobStatus {
    match r
    case NilReply => Blank(fallbackID)
    case TextReply(text, _) => Blank(text).(status := "queued", raw := "queued")
    case Record(id, status, progress, message, error, payload, isDict, _) =>
      if !isDict then Blank(fallbackID)
      else
        var text := if status.Some? then status.value else "";
        JobStatus(
          if id.Some? then id.value else fallbackID, text, text,
          if message.Some? then message.value else "",
          if error.Some? then error.value else "",
          if progress.Some? then progress.value else 0.0,
          if payload.Some? then payload.value else Null)
  }

  function WithState(st: JobStatus, fallback: string): JobStatus {
    st.(status := if st.status == "" then fallback else Text.Lower(st.status))
  }

  function Whole(r: Reply): Payload {
    if r.NilReply? then Null else r.whole
  }

  predicate IsDone(state: string) {
    state == "done" || state == "complete" || state == "completed"
  }

  predicate IsCancelled(state: string) {
    state == "cancelled" || state == "canceled"
  }

  function Judge(cfg: Config, jobID: string, e: Event): Verdict {
    match e
    case ContextEnded(who) => Ends(Cut(who, cfg.cutText, None))
    case Tick(CallCut(who), _) => Ends(Cut(who, cfg.cutText, None))
    case Tick(CallFailed(text), _) => Ends(Failing("status-failed", text, 0.0, None))
    case Tick(Answered(reply), result) =>
      var st := WithState(ParseAnswer(reply, jobID), "running");
      if st.status == "error" then
        Ends(Failing("query-failed", st.error, st.progress, Some(st)).(message := st.message))
      else if IsCancelled(st.status) then
        Ends(Failing("cancelled", st.error, st.progress, Some(st)).(state := "cancelled", message := st.message))
      else if IsDone(st.status) then Ends(JudgeResult(cfg, st, result))
      else Goes(st)
  }

  function JudgeResult(cfg: Config, st: JobStatus, result: CallOutcome): Ending {
    match result
    case CallCut(who) => Cut(who, cfg.cutText, Some(st))
    case CallFailed(text) => Failing("result-failed", text, st.progress, Some(st))
    case Answered(reply) =>
      match cfg.parse(Whole(reply))
      case ParseError(text) => Failing("parse-failed", text, st.progress, Some(st))
      case Frames(frames) => Completing(Some(st), st.(status := "done", progress := 1.0), frames)
  }

  function JudgeFor(cfg: Config, jobID: string): Event -> Verdict {
    e => Judge(cfg, jobID, e)
  }

  function SetupFailure(cfg: Config, setup: Setup): Option<Ending> {
    if setup.connection.Some? then Some(Failing("connection-failed", setup.connection.value, 0.0, None))
    else
      match setup.submit
      case CallFailed(text) => Some(Failing("submit-failed", cfg.submitError(text), 0.0, None))
      case CallCut(who) => Some(Failing("submit-failed", cfg.submitError(cfg.submitCutText(who)), 0.0, None))
      case Answered(_) => None
  }

  function Submitted(cfg: Config, setup: Setup): JobStatus
    requires setup.submit.Answered?
  {
    WithState(ParseAnswer(setup.submit.reply, cfg.requestID), "queued")
  }

  function JobID(cfg: Config, st: JobStatus): string {
    if st.id == "" then cfg.requestID else st.id
  }

  function Run(cfg: Config, setup: Setup, events: seq<Event>): JobRun {
    var failure := SetupFailure(cfg, setup);
    if failure.Some? then JobRun(cfg.requestID, false, [], failure)
    else
      var st := Submitted(cfg, setup);
      var jobID := JobID(cfg, st);
      Followed(JudgeFor(cfg, jobID), jobID, st, events)
  }

  const CANCEL_FN := "{[jobId] .grafana.asyncq.async.cancel jobId}"

  method Start(cfg: Config, setup: Setup) returns (rejected: Option<Ending>, first: JobStatus, jobID: string)
    ensures rejected == SetupFailure(cfg, setup)
    ensures rejected.None? ==> first == Submitted(cfg, setup) && jobID == JobID(cfg, first)
  {
    first, jobID := Blank(""), cfg.requestID;
    if setup.connection.Some? {
      return Some(Failing("connection-failed", setup.connection.value, 0.0, None)), first, jobID;
    }
    if !setup.submit.Answered? {
      var text := if setup.submit.CallFailed? then setup.submit.text else cfg.submitCutText(setup.submit.who);
      return Some(Failing("submit-failed", cfg.submitError(text), 0.0, None)), first, jobID;
    }
    first := WithState(ParseAnswer(setup.submit.reply, cfg.requestID), "queued");
    if first.id != "" {
      jobID := first.id;
    }
    rejected := None;
  }

  predicate CutBySubscriber(e: Ending) {
    e.byContext && e.code == "cancelled"
  }

  /** `lost`: a send failed; `failed`: the driver returns an error.  A connection or submit failure
      is only returned, no frame is sent; and a subscriber that left is told and returned. */
  method RunStream(cfg: Config, setup: Setup, events: seq<Event>, sender: StreamSender)
    returns (returned: bool, failed: bool, lost: bool, cancels: seq<string>)
    requires sender.sent == []
    modifies sender
    ensures SetupFailure(cfg, setup).Some? ==> returned && failed && sender.sent == [] && cancels == []
    ensures SetupFailure(cfg, setup).None? ==>
              && StreamedRun(CANCEL_FN, Run(cfg, setup, events), sender, returned, lost, cancels)
              && var run := Run(cfg, setup, events);
                 failed <==> lost || (AllSent(StatusFrames(run.jobID, run.seen), sender.ok, 0)
                                      && run.ending.Some? && CutBySubscriber(run.ending.value))
  {
    var rejected, first, jobID := Start(cfg, setup);
    if rejected.Some? {
      return true, true, false, [];
    }
    var ending;
    returned, lost, cancels, ending := sender.FollowJob(JudgeFor(cfg, jobID), jobID, first, events, CANCEL_FN);
    failed := lost || (ending.Some? && CutBySubscriber(ending.value));
  }

  method RunWait(cfg: Config, setup: Setup, events: seq<Event>, resp: WaitResponse)
    returns (returned: bool, cancels: seq<string>)
    requires resp.View() == WAIT_START && resp.requestID == cfg.requestID
    modifies resp
    ensures resp.View() == Awaited(cfg.requestID, Run(cfg, setup, events))
    ensures returned <==> Run(cfg, setup, events).ending.Some?
    ensures cancels == Cancels(CANCEL_FN, Run(cfg, setup, events))
  {
    var rejected, first, jobID := Start(cfg, setup);
    if rejected.Some? {
      resp.End(cfg.requestID, rejected.value);
      return true, [];
    }
    returned, cancels := resp.FollowJob(JudgeFor(cfg, jobID), jobID, first, events, CANCEL_FN);
  }
}
