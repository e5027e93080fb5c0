/** The drivers of a legacy gateway: one streams frames, the other collects a status list. */
module LegacyAsync {
  import opened Wrappers
  import opened AsyncJob
  import S = AsyncSlots
  import Text

  datatype Adapter = Adapter(
    submit: string,
    status: string,
    result: string,
    cancel: string,
    queued: set<string>,
    running: set<string>,
    done: set<string>,
    error: set<string>,
    cancelled: set<string>)

  /** `parse` turns a result payload into frames; `cutText` and `submitCutText` are the texts of
      the context errors; `badConfig` and `noResult` those of the two local errors. */
  datatype Config = Config(
    requestID: string,
    adapter: Adapter,
    parse: Payload -> Parsed,
    cutText: ContextEnd -> string,
    submitCutText: ContextEnd -> string,
    badConfig: string,
    noResult: string)

  /** What happens before the first poll: the error texts of the local steps, if they fail. */
  datatype Setup = Setup(
    slot: Option<S.Refusal>,
    connection: Option<string>,
    build: Option<string>,
    submit: CallOutcome)

  // ---- Reading the gateway's answers ----

  predicate Valid(a: Adapter) {
    a.submit != "" && a.status != ""
  }

  function Normalize(a: Adapter, raw: string, fallback: string): string {
    var canonical := Text.Canonical(raw);
    var status := if canonical == "" then fallback else canonical;
    if status in a.queued then "queued"
    else if status in a.running then "running"
    else if status in a.done then "done"
    else if status in a.error then "error"
    else if status in a.cancelled then "cancelled"
    else "running"
  }

  function Populate(st: JobStatus, r: Reply): JobStatus
    requires r.Record?
  {
    st.(
      id := if r.id.Some? then r.id.value else st.id,
      status := if r.status.Some? then r.status.value else st.status,
      progress := if r.progress.Some? then r.progress.value else st.progress,
      message := if r.message.Some? then r.message.value else st.message,
      error := if r.error.Some? then r.error.value else st.error,
      payload := if r.payload.Some? then r.payload.value else st.payload)
  }

  function ParseSubmit(r: Reply, fallbackID: string): Result<JobStatus> {
    match r
    case NilReply => Failure("legacy async submit returned nil")
    case TextReply(text, _) => Success(Blank(text).(status := "queued"))
    case Record(_, _, _, _, _, _, _, _) =>
      var st := Populate(Blank(fallbackID), r);
      if st.id == "" then Failure("legacy async submit response did not contain job id") else Success(st)
  }

  function ParseStatus(r: Reply, fallbackID: string): Result<JobStatus> {
    match r
    case NilReply => Failure("legacy async status returned nil")
    case TextReply(text, _) => Success(Blank(fallbackID).(status := text))
    case Record(_, _, _, _, _, _, _, _) => Success(Populate(Blank(fallbackID), r))
  }

  function ExtractResult(r: Reply): Result<Payload> {
    match r
    case NilReply => Failure("legacy async result returned nil")
    case TextReply(_, whole) => Success(whole)
    case Record(_, _, _, _, _, payload, isDict, whole) =>
      if payload.Some? then Success(payload.value)
      else if isDict then Failure("legacy async result response did not contain payload")
      else Success(whole)
  }

  function Normalized(a: Adapter, st: JobStatus, fallback: string): JobStatus {
    st.(raw := st.status, status := Normalize(a, st.status, fallback))
  }

  // ---- The run of a legacy job ----

  function Judge(cfg: Config, jobID: string, e: Event): Verdict {
    match e
    case ContextEnded(who) => Ends(Cut(who, cfg.cutText, None))
    case Tick(CallCut(who), _) => Ends(Cut(who, cfg.cutText, None))
    case Tick(CallFailed(text), _) => Ends(Failing("status-failed", text, 0.0, None))
    case Tick(Answered(reply), result) =>
      match ParseStatus(reply, jobID)
      case Failure(text) => Ends(Failing("status-parse-failed", text, 0.0, None))
      case Success(parsed) => JudgeStatus(cfg, Normalized(cfg.adapter, parsed, "running"), result)
  }

  function JudgeStatus(cfg: Config, st: JobStatus, result: CallOutcome): Verdict {
    if st.status == "error" then
      Ends(Failing("query-failed", st.error, st.progress, Some(st)).(message := st.message))
    else if st.status == "cancelled" then
      Ends(Failing("cancelled", st.error, st.progress, Some(st)).(state := "cancelled", message := st.message))
    else if st.status == "done" then
      if st.payload != Null then Ends(JudgePayload(cfg, st, st.payload))
      else if cfg.adapter.result == "" then Ends(Failing("result-unavailable", cfg.noResult, st.progress, Some(st)))
      else Ends(JudgeResult(cfg, st, result))
    else Goes(st)
  }

  function JudgeResult(cfg: Config, st: JobStatus, result: CallOutcome): Ending {
    match result
    case CallCut(who) => Cut(who, cfg.cutText, Some(st))
    case CallFailed(text) => Failing("result-failed", text, st.progress, Some(st))
    case Answered(reply) =>
      match ExtractResult(reply)
      case Failure(text) => Failing("result-parse-failed", text, st.progress, Some(st))
      case Success(payload) => JudgePayload(cfg, st, payload)
  }

  function JudgePayload(cfg: Config, st: JobStatus, payload: Payload): Ending {
    match cfg.parse(payload)
    case ParseError(text) => Failing("parse-failed", text, st.progress, Some(st))
    case Frames(frames) => Completing(Some(st), st.(progress := 1.0), frames)
  }

  function JudgeFor(cfg: Config, jobID: string): Event -> Verdict {
    e => Judge(cfg, jobID, e)
  }

  function SetupFailure(cfg: Config, setup: Setup): Option<Ending> {
    if !Valid(cfg.adapter) then Some(Failing("configuration-invalid", cfg.badConfig, 0.0, None))
    else if setup.slot.Some? then Some(Failing("async-slot-unavailable", setup.slot.value.text, 0.0, None))
    else if setup.connection.Some? then Some(Failing("connection-failed", setup.connection.value, 0.0, None))
    else if setup.build.Some? then Some(Failing("request-build-failed", setup.build.value, 0.0, None))
    else
      match setup.submit
      case CallFailed(text) => Some(Failing("submit-failed", text, 0.0, None))
      case CallCut(who) => Some(Failing("submit-failed", cfg.submitCutText(who), 0.0, None))
      case Answered(reply) =>
        match ParseSubmit(reply, cfg.requestID)
        case Failure(text) => Some(Failing("submit-parse-failed", text, 0.0, None))
        case Success(_) => None
  }

  predicate TakesSlot(cfg: Config, setup: Setup) {
    Valid(cfg.adapter) && setup.slot.None?
  }

  function Submitted(cfg: Config, setup: Setup): JobStatus
    requires SetupFailure(cfg, setup).None?
  {
    Normalized(cfg.adapter, ParseSubmit(setup.submit.reply, cfg.requestID).value, "queued")
  }

  function Run(cfg: Config, setup: Setup, events: seq<Event>): JobRun {
    var failure := SetupFailure(cfg, setup);
    if failure.Some? then JobRun(cfg.requestID, false, [], failure)
    else
      var st := Submitted(cfg, setup);
      Followed(JudgeFor(cfg, st.id), st.id, st, events)
  }

  // ---- The streaming driver ----

  predicate CancelsFor(cfg: Config, jobID: string, e: Ending, cancels: seq<string>) {
    cancels == if e.byContext && cfg.adapter.cancel != "" && jobID != "" then [jobID] else []
  }

  /** The sender after the one terminal control of an ending without frames. */
  lemma OneTerminal(jobID: string, e: Ending, ok: nat -> bool, from: nat)
    requires e.frames == []
    ensures Attempted(EndFrames(jobID, e), ok, from) == [Control(e.state, jobID, e.message, e.error, e.progress, true)]
  {
    var last := Control(e.state, jobID, e.message, e.error, e.progress, true);
    assert EndFrames(jobID, e) == [last];
    assert [last][1..] == [];
  }

  /** What one turn of the streaming loop does for a verdict. */
  ghost predicate StreamedTurn(cfg: Config, jobID: string, v: Verdict, before: seq<Emitted>, sender: StreamSender,
                               over: bool, failed: bool, cancels: seq<string>, st: JobStatus)
    reads sender
  {
    match v
    case Goes(status) =>
      && sender.sent == before + [StatusFrame(jobID, status)] && st == status
      && over == failed == !sender.ok(|before|) && cancels == []
    case Ends(e) =>
      && sender.sent == before + Attempted(EndFrames(jobID, e), sender.ok, |before|)
      && over && (failed <==> e.completed.Some? && !AllSent(EndFrames(jobID, e), sender.ok, |before|))
      && CancelsFor(cfg, jobID, e, cancels)
  }

  method StreamError(sender: StreamSender, jobID: string, text: string, progress: real, ghost e: Ending)
    requires e.frames == [] && e.state == "error" && e.message == "" && e.error == text && e.progress == progress
    modifies sender
    ensures sender.sent == old(sender.sent) + Attempted(EndFrames(jobID, e), sender.ok, |old(sender.sent)|)
  {
    OneTerminal(jobID, e, sender.ok, |sender.sent|);
    var _ := sender.Send(Control("error", jobID, "", text, progress, true));
  }

  /** `finishContext`: the job is cancelled before the subscriber is told. */
  method StreamCut(cfg: Config, jobID: string, who: ContextEnd, sender: StreamSender, ghost polled: Option<JobStatus>)
    returns (cancels: seq<string>)
    modifies sender
    ensures StreamedTurn(cfg, jobID, Ends(Cut(who, cfg.cutText, polled)), old(sender.sent), sender,
                         true, false, cancels, Blank(""))
  {
    ghost var e := Cut(who, cfg.cutText, polled);
    OneTerminal(jobID, e, sender.ok, |sender.sent|);
    cancels := if cfg.adapter.cancel != "" && jobID != "" then [jobID] else [];
    if who.BySubscriber? {
      var _ := sender.Send(Control("cancelled", jobID, "", cfg.cutText(who), 1.0, true));
    } else {
      var _ := sender.Send(Control("error", jobID, "", cfg.cutText(who), 1.0, true));
    }
  }

  method StreamPayload(cfg: Config, jobID: string, st: JobStatus, payload: Payload, sender: StreamSender)
    returns (failed: bool)
    modifies sender
    ensures StreamedTurn(cfg, jobID, Ends(JudgePayload(cfg, st, payload)), old(sender.sent), sender,
                         true, failed, [], st)
  {
    var parsed := cfg.parse(payload);
    match parsed {
      case ParseError(text) =>
        StreamError(sender, jobID, text, st.progress, JudgePayload(cfg, st, payload));
        return false;
      case Frames(frames) =>
        failed := sender.SendEnding(jobID, Completing(Some(st), st.(progress := 1.0), frames));
    }
  }

  method StreamDone(cfg: Config, jobID: string, st: JobStatus, result: CallOutcome, sender: StreamSender)
    returns (failed: bool, cancels: seq<string>)
    requires st.status == "done"
    modifies sender
    ensures StreamedTurn(cfg, jobID, JudgeStatus(cfg, st, result), old(sender.sent), sender, true, failed, cancels, st)
  {
    failed, cancels := false, [];
    var payload := st.payload;
    if payload == Null {
      ghost var e := JudgeStatus(cfg, st, result).ending;
      if cfg.adapter.result == "" {
        StreamError(sender, jobID, cfg.noResult, st.progress, e);
        return;
      }
      if result.CallCut? {
        cancels := StreamCut(cfg, jobID, result.who, sender, Some(st));
        return;
      }
      if result.CallFailed? {
        StreamError(sender, jobID, result.text, st.progress, e);
        return;
      }
      var extracted := ExtractResult(result.reply);
      if extracted.Failure? {
        StreamError(sender, jobID, extracted.error, st.progress, e);
        return;
      }
      payload := extracted.value;
    }
    failed := StreamPayload(cfg, jobID, st, payload, sender);
  }

  method StreamStatus(cfg: Config, jobID: string, st: JobStatus, result: CallOutcome, sender: StreamSender)
    returns (over: bool, failed: bool, cancels: seq<string>)
    modifies sender
    ensures StreamedTurn(cfg, jobID, JudgeStatus(cfg, st, result), old(sender.sent), sender, over, failed, cancels, st)
  {
    over, failed, cancels := true, false, [];
    if st.status == "error" {
      OneTerminal(jobID, JudgeStatus(cfg, st, result).ending, sender.ok, |sender.sent|);
      var _ := sender.Send(Control("error", jobID, st.message, st.error, st.progress, true));
    } else if st.status == "cancelled" {
      OneTerminal(jobID, JudgeStatus(cfg, st, result).ending, sender.ok, |sender.sent|);
      var _ := sender.Send(Control("cancelled", jobID, st.message, st.error, st.progress, true));
    } else if st.status == "done" {
      failed, cancels := StreamDone(cfg, jobID, st, result, sender);
    } else {
      var delivered := sender.Send(Control(st.status, jobID, st.message, st.error, st.progress, false));
      over, failed := !delivered, !delivered;
    }
  }

  /** One turn of the streaming poll loop. */
  method StreamTurn(cfg: Config, jobID: string, e: Event, sender: StreamSender)
    returns (over: bool, failed: bool, cancels: seq<string>, st: JobStatus)
    modifies sender
    ensures StreamedTurn(cfg, jobID, Judge(cfg, jobID, e), old(sender.sent), sender, over, failed, cancels, st)
  {
    over, failed, cancels, st := true, false, [], Blank("");
    if e.ContextEnded? {
      cancels := StreamCut(cfg, jobID, e.who, sender, None);
      return;
    }
    if e.poll.CallCut? {
      cancels := StreamCut(cfg, jobID, e.poll.who, sender, None);
      return;
    }
    if e.poll.CallFailed? {
      StreamError(sender, jobID, e.poll.text, 0.0, Judge(cfg, jobID, e).ending);
      return;
    }
    var parsed := ParseStatus(e.poll.reply, jobID);
    if parsed.Failure? {
      StreamError(sender, jobID, parsed.error, 0.0, Judge(cfg, jobID, e).ending);
      return;
    }
    var raw := parsed.value.status;
    st := parsed.value.(raw := raw, status := Normalize(cfg.adapter, raw, "running"));
    over, failed, cancels := StreamStatus(cfg, jobID, st, e.result, sender);
  }

  /** Everything before the first poll; a failure is sent as the terminal control. */
  method StreamStart(cfg: Config, setup: Setup, sender: StreamSender, slot: S.SlotUse)
    returns (rejected: bool, st: JobStatus)
    requires slot.Valid() && slot.Fresh()
    modifies sender, slot
    ensures slot.Valid() && slot.Started(TakesSlot(cfg, setup))
    ensures rejected == SetupFailure(cfg, setup).Some?
    ensures rejected ==>
              sender.sent == old(sender.sent)
                             + Attempted(EndFrames(cfg.requestID, SetupFailure(cfg, setup).value),
                                         sender.ok, |old(sender.sent)|)
    ensures !rejected ==> sender.sent == old(sender.sent) && st == Submitted(cfg, setup)
  {
    ghost var failure := SetupFailure(cfg, setup);
    rejected, st := true, Blank("");
    if cfg.adapter.submit == "" || cfg.adapter.status == "" {
      slot.Make(S.Invalid);
      StreamError(sender, cfg.requestID, cfg.badConfig, 0.0, failure.value);
      return;
    }
    if setup.slot.Some? {
      slot.Refuse(setup.slot.value);
      StreamError(sender, cfg.requestID, setup.slot.value.text, 0.0, failure.value);
      return;
    }
    slot.Make(S.Acquire);
    if setup.connection.Some? {
      StreamError(sender, cfg.requestID, setup.connection.value, 0.0, failure.value);
      return;
    }
    if setup.build.Some? {
      StreamError(sender, cfg.requestID, setup.build.value, 0.0, failure.value);
      return;
    }
    if !setup.submit.Answered? {
      var text := if setup.submit.CallFailed? then setup.submit.text else cfg.submitCutText(setup.submit.who);
      StreamError(sender, cfg.requestID, text, 0.0, failure.value);
      return;
    }
    var parsed := ParseSubmit(setup.submit.reply, cfg.requestID);
    if parsed.Failure? {
      StreamError(sender, cfg.requestID, parsed.error, 0.0, failure.value);
      return;
    }
    var raw := parsed.value.status;
    return false, parsed.value.(raw := raw, status := Normalize(cfg.adapter, raw, "queued"));
  }

  method RunStream(cfg: Config, setup: Setup, events: seq<Event>, sender: StreamSender, slot: S.SlotUse)
    returns (returned: bool, failed: bool, cancels: seq<string>)
    requires sender.sent == [] && slot.Valid() && slot.Fresh()
    modifies sender, slot
    ensures StreamedRun(cfg.adapter.cancel, Run(cfg, setup, events), sender, returned, failed, cancels)
    ensures slot.Valid() && slot.Came(TakesSlot(cfg, setup), returned)
  {
    var rejected, first := StreamStart(cfg, setup, sender, slot);
    if rejected {
      slot.Return();
      assert Streamed(Run(cfg, setup, events)) == EndFrames(cfg.requestID, SetupFailure(cfg, setup).value);
      return true, false, [];
    }
    slot.Make(S.Start);
    returned, failed, cancels := PollStream(cfg, first, events, sender);
    if returned {
      slot.Return();
    }
  }

  /** The poll loop of the streaming driver. */
  method PollStream(cfg: Config, first: JobStatus, events: seq<Event>, sender: StreamSender)
    returns (returned: bool, failed: bool, cancels: seq<string>)
    requires sender.sent == []
    modifies sender
    ensures StreamedRun(cfg.adapter.cancel, Followed(JudgeFor(cfg, first.id), first.id, first, events), sender,
                        returned, failed, cancels)
  {
    var jobID := first.id;
    ghost var judge := JudgeFor(cfg, jobID);
    ghost var run := Followed(judge, jobID, first, events);
    ghost var seen := [first];
    FollowKeepsSeen(judge, JobRun(jobID, true, seen, None), events);
    var delivered := sender.Send(Control(first.status, jobID, first.message, first.error, first.progress, false));
    if !delivered {
      StopsAtLostStatus(run, [], first, sender.ok);
      return true, true, [];
    }
    assert events[0..] == events;
    for i := 0 to |events|
      invariant run == Follow(judge, JobRun(jobID, true, seen, None), events[i..])
      invariant sender.sent == StatusFrames(jobID, seen) && AllSent(StatusFrames(jobID, seen), sender.ok, 0)
    {
      FollowOne(judge, JobRun(jobID, true, seen, None), events, i);
      var over, st;
      over, failed, cancels, st := StreamTurn(cfg, jobID, events[i], sender);
      ghost var v := Judge(cfg, jobID, events[i]);
      if over {
        if v.Goes? {
          FollowKeepsSeen(judge, JobRun(jobID, true, seen + [v.status], None), events[i + 1..]);
        }
        TurnEndsStream(cfg, run, seen, v, sender, failed, cancels, st);
        return true, failed, cancels;
      }
      StatusFramesGrow(jobID, seen, st);
      OneMoreStatusSent(jobID, seen, st, sender.ok);
      seen := seen + [st];
    }
    StreamsEnding(run, sender.ok);
    return false, false, [];
  }

  /** The turn after which the streaming loop returns. */
  lemma TurnEndsStream(cfg: Config, run: JobRun, seen: seq<JobStatus>, v: Verdict, sender: StreamSender,
                       failed: bool, cancels: seq<string>, st: JobStatus)
    requires run.submitted && AllSent(StatusFrames(run.jobID, seen), sender.ok, 0)
    requires StreamedTurn(cfg, run.jobID, v, StatusFrames(run.jobID, seen), sender, true, failed, cancels, st)
    requires match v
             case Goes(status) => seen + [status] <= run.seen
             case Ends(e) => run.seen == seen && run.ending == Some(e)
    ensures StreamedRun(cfg.adapter.cancel, run, sender, true, failed, cancels)
  {
    match v
    case Goes(status) =>
      StopsAtLostStatus(run, seen, status, sender.ok);
      StatusFramesGrow(run.jobID, seen, status);
    case Ends(e) =>
      StreamsEnding(run, sender.ok);
  }

  // ---- The waiting driver ----

  /** What one turn of the waiting loop does for a verdict. */
  ghost predicate WaitedTurn(cfg: Config, jobID: string, v: Verdict, before: WaitResult, resp: WaitResponse,
                             over: bool, cancels: seq<string>, st: JobStatus)
    reads resp
  {
    match v
    case Goes(status) =>
      && resp.View() == AddStatus(before, resp.requestID, status.status, status, false)
      && !over && st == status && cancels == []
    case Ends(e) =>
      resp.View() == AddEnding(before, resp.requestID, jobID, e) && over && CancelsFor(cfg, jobID, e, cancels)
  }

  /** `finishContext` of the waiting driver. */
  method WaitCut(cfg: Config, jobID: string, who: ContextEnd, resp: WaitResponse) returns (cancels: seq<string>)
    modifies resp
    ensures resp.View() == AddEnding(old(resp.View()), resp.requestID, jobID, Cut(who, cfg.cutText, None))
    ensures CancelsFor(cfg, jobID, Cut(who, cfg.cutText, None), cancels)
  {
    cancels := if cfg.adapter.cancel != "" && jobID != "" then [jobID] else [];
    if who.BySubscriber? {
      resp.Reject("cancelled", "cancelled", jobID, cfg.cutText(who), 1.0);
    } else {
      resp.Reject("timeout", "error", jobID, cfg.cutText(who), 1.0);
    }
  }

  /** A finished job: its poll is already recorded, its result still missing. */
  method WaitDone(cfg: Config, jobID: string, st: JobStatus, result: CallOutcome, resp: WaitResponse)
    returns (cancels: seq<string>)
    requires st.status == "done"
    modifies resp
    ensures var e := JudgeStatus(cfg, st, result).ending;
            && resp.View() == AddEnding(old(resp.View()), resp.requestID, jobID, e.(polled := None))
            && CancelsFor(cfg, jobID, e, cancels)
  {
    cancels := [];
    var payload := st.payload;
    if payload == Null {
      if cfg.adapter.result == "" {
        resp.Reject("result-unavailable", "error", jobID, cfg.noResult, st.progress);
        return;
      }
      if result.CallCut? {
        cancels := WaitCut(cfg, jobID, result.who, resp);
        return;
      }
      if result.CallFailed? {
        resp.Reject("result-failed", "error", jobID, result.text, st.progress);
        return;
      }
      var extracted := ExtractResult(result.reply);
      if extracted.Failure? {
        resp.Reject("result-parse-failed", "error", jobID, extracted.error, st.progress);
        return;
      }
      payload := extracted.value;
    }
    var parsed := cfg.parse(payload);
    match parsed {
      case ParseError(text) => resp.Reject("parse-failed", "error", jobID, text, st.progress);
      case Frames(frames) => resp.Finish(frames, st.(status := "done", progress := 1.0));
    }
  }

  method WaitStatus(cfg: Config, jobID: string, st: JobStatus, result: CallOutcome, resp: WaitResponse)
    returns (over: bool, cancels: seq<string>)
    modifies resp
    ensures WaitedTurn(cfg, jobID, JudgeStatus(cfg, st, result), old(resp.View()), resp, over, cancels, st)
  {
    over, cancels := true, [];
    resp.Record(st.status, st, false);
    if st.status == "error" {
      resp.Reject("query-failed", "error", jobID, st.error, st.progress);
    } else if st.status == "cancelled" {
      resp.Reject("cancelled", "cancelled", jobID, st.error, st.progress);
    } else if st.status == "done" {
      cancels := WaitDone(cfg, jobID, st, result, resp);
    } else {
      over := false;
    }
  }

  /** One turn of the waiting poll loop. */
  method WaitTurn(cfg: Config, jobID: string, e: Event, resp: WaitResponse)
    returns (over: bool, cancels: seq<string>, st: JobStatus)
    modifies resp
    ensures WaitedTurn(cfg, jobID, Judge(cfg, jobID, e), old(resp.View()), resp, over, cancels, st)
  {
    over, cancels, st := true, [], Blank("");
    if e.ContextEnded? {
      cancels := WaitCut(cfg, jobID, e.who, resp);
      return;
    }
    if e.poll.CallCut? {
      cancels := WaitCut(cfg, jobID, e.poll.who, resp);
      return;
    }
    if e.poll.CallFailed? {
      resp.Reject("status-failed", "error", jobID, e.poll.text, 0.0);
      return;
    }
    var parsed := ParseStatus(e.poll.reply, jobID);
    if parsed.Failure? {
      resp.Reject("status-parse-failed", "error", jobID, parsed.error, 0.0);
      return;
    }
    var raw := parsed.value.status;
    st := parsed.value.(raw := raw, status := Normalize(cfg.adapter, raw, "running"));
    over, cancels := WaitStatus(cfg, jobID, st, e.result, resp);
  }

  /** Everything before the first poll; a failure is the response. */
  method WaitStart(cfg: Config, setup: Setup, resp: WaitResponse, slot: S.SlotUse)
    returns (rejected: bool, st: JobStatus)
    requires slot.Valid() && slot.Fresh()
    modifies resp, slot
    ensures slot.Valid() && slot.Started(TakesSlot(cfg, setup))
    ensures rejected == SetupFailure(cfg, setup).Some?
    ensures rejected ==>
              resp.View() == AddEnding(old(resp.View()), resp.requestID, cfg.requestID, SetupFailure(cfg, setup).value)
    ensures !rejected ==> resp.View() == old(resp.View()) && st == Submitted(cfg, setup)
  {
    rejected, st := true, Blank("");
    if cfg.adapter.submit == "" || cfg.adapter.status == "" {
      slot.Make(S.Invalid);
      resp.Reject("configuration-invalid", "error", cfg.requestID, cfg.badConfig, 0.0);
      return;
    }
    if setup.slot.Some? {
      slot.Refuse(setup.slot.value);
      resp.Reject("async-slot-unavailable", "error", cfg.requestID, setup.slot.value.text, 0.0);
      return;
    }
    slot.Make(S.Acquire);
    if setup.connection.Some? {
      resp.Reject("connection-failed", "error", cfg.requestID, setup.connection.value, 0.0);
      return;
    }
    if setup.build.Some? {
      resp.Reject("request-build-failed", "error", cfg.requestID, setup.build.value, 0.0);
      return;
    }
    if !setup.submit.Answered? {
      var text := if setup.submit.CallFailed? then setup.submit.text else cfg.submitCutText(setup.submit.who);
      resp.Reject("submit-failed", "error", cfg.requestID, text, 0.0);
      return;
    }
    var parsed := ParseSubmit(setup.submit.reply, cfg.requestID);
    if parsed.Failure? {
      resp.Reject("submit-parse-failed", "error", cfg.requestID, parsed.error, 0.0);
      return;
    }
    var raw := parsed.value.status;
    return false, parsed.value.(raw := raw, status := Normalize(cfg.adapter, raw, "queued"));
  }

  method RunWait(cfg: Config, setup: Setup, events: seq<Event>, resp: WaitResponse, slot: S.SlotUse)
    returns (returned: bool, cancels: seq<string>)
    requires resp.View() == WAIT_START && resp.requestID == cfg.requestID && slot.Valid() && slot.Fresh()
    modifies resp, slot
    ensures resp.View() == Awaited(cfg.requestID, Run(cfg, setup, events))
    ensures returned <==> Run(cfg, setup, events).ending.Some?
    ensures cancels == Cancels(cfg.adapter.cancel, Run(cfg, setup, events))
    ensures slot.Valid() && slot.Came(TakesSlot(cfg, setup), returned)
  {
    var rejected, first := WaitStart(cfg, setup, resp, slot);
    if rejected {
      slot.Return();
      return true, [];
    }
    slot.Make(S.Start);
    returned, cancels := PollWait(cfg, first, events, resp);
    if returned {
      slot.Return();
    }
  }

  /** The poll loop of the waiting driver. */
  method PollWait(cfg: Config, first: JobStatus, events: seq<Event>, resp: WaitResponse)
    returns (returned: bool, cancels: seq<string>)
    requires resp.View() == WAIT_START
    modifies resp
    ensures var run := Followed(JudgeFor(cfg, first.id), first.id, first, events);
            && resp.View() == Awaited(resp.requestID, run)
            && (returned <==> run.ending.Some?) && cancels == Cancels(cfg.adapter.cancel, run)
  {
    var jobID := first.id;
    ghost var judge := JudgeFor(cfg, jobID);
    ghost var run := Followed(judge, jobID, first, events);
    ghost var seen := [first];
    resp.Record(first.status, first, false);
    AddSeenOne(resp.requestID, [], first);
    assert events[0..] == events;
    for i := 0 to |events|
      invariant run == Follow(judge, JobRun(jobID, true, seen, None), events[i..])
      invariant resp.View() == AddSeen(WAIT_START, resp.requestID, seen)
    {
      FollowOne(judge, JobRun(jobID, true, seen, None), events, i);
      var over, st;
      over, cancels, st := WaitTurn(cfg, jobID, events[i], resp);
      if over {
        return true, cancels;
      }
      AddSeenOne(resp.requestID, seen, st);
      seen := seen + [st];
    }
    return false, [];
  }
}
