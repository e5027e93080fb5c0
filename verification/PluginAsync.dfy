/** Jobs the plugin itself runs on one connection. */
module PluginAsync {
  import opened Wrappers
  import opened AsyncJob
  import S = AsyncSlots

  datatype Config = Config(
    requestID: string,
    parse: Payload -> Parsed,
    subscriberText: string,
    timeoutText: string)

  datatype Setup = Setup(slot: Option<S.Refusal>, connection: Option<string>)

  /** `Ticked` is the ticker that only the streaming driver has. */
  datatype Event = Ticked | SubscriberGone | TimedOut | QueryFailed(text: string) | QueryAnswered(result: Payload)

  function Queued(cfg: Config): JobStatus {
    Blank(cfg.requestID).(status := "queued")
  }

  function Running(cfg: Config): JobStatus {
    Blank(cfg.requestID).(status := "running", progress := 0.5)
  }

  /** A plugin-managed job never reports a status of its own, so no poll is ever recorded. */
  function Judge(cfg: Config, e: Event): Verdict {
    match e
    case Ticked => Goes(Running(cfg))
    case SubscriberGone => Ends(Cut(BySubscriber, _ => cfg.subscriberText, None))
    case TimedOut => Ends(Cut(ByTimeout, _ => cfg.timeoutText, None))
    case QueryFailed(text) => Ends(Failing("query-failed", text, 1.0, None))
    case QueryAnswered(result) =>
      match cfg.parse(result)
      case ParseError(text) => Ends(Failing("parse-failed", text, 1.0, None))
      case Frames(frames) =>
        Ends(Completing(None, Blank(cfg.requestID).(status := "done", progress := 1.0), frames))
  }

  function JudgeFor(cfg: Config): Event -> Verdict {
    e => Judge(cfg, e)
  }

  function NoSlot(setup: Setup): Ending
    requires setup.slot.Some?
  {
    Failing("async-slot-unavailable", setup.slot.value.text, 0.0, None)
  }

  function NoConnection(setup: Setup): Ending
    requires setup.connection.Some?
  {
    Failing("connection-failed", setup.connection.value, 0.0, None)
  }

  function Run(cfg: Config, setup: Setup, events: seq<Event>): JobRun {
    if setup.slot.Some? then JobRun(cfg.requestID, false, [], Some(NoSlot(setup)))
    else if setup.connection.Some? then JobRun(cfg.requestID, true, [Queued(cfg)], Some(NoConnection(setup)))
    else Followed(JudgeFor(cfg), cfg.requestID, Queued(cfg), events)
  }

  /** The waiting driver reports "running" once instead of once per tick. */
  function WaitRun(cfg: Config, setup: Setup, events: seq<Event>): JobRun {
    var run := Run(cfg, setup, events);
    if setup.slot.Some? || setup.connection.Some? then run
    else run.(seen := [Queued(cfg), Running(cfg)])
  }

  method RunStream(cfg: Config, setup: Setup, events: seq<Event>, sender: StreamSender, slot: S.SlotUse)
    returns (returned: bool, failed: bool, cancels: seq<string>)
    requires sender.sent == [] && slot.Valid() && slot.Fresh()
    modifies sender, slot
    ensures cancels == [] && StreamedRun("", Run(cfg, setup, events), sender, returned, failed, cancels)
    ensures slot.Valid() && slot.Came(setup.slot.None?, returned)
  {
    if setup.slot.Some? {
      slot.Refuse(setup.slot.value);
      failed := sender.SendEnding(cfg.requestID, NoSlot(setup));
      slot.Return();
      assert Streamed(Run(cfg, setup, events)) == EndFrames(cfg.requestID, NoSlot(setup));
      return true, failed, [];
    }
    slot.Make(S.Acquire);
    if setup.connection.Some? {
      ghost var run := Run(cfg, setup, events);
      var delivered := sender.Send(StatusFrame(cfg.requestID, Queued(cfg)));
      if !delivered {
        StopsAtLostStatus(run, [], Queued(cfg), sender.ok);
        slot.Return();
        return true, true, [];
      }
      failed, cancels := sender.EndJob(run, cfg.requestID, NoConnection(setup), "");
      slot.Return();
      return true, failed, cancels;
    }
    slot.Make(S.Start);
    var ending;
    returned, failed, cancels, ending := sender.FollowJob(JudgeFor(cfg), cfg.requestID, Queued(cfg), events, "");
    if returned {
      slot.Return();
    }
  }

  method RunWait(cfg: Config, setup: Setup, events: seq<Event>, resp: WaitResponse, slot: S.SlotUse)
    returns (returned: bool)
    requires resp.View() == WAIT_START && resp.requestID == cfg.requestID && slot.Valid() && slot.Fresh()
    modifies resp, slot
    ensures resp.View() == Awaited(cfg.requestID, WaitRun(cfg, setup, events))
    ensures returned <==> WaitRun(cfg, setup, events).ending.Some?
    ensures slot.Valid() && slot.Came(setup.slot.None?, returned)
  {
    if setup.slot.Some? {
      slot.Refuse(setup.slot.value);
      resp.End(cfg.requestID, NoSlot(setup));
      slot.Return();
      return true;
    }
    slot.Make(S.Acquire);
    resp.Record("queued", Queued(cfg), false);
    AddSeenOne(cfg.requestID, [], Queued(cfg));
    if setup.connection.Some? {
      resp.End(cfg.requestID, NoConnection(setup));
      slot.Return();
      return true;
    }
    slot.Make(S.Start);
    resp.Record("running", Running(cfg), false);
    AddSeenOne(cfg.requestID, [Queued(cfg)], Running(cfg));
    ghost var judge := JudgeFor(cfg);
    ghost var run := JobRun(cfg.requestID, true, [Queued(cfg)], None);
    assert events[0..] == events;
    var i := 0;
    while i < |events|
      invariant 0 <= i <= |events| && run.ending.None? && run.submitted && run.jobID == cfg.requestID
      invariant Follow(judge, run, events[i..]) == Run(cfg, setup, events)
      invariant resp.View() == AddSeen(WAIT_START, cfg.requestID, [Queued(cfg), Running(cfg)])
      invariant slot.Valid() && slot.pc.Polling? && slot.moves == [S.Acquire, S.Start]
    {
      FollowOne(judge, run, events, i);
      match Judge(cfg, events[i]) {
        case Ends(ending) =>
          resp.End(cfg.requestID, ending);
          slot.Return();
          return true;
        case Goes(st) =>
          run := run.(seen := run.seen + [st]);
      }
      i := i + 1;
    }
    return false;
  }
}
