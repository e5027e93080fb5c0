/** The end of a job that the plugin itself runs, read off what happened to it. */
module PluginOutcomes {
  import opened Wrappers
  import opened AsyncJob
  import opened AsyncTheorems
  import opened JobOutcomes
  import P = PluginAsync

  predicate OnlyTicks(events: seq<P.Event>, n: nat) {
    n <= |events| && forall i | 0 <= i < n :: events[i].Ticked?
  }

  function EventEnd(cfg: P.Config, e: P.Event): End
    requires !e.Ticked?
  {
    match e
    case SubscriberGone => Interrupted(BySubscriber, cfg.subscriberText)
    case TimedOut => Interrupted(ByTimeout, cfg.timeoutText)
    case QueryFailed(text) => Broken("query-failed", text, 1.0)
    case QueryAnswered(result) =>
      match cfg.parse(result)
      case ParseError(text) => Broken("parse-failed", text, 1.0)
      case Frames(frames) => Finished("", frames)
  }

  /** The first thing that happens but ticks decides how both drivers end, and neither driver asks a
      gateway to cancel anything. */
  lemma PluginEndsSo(cfg: P.Config, setup: P.Setup, events: seq<P.Event>, n: nat)
    requires setup.slot.None? && setup.connection.None?
    requires OnlyTicks(events, n) && n < |events| && !events[n].Ticked?
    ensures var run, waited, end := P.Run(cfg, setup, events), P.WaitRun(cfg, setup, events), EventEnd(cfg, events[n]);
            && StreamEnds(Streamed(run), cfg.requestID, end)
            && WaitEnds(Awaited(cfg.requestID, waited), cfg.requestID, end)
            && |ProgressStates(Streamed(run))| == n + 1
  {
    PluginRunUpTo(cfg, setup, events, n);
    EndIsShown(cfg.requestID, P.Run(cfg, setup, events));
    EndIsShown(cfg.requestID, P.WaitRun(cfg, setup, events));
    StreamedObservations(P.Run(cfg, setup, events));
  }

  lemma PluginRunUpTo(cfg: P.Config, setup: P.Setup, events: seq<P.Event>, n: nat)
    requires setup.slot.None? && setup.connection.None?
    requires OnlyTicks(events, n) && n < |events| && !events[n].Ticked?
    ensures var run, waited := P.Run(cfg, setup, events), P.WaitRun(cfg, setup, events);
            && run.jobID == waited.jobID == cfg.requestID && |run.seen| == n + 1
            && run.ending.Some? && waited.ending == run.ending
            && Proper(run.ending.value) && EndOf(run.ending.value) == EventEnd(cfg, events[n])
  {
    RunUpTo(P.JudgeFor(cfg), cfg.requestID, P.Queued(cfg), events, n);
  }

  /** Without a slot or a connection, that is the end. */
  lemma PluginSetUpFailureIsShown(cfg: P.Config, setup: P.Setup, events: seq<P.Event>)
    requires setup.slot.Some? || setup.connection.Some?
    ensures var end := if setup.slot.Some? then Broken("async-slot-unavailable", setup.slot.value.text, 0.0)
                       else Broken("connection-failed", setup.connection.value, 0.0);
            && StreamEnds(Streamed(P.Run(cfg, setup, events)), cfg.requestID, end)
            && WaitEnds(Awaited(cfg.requestID, P.WaitRun(cfg, setup, events)), cfg.requestID, end)
  {
    EndIsShown(cfg.requestID, P.Run(cfg, setup, events));
    EndIsShown(cfg.requestID, P.WaitRun(cfg, setup, events));
  }

  /** Each tick is shown as half done. */
  lemma PluginTicksAreShown(cfg: P.Config, setup: P.Setup, events: seq<P.Event>, n: nat, i: nat)
    requires setup.slot.None? && setup.connection.None?
    requires OnlyTicks(events, n) && (n < |events| ==> !events[n].Ticked?) && i <= n
    ensures var sent := Streamed(P.Run(cfg, setup, events));
            && i < |sent|
            && sent[i] == if i == 0 then Control("queued", cfg.requestID, "", "", 0.0, false)
                          else Control("running", cfg.requestID, "", "", 0.5, false)
  {
    RunUpTo(P.JudgeFor(cfg), cfg.requestID, P.Queued(cfg), events, n);
    if i > 0 { assert P.Run(cfg, setup, events).seen[(i - 1) + 1] == P.JudgeFor(cfg)(events[i - 1]).status; }
  }
}
