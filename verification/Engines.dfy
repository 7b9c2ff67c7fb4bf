/** The two implementations of an agent turn: the synchronous turnEngine.Step
    (core/run_engine.go) and the streaming startTurn/completeTurn (core/stream.go). */
module Engines {
  import opened Transcript
  import opened Responses
  import opened Compaction

  /* ----- run state ----- */

  datatype RunUsage = RunUsage(tokens: Usage, requests: int, toolCalls: int)

  datatype Limits = Limits(requests: Option<int>, input: Option<int>, output: Option<int>, total: Option<int>)

  datatype Settings = Settings(choice: Option<string>, other: int)

  const AUTO := "auto"

  /** How a response is handled; both engines call the same Agent.processResponse. */
  type Handler = (seq<Message>, Counters, seq<ResponsePart>, FinishReason, Oracle) -> (Counters, Verdict)

  datatype Agent = Agent(policy: Policy, handle: Handler, limits: Limits, toolChoice: Option<string>, autoReset: bool,
      autoContext: Option<AutoContext>)

  function NewAgent(p: Policy, limits: Limits, choice: Option<string>, autoReset: bool,
      auto: Option<AutoContext>): (a: Agent)
    ensures Handles(a)
  {
    Agent(p, (h, c, parts, finish, o) => Process(p, h, c, parts, finish, o), limits, choice, autoReset, auto)
  }

  /** The agent handles responses by Responses.Process under its own policy. */
  ghost predicate Handles(a: Agent) {
    forall h, c, parts, finish, o :: a.handle(h, c, parts, finish, o) == Process(a.policy, h, c, parts, finish, o)
  }

  datatype Event = TurnStarted(turn: nat) | TurnCompleted(turn: nat, failed: bool)

  /** One model request: the history behind it and the tool choice in force. */
  datatype Sent = Sent(history: seq<Message>, choice: Option<string>)

  /** How a turn that did not end the run went. */
  datatype Note = DroppedTurn | IdleTurn | ToolTurn

  /** core/run_state.go RunState, with what the event bus and the provider observed. */
  datatype Run = Run(
    messages: seq<Message>, usage: RunUsage, lastInput: int, retries: int, toolRetries: map<string, int>, step: nat,
    events: seq<Event>, sent: seq<Sent>, notes: seq<Note>)

  datatype Reply = NoReply | Reply(parts: seq<ResponsePart>, finish: FinishReason, usage: Usage)

  datatype StopCheck = GoOn | StopWith(output: string) | StopFor(what: string)

  /** Everything the outside decides during one turn: cancellation, quota, the token
      estimate and summary used by compaction, preparation failures (history processors,
      interceptors, guardrails), the model, response interceptors, run conditions, tools
      and validators, and the knowledge base. */
  datatype Turn = Turn(
    ended: bool, quota: bool, estimate: int, summary: Option<string>, prep: Option<string>,
    reply: Reply, dropped: bool, stop: StopCheck, oracle: Oracle, storeFails: bool)

  /** How a turn ended. */
  datatype Signal = Dropped | Onward | Finished(output: string) | Failed(err: Err) | Waiting(calls: seq<Call>)

  /* ----- shared by both engines in the source ----- */

  function AddUsage(u: Usage, v: Usage): Usage {
    Usage(u.input + v.input, u.output + v.output, u.cacheWrite + v.cacheWrite, u.cacheRead + v.cacheRead,
          map k | k in u.details.Keys + v.details.Keys ::
            (if k in u.details then u.details[k] else 0) + (if k in v.details then v.details[k] else 0))
  }

  function CountRequest(r: Run, usage: Usage): Run {
    r.(usage := r.usage.(tokens := AddUsage(r.usage.tokens, usage), requests := r.usage.requests + 1),
       lastInput := if usage.input > 0 then usage.input else r.lastInput)
  }

  predicate Over(limit: Option<int>, n: int) {
    limit.Some? && n > limit.value
  }

  predicate TokensOver(l: Limits, u: Usage) {
    Over(l.input, u.input) || Over(l.output, u.output) || Over(l.total, u.input + u.output)
  }

  /** The checks before a turn, in order. */
  function Blocked(a: Agent, r: Run, t: Turn): Option<Err> {
    if t.ended then Some(ContextEnded)
    else if a.limits.requests.Some? && r.usage.requests >= a.limits.requests.value then Some(RequestLimit)
    else if Over(a.policy.toolCallsLimit, r.usage.toolCalls) then Some(ToolCallsSpent)
    else if t.quota then Some(QuotaExceeded)
    else None
  }

  function Compacted(a: Agent, r: Run, t: Turn): seq<Message>
    requires a.autoContext.Some? ==> a.autoContext.value.keepLastN >= 1
  {
    if a.autoContext.None? then r.messages
    else
      var tokens := if r.lastInput > t.estimate then r.lastInput else t.estimate;
      Adopt(r.messages, Compress(a.autoContext.value, r.messages, tokens, t.summary))
  }

  function CountersOf(r: Run): Counters {
    Counters(r.retries, r.usage.toolCalls, r.toolRetries)
  }

  function WithCounters(r: Run, c: Counters): Run {
    r.(retries := c.retries, usage := r.usage.(toolCalls := c.toolCalls), toolRetries := c.toolRetries)
  }

  /** The settings the next request will be made with. */
  function Effective(a: Agent, s: Option<Settings>): Option<Settings> {
    if a.toolChoice.None? then s
    else if s.None? then Some(Settings(a.toolChoice, 0))
    else if s.value.choice.None? then Some(s.value.(choice := a.toolChoice))
    else s
  }

  predicate Configured(a: Agent) {
    a.autoContext.Some? ==> a.autoContext.value.keepLastN >= 1
  }

  function Complete(r: Run, failed: bool): Run {
    r.(events := r.events + [TurnCompleted(r.step, failed)])
  }

  /* ----- turnEngine.Step ----- */

  /** `settings` are the engine's own; a nil one stays nil until a response is kept. */
  datatype Engine = Engine(run: Run, settings: Option<Settings>)

  datatype Opened = Opened(run: Run, local: Option<Settings>, kept: Option<Settings>, err: Option<Err>)

  function StepOpen(a: Agent, e: Engine, t: Turn): Opened
    requires Configured(a)
  {
    var blocked := Blocked(a, e.run, t);
    if blocked.Some? then Opened(e.run, e.settings, e.settings, blocked)
    else
      var r1 := e.run.(step := e.run.step + 1, events := e.run.events + [TurnStarted(e.run.step + 1)]);
      var local := Effective(a, e.settings);
      var kept := if e.settings.None? then None else local;
      var r2 := r1.(messages := Compacted(a, r1, t));
      if t.prep.Some? then Opened(Complete(r2, true), local, kept, Some(Preparation(t.prep.value)))
      else
        var r3 := r2.(sent := r2.sent + [Sent(r2.messages, if local.None? then None else local.value.choice)]);
        if t.reply.NoReply? then Opened(Complete(r3, true), local, kept, Some(ModelFailed))
        else Opened(r3, local, kept, None)
  }

  function StepClose(a: Agent, o: Opened, t: Turn): (Engine, Signal)
    requires t.reply.Reply?
  {
    var reply := t.reply;
    var r1 := CountRequest(o.run, reply.usage);
    if t.dropped then (Engine(Complete(r1, false).(notes := r1.notes + [DroppedTurn]), o.kept), Dropped)
    else
      var settings :=
        if a.autoReset && Calls(reply.parts) != [] && o.local.Some? && o.local.value.choice.Some?
        then Some(o.local.value.(choice := Some(AUTO))) else o.local;
      var resp := Response(reply.parts, reply.finish, reply.usage);
      var (r, sig) := HandleStep(a, r1.(messages := r1.messages + [resp]), t);
      (Engine(r, settings), sig)
  }

  /** The part of Step after the response has been recorded. */
  function HandleStep(a: Agent, r: Run, t: Turn): (Run, Signal)
    requires t.reply.Reply?
  {
    if TokensOver(a.limits, r.usage.tokens) then (Complete(r, true), Failed(TokenLimit))
    else if t.stop.StopWith? then (Complete(r, false), Finished(t.stop.output))
    else if t.stop.StopFor? then (Complete(r, true), Failed(ConditionStop(t.stop.what)))
    else
      var (c, v) := a.handle(r.messages, CountersOf(r), t.reply.parts, t.reply.finish, t.oracle);
      Settle(r, t, c, v)
  }

  /** The end of Step, once the response has been handled. */
  function Settle(r: Run, t: Turn, c: Counters, v: Verdict): (Run, Signal) {
    var r3 := WithCounters(r, c);
    if v.Broken? then (Complete(r3, true), Failed(v.err))
    else
      var r4 := if v.answers == [] then r3 else r3.(messages := r3.messages + [Request(v.answers)]);
      if v.deferred != [] then (Complete(r4, false), Waiting(v.deferred))
      else if v.result.Some? then
        if t.storeFails then (Complete(r4, true), Failed(KnowledgeStore))
          else (Complete(r4, false), Finished(v.result.value))
      else (Complete(r4, false).(notes := r4.notes + [if v.ran then ToolTurn else IdleTurn]), Onward)
  }

  function StepTurn(a: Agent, e: Engine, t: Turn): (Engine, Signal)
    requires Configured(a)
  {
    var o := StepOpen(a, e, t);
    if o.err.Some? then (Engine(o.run, o.kept), Failed(o.err.value))
    else StepClose(a, o, t)
  }

  predicate Ends(s: Signal) {
    !s.Dropped? && !s.Onward?
  }

  /** Agent.runLoop over the turns that the outside grants it; none if it is still going. */
  function RunLoop(a: Agent, e: Engine, script: seq<Turn>): (Engine, Option<Signal>)
    requires Configured(a)
    decreases |script|
  {
    if script == [] then (e, None)
    else
      var (e', s) := StepTurn(a, e, script[0]);
      if Ends(s) then (e', Some(s)) else RunLoop(a, e', script[1..])
  }

  /* ----- agentStream ----- */

  datatype Failure = AtRequest | MidStream | NilResponse

  /** A streamed turn: as `turn`, but usage may come with the response or only with the
      stream, and a missing reply may show in three ways. */
  datatype Delivery = Delivery(turn: Turn, own: Usage, streamed: Usage, failure: Failure, chunks: nat)

  predicate ZeroUsage(u: Usage) {
    u.input == 0 && u.output == 0 && u.cacheWrite == 0 && u.cacheRead == 0 && |u.details| == 0
  }

  /** The same turn as a synchronous request would have answered it. */
  function Heard(d: Delivery): Turn {
    if d.turn.reply.NoReply? then d.turn
    else d.turn.(reply := d.turn.reply.(usage := if ZeroUsage(d.own) then d.streamed else d.own))
  }

  /** `turnOpen` is currentTurnRC != nil. */
  datatype Stream = Stream(run: Run, settings: Option<Settings>, turnOpen: bool, done: bool, outcome: Option<Signal>)

  function Finish(s: Stream, outcome: Signal): Stream {
    var failed := outcome.Failed? || outcome.Waiting?;
    Stream(if s.turnOpen then Complete(s.run, failed) else s.run, s.settings, false, true, Some(outcome))
  }

  function StartTurn(a: Agent, s: Stream, d: Delivery): (Stream, Option<Err>)
    requires Configured(a)
  {
    var t := d.turn;
    var blocked := Blocked(a, s.run, t);
    if blocked.Some? then (s, blocked)
    else
      var r1 := s.run.(step := s.run.step + 1, events := s.run.events + [TurnStarted(s.run.step + 1)]);
      var local := Effective(a, s.settings);
      var aliased := if s.settings.None? then None else local;
      var r2 := r1.(messages := Compacted(a, r1, t));
      if t.prep.Some? then (s.(run := Complete(r2, true), settings := aliased), Some(Preparation(t.prep.value)))
      else
        var r3 := r2.(sent := r2.sent + [Sent(r2.messages, if local.None? then None else local.value.choice)]);
        if t.reply.NoReply? && d.failure.AtRequest? then
          (s.(run := Complete(r3, true), settings := aliased), Some(ModelFailed))
        else
          (s.(run := r3, settings := local, turnOpen := true), None)
  }

  function CompleteActive(s: Stream, failed: bool): Stream {
    s.(run := Complete(s.run, failed), turnOpen := false)
  }

  /** The error or deferral that completeTurn returns, if any. */
  function CompleteTurn(a: Agent, s: Stream, d: Delivery): (Stream, Option<Signal>) {
    var t := d.turn;
    if t.reply.NoReply? then (s, Some(Failed(ModelFailed)))
    else
      var reply := t.reply;
      var usage := if ZeroUsage(d.own) then d.streamed else d.own;
      var s1 := s.(run := CountRequest(s.run, usage));
      if t.dropped then (CompleteActive(s1.(run := s1.run.(notes := s1.run.notes + [DroppedTurn])), false), None)
      else
        var settings :=
          if a.autoReset && Calls(reply.parts) != [] && s1.settings.Some? && s1.settings.value.choice.Some?
          then Some(s1.settings.value.(choice := Some(AUTO))) else s1.settings;
        var resp := Response(reply.parts, reply.finish, usage);
        HandleReply(a, s1.(settings := settings, run := s1.run.(messages := s1.run.messages + [resp])), t)
  }

  /** The part of completeTurn after the response has been recorded. */
  function HandleReply(a: Agent, s: Stream, t: Turn): (Stream, Option<Signal>)
    requires t.reply.Reply?
  {
    if TokensOver(a.limits, s.run.usage.tokens) then (CompleteActive(s, true), Some(Failed(TokenLimit)))
    else if t.stop.StopWith? then (Finish(CompleteActive(s, false), Finished(t.stop.output)), None)
    else if t.stop.StopFor? then (CompleteActive(s, true), Some(Failed(ConditionStop(t.stop.what))))
    else
      var (c, v) := a.handle(s.run.messages, CountersOf(s.run), t.reply.parts, t.reply.finish, t.oracle);
      SettleStream(s, t, c, v)
  }

  /** The end of completeTurn, once the response has been handled. */
  function SettleStream(s: Stream, t: Turn, c: Counters, v: Verdict): (Stream, Option<Signal>) {
    var s3 := s.(run := WithCounters(s.run, c));
    if v.Broken? then (CompleteActive(s3, true), Some(Failed(v.err)))
    else
      var s4 := if v.answers == [] then s3 else s3.(run := s3.run.(messages := s3.run.messages + [Request(v.answers)]));
      if v.deferred != [] then (CompleteActive(s4, false), Some(Waiting(v.deferred)))
      else if v.result.Some? then
        if t.storeFails then (CompleteActive(s4, true), Some(Failed(KnowledgeStore)))
        else (Finish(CompleteActive(s4, false), Finished(v.result.value)), None)
      else
        (CompleteActive(s4.(run := s4.run.(notes := s4.run.notes + [if v.ran then ToolTurn else IdleTurn])), false),
          None)
  }

  /** What is left of a turn once its request has been made. */
  function TurnRest(a: Agent, s: Stream, d: Delivery): Stream {
    if d.turn.reply.NoReply? && d.failure.MidStream? then Finish(s, Failed(ModelFailed))
    else
      var (s', stop) := CompleteTurn(a, s, d);
      if stop.Some? then Finish(s', stop.value) else s'
  }

  /** One turn of the loop in agentStream.Next, from request to end of stream. */
  function StreamTurn(a: Agent, s: Stream, d: Delivery): Stream
    requires Configured(a)
  {
    var (s', err) := StartTurn(a, s, d);
    if err.Some? then Finish(s', Failed(err.value)) else TurnRest(a, s', d)
  }

  /** Reading the stream to its end. */
  function Drain(a: Agent, s: Stream, script: seq<Delivery>): Stream
    requires Configured(a)
    decreases |script|
  {
    if s.done || script == [] then s
    else Drain(a, StreamTurn(a, s, script[0]), script[1..])
  }

  /* ----- the engines agree ----- */

  ghost predicate Agree(a: Agent, e: Engine, s: Stream) {
    e.run == s.run && Effective(a, e.settings) == Effective(a, s.settings) && !s.turnOpen && !s.done
  }

  lemma OpensAgree(a: Agent, e: Engine, s: Stream, d: Delivery)
    requires Configured(a) && Agree(a, e, s)
    ensures var o := StepOpen(a, e, Heard(d)); var (s1, err) := StartTurn(a, s, d);
      && !s1.done && Effective(a, o.kept) == Effective(a, s1.settings)
      && (err.Some? ==> o.err == err && o.run == s1.run && !s1.turnOpen)
      && (err.None? ==>
            && s1.turnOpen && o.local == s1.settings
            && if d.turn.reply.NoReply? then o.err == Some(ModelFailed) && o.run == Complete(s1.run, true)
               else o.err.None? && o.run == s1.run)
  {
  }

  /** A stream that stands where the synchronous engine stands after a turn. */
  ghost predicate Concluded(r: Run, sig: Signal, s: Stream) {
    r == s.run && !s.turnOpen && (Ends(sig) <==> s.done) && (Ends(sig) ==> s.outcome == Some(sig))
  }

  function Ended(s: Stream, stop: Option<Signal>): Stream {
    if stop.Some? then Finish(s, stop.value) else s
  }

  lemma SettlesAgree(s: Stream, t: Turn, t': Turn, c: Counters, v: Verdict)
    requires s.turnOpen && !s.done && t.storeFails == t'.storeFails
    ensures var (r, sig) := Settle(s.run, t', c, v); var (s2, stop) := SettleStream(s, t, c, v);
      Concluded(r, sig, Ended(s2, stop)) && Ended(s2, stop).settings == s.settings
  {
  }

  /** The response recorded in both histories, ready to be handled. */
  function Recorded(r: Run, d: Delivery): Run
    requires d.turn.reply.Reply?
  {
    var reply := Heard(d).reply;
    var r1 := CountRequest(r, reply.usage);
    r1.(messages := r1.messages + [Response(reply.parts, reply.finish, reply.usage)])
  }

  lemma HandlesAgree(a: Agent, s: Stream, d: Delivery)
    requires d.turn.reply.Reply? && s.turnOpen && !s.done
    ensures var (r, sig) := HandleStep(a, s.run, Heard(d)); var (s2, stop) := HandleReply(a, s, d.turn);
      Concluded(r, sig, Ended(s2, stop)) && Ended(s2, stop).settings == s.settings
  {
    var (c, v) := a.handle(s.run.messages, CountersOf(s.run), d.turn.reply.parts, d.turn.reply.finish, d.turn.oracle);
    SettlesAgree(s, d.turn, Heard(d), c, v);
  }

  lemma KeptReplyAgrees(a: Agent, o: Opened, s: Stream, d: Delivery)
    requires d.turn.reply.Reply? && o.run == s.run && o.local == s.settings && s.turnOpen && !s.done && !d.turn.dropped
    ensures var (e', sig) := StepClose(a, o, Heard(d)); var (s2, stop) := CompleteTurn(a, s, d);
      Concluded(e'.run, sig, Ended(s2, stop)) && e'.settings == Ended(s2, stop).settings
  {
    var settings :=
      if a.autoReset && Calls(d.turn.reply.parts) != [] && s.settings.Some? && s.settings.value.choice.Some?
      then Some(s.settings.value.(choice := Some(AUTO))) else s.settings;
    HandlesAgree(a, s.(run := Recorded(s.run, d), settings := settings), d);
  }

  lemma ClosesAgree(a: Agent, o: Opened, s: Stream, d: Delivery)
    requires d.turn.reply.Reply? && o.run == s.run && o.local == s.settings && s.turnOpen && !s.done
    requires Effective(a, o.kept) == Effective(a, s.settings)
    ensures var (e', sig) := StepClose(a, o, Heard(d)); var (s2, stop) := CompleteTurn(a, s, d);
      Concluded(e'.run, sig, Ended(s2, stop)) && Effective(a, e'.settings) == Effective(a, Ended(s2, stop).settings)
  {
    if !d.turn.dropped {
      KeptReplyAgrees(a, o, s, d);
    }
  }

  lemma TurnsAgree(a: Agent, e: Engine, s: Stream, d: Delivery)
    requires Configured(a) && Agree(a, e, s)
    ensures var (e', sig) := StepTurn(a, e, Heard(d)); var s' := StreamTurn(a, s, d);
      Concluded(e'.run, sig, s') && Effective(a, e'.settings) == Effective(a, s'.settings)
  {
    OpensAgree(a, e, s, d);
    if d.turn.reply.Reply? && StartTurn(a, s, d).1.None? {
      ClosesAgree(a, StepOpen(a, e, Heard(d)), StartTurn(a, s, d).0, d);
    }
  }

  function HeardAll(ds: seq<Delivery>): (ts: seq<Turn>)
    ensures |ts| == |ds|
  {
    if ds == [] then [] else [Heard(ds[0])] + HeardAll(ds[1..])
  }

  /** Draining the stream and running Step to completion against the same outside give the
      same history, usage, retry counters, run step, events and requests, the same effective
      settings, and the same outcome. */
  lemma {:induction false} EnginesAgree(a: Agent, e: Engine, s: Stream, script: seq<Delivery>)
    requires Configured(a) && Agree(a, e, s) && s.outcome.None?
    ensures var (e', sig) := RunLoop(a, e, HeardAll(script)); var s' := Drain(a, s, script);
      && e'.run == s'.run && Effective(a, e'.settings) == Effective(a, s'.settings)
      && sig == s'.outcome && (sig.Some? <==> s'.done)
    decreases |script|
  {
    if script != [] {
      var d := script[0];
      TurnsAgree(a, e, s, d);
      var (e', sig) := StepTurn(a, e, Heard(d));
      var s' := StreamTurn(a, s, d);
      assert HeardAll(script)[0] == Heard(d) && HeardAll(script)[1..] == HeardAll(script[1..]);
      if Ends(sig) {
        assert Drain(a, s', script[1..]) == s';
      } else {
        StillRunning(a, s, d);
        EnginesAgree(a, e', s', script[1..]);
      }
    }
  }

  lemma StillRunning(a: Agent, s: Stream, d: Delivery)
    requires Configured(a) && s.outcome.None? && !s.done && !StreamTurn(a, s, d).done
    ensures StreamTurn(a, s, d).outcome.None?
  {
  }
}
