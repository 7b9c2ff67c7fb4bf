/** The engines as the objects they are in the source, with their fields updated step by
    step, each method proved against the functions of Responses and Engines. */
module EngineObjects {
  import opened Transcript
  import opened ToolBatches
  import opened Responses
  import opened Engines
  import opened RunProperties

  /** The counters of core/run_state.go that handling a response changes. */
  class RunCounters {
    var retries: int
    var toolCalls: int
    var toolRetries: map<string, int>

    function View(): Counters
      reads this
    {
      Counters(retries, toolCalls, toolRetries)
    }

    /** core/deferred.go incrementRetries. */
    method IncrementRetries(p: Policy, h: seq<Message>, malformed: bool) returns (err: Option<Err>)
      modifies this`retries
      ensures retries == old(retries) + 1
      ensures err == if retries > p.maxRetries then Some(OverRetried(h, malformed)) else None
    {
      retries := retries + 1;
      err := None;
      if retries > p.maxRetries {
        err := Some(OverRetried(h, malformed));
      }
    }

    /** The loop over output tool calls; `exit` says why it stopped. */
    method AcceptOutputs(p: Policy, h: seq<Message>, o: Oracle, calls: seq<Call>, answers: seq<RequestPart>)
      returns (result: Option<string>, parts: seq<RequestPart>, exit: Exit)
      modifies this`retries
      ensures Outputs(retries, result, parts, exit) ==
        OutputLoop(p, h, o, calls, Outputs(old(retries), None, answers, Going))
    {
      ghost var start := Outputs(retries, None, answers, Going);
      result, parts, exit := None, answers, Going;
      var k := 0;
      while k < |calls| && exit.Going?
        invariant k <= |calls|
        invariant exit.Going? ==> Outputs(retries, result, parts, exit) == OutputLoop(p, h, o, calls[..k], start)
        invariant !exit.Going? ==> Outputs(retries, result, parts, exit) == OutputLoop(p, h, o, calls, start)
        decreases |calls| - k
      {
        var c := calls[k];
        assert calls[..k + 1][..k] == calls[..k];
        match o.output(k) {
          case Refuse(what) =>
            exit := Stuck(OutputRefused(what));
          case Again(feedback) =>
            var err := IncrementRetries(p, h, o.malformed);
            if err.Some? {
              exit := Stuck(err.value);
            } else {
              parts := parts + [RetryPrompt(feedback, c.tool, c.id)];
            }
          case Good(output) =>
            if result.None? {
              result := Some(output);
              parts := parts + [ToolReturn(c.tool, Str("output accepted"), c.id)];
              if p.early {
                exit := Early;
              }
            } else {
              parts := parts + [ToolReturn(c.tool, Str("output already accepted; duplicate ignored"), c.id)];
            }
        }
        k := k + 1;
        if !exit.Going? {
          StoppedLoopStays(p, h, o, calls, k, start);
        }
      }
      assert calls[..|calls|] == calls;
    }

    /** Batch the calls and run them, counting those that start. */
    method RunBatches(p: Policy, o: Oracle, calls: seq<Call>, outs: seq<ToolOut>) returns (end: Outcome)
      requires Runnable(p, calls) && outs == Outs(o, |calls|)
      modifies this`toolCalls, this`toolRetries
      ensures end == Execute(JobOf(p, o, calls), 0).0
      ensures toolCalls == old(toolCalls) + CountLive(outs, Execute(JobOf(p, o, calls), 0).1)
      ensures toolRetries == Tally(old(toolRetries), calls, outs, Execute(JobOf(p, o, calls), 0).1, o.landing)
    {
      var batches := BuildBatches(SafeFlags(p, calls));
      var (e, reach) := Execute(Job(batches, outs, o.cancelAt, p.maxConcurrency), 0);
      end := e;
      toolCalls := toolCalls + CountLive(outs, reach);
      toolRetries := Tally(toolRetries, calls, outs, reach, o.landing);
    }

    /** Run the function calls and part the deferred ones from the answered ones. */
    method ExecuteTools(p: Policy, o: Oracle, calls: seq<Call>, result: Option<string>, answers: seq<RequestPart>)
        returns (v: Verdict)
      requires Runnable(p, calls)
      modifies this
      ensures (View(), v) == RunTools(p, o, old(View()), calls, result, answers)
    {
      if calls == [] {
        v := Turned(result, answers, [], false);
      } else if p.toolCallsLimit.Some? && toolCalls + |calls| > p.toolCallsLimit.value {
        v := Broken(ToolCallLimit);
      } else {
        v := RunCalls(p, o, calls, result, answers);
      }
    }

    method RunCalls(p: Policy, o: Oracle, calls: seq<Call>, result: Option<string>, answers: seq<RequestPart>)
        returns (v: Verdict)
      requires Runnable(p, calls)
      modifies this
      ensures (View(), v) == RunJob(p, o, old(View()), calls, result, answers)
    {
      var outs := Outs(o, |calls|);
      var end := RunBatches(p, o, calls, outs);
      v := ConcludeTools(end, calls, outs, result, answers);
    }

    /** Deferred calls are set apart, and the retry allowance is renewed. */
    method ConcludeTools(end: Outcome, calls: seq<Call>, outs: seq<ToolOut>, result: Option<string>,
        answers: seq<RequestPart>) returns (v: Verdict)
      requires |calls| == |outs|
      modifies this`retries
      ensures (View(), v) == ToolVerdict(old(View()), end, calls, outs, result, answers)
    {
      if end.ContextDone? {
        v := Broken(ContextEnded);
      } else if end.FatalTool? {
        v := Broken(ToolBroke(end.reason));
      } else {
        var parts, deferred := PartResults(calls, outs);
        retries := 0;
        v := Turned(result, answers + parts, deferred, true);
      }
    }

    method ProcessResponse(p: Policy, h: seq<Message>, parts: seq<ResponsePart>, finish: FinishReason, o: Oracle)
        returns (v: Verdict)
      modifies this
      ensures (View(), v) == Process(p, h, old(View()), parts, finish, o)
    {
      var calls := Calls(parts);
      if calls == [] {
        var feedback := EMPTY_RESPONSE;
        if TextContent(parts) != "" && p.allowsText {
          match o.text {
            case Good(output) => return Turned(Some(output), [], [], false);
            case Refuse(what) => return Broken(OutputRefused(what));
            case Again(f) => feedback := f;
          }
        } else if finish.Length? {
          return Broken(CutByLength);
        } else if finish.ContentFilter? {
          return Broken(Filtered);
        }
        var err := IncrementRetries(p, h, o.malformed);
        if err.Some? {
          return Broken(err.value);
        }
        return Turned(None, [RetryPrompt(feedback, "", "")], [], false);
      }
      var outputs, functions, unknown := SortCalls(p, calls);
      var answers := [];
      if unknown != [] {
        var err := IncrementRetries(p, h, o.malformed);
        if err.Some? {
          return Broken(err.value);
        }
        answers := AnswerUnknown(unknown);
      }
      var result, exit;
      result, answers, exit := AcceptOutputs(p, h, o, outputs, answers);
      match exit {
        case Stuck(err) => return Broken(err);
        case Early => return Turned(result, answers, [], false);
        case Going =>
      }
      v := ExecuteTools(p, o, functions, result, answers);
    }
  }

  lemma {:induction false} StoppedLoopStays(p: Policy, h: seq<Message>, o: Oracle, calls: seq<Call>, k: nat,
      start: Outputs)
    requires k <= |calls| && !OutputLoop(p, h, o, calls[..k], start).exit.Going?
    ensures OutputLoop(p, h, o, calls, start) == OutputLoop(p, h, o, calls[..k], start)
    decreases |calls| - k
  {
    if k == |calls| {
      assert calls[..k] == calls;
    } else {
      assert calls[..k + 1][..k] == calls[..k];
      StoppedLoopStays(p, h, o, calls, k + 1, start);
    }
  }

  /** Deferred calls are set apart from the answered ones. */
  method PartResults(calls: seq<Call>, outs: seq<ToolOut>) returns (parts: seq<RequestPart>, deferred: seq<Call>)
    requires |calls| == |outs|
    ensures parts == ToolAnswers(calls, outs) && deferred == DeferredCalls(calls, outs)
  {
    parts, deferred := [], [];
    for i := 0 to |calls|
      invariant parts == ToolAnswers(calls[..i], outs[..i])
      invariant deferred == DeferredCalls(calls[..i], outs[..i])
    {
      assert calls[..i + 1][..i] == calls[..i] && outs[..i + 1][..i] == outs[..i];
      var a := AnswerFor(calls[i], outs[i]);
      if outs[i].Deferred? {
        deferred := deferred + [calls[i]];
      } else if a.Some? {
        parts := parts + [a.value];
      }
    }
    assert calls[..|calls|] == calls && outs[..|calls|] == outs;
  }

  method SortCalls(p: Policy, calls: seq<Call>) returns (outputs: seq<Call>, functions: seq<Call>, unknown: seq<Call>)
    ensures outputs == Pick(p, Output, calls) && functions == Pick(p, Function, calls) &&
      unknown == Pick(p, Unknown, calls)
  {
    outputs, functions, unknown := [], [], [];
    for i := 0 to |calls|
      invariant outputs == Pick(p, Output, calls[..i])
      invariant functions == Pick(p, Function, calls[..i])
      invariant unknown == Pick(p, Unknown, calls[..i])
    {
      assert calls[..i + 1][..i] == calls[..i];
      if calls[i].tool in p.outputTools {
        outputs := outputs + [calls[i]];
      } else if calls[i].tool in p.tools {
        functions := functions + [calls[i]];
      } else {
        unknown := unknown + [calls[i]];
      }
    }
    assert calls[..|calls|] == calls;
  }

  method AnswerUnknown(calls: seq<Call>) returns (parts: seq<RequestPart>)
    ensures parts == UnknownAnswers(calls)
  {
    parts := [];
    for i := 0 to |calls|
      invariant parts == UnknownAnswers(calls[..i])
    {
      assert calls[..i + 1][..i] == calls[..i];
      parts := parts + [UnknownAnswer(calls[i])];
    }
    assert calls[..|calls|] == calls;
  }

  /** core/run_engine.go turnEngine, over the turns the outside will grant. */
  class TurnEngine {
    const agent: Agent
    const script: seq<Turn>
    var run: Run
    var settings: Option<Settings>
    var cursor: nat

    constructor (agent: Agent, script: seq<Turn>, run: Run, settings: Option<Settings>)
      ensures this.agent == agent && this.script == script && this.run == run && this.settings == settings &&
        cursor == 0
    {
      this.agent, this.script, this.run, this.settings, cursor := agent, script, run, settings, 0;
    }

    ghost predicate Valid()
      reads this
    {
      Configured(agent) && cursor <= |script| && Lively(run, false)
    }

    /** Where the run is bound to end. */
    ghost function Fate(): (Engine, Option<Signal>)
      reads this
      requires Valid()
    {
      RunLoop(agent, Engine(run, settings), script[cursor..])
    }

    /** Step up to the model's reply. `local` are the settings of this request; the
        engine's own, when there are some, are the same object. */
    method OpenTurn(t: Turn) returns (local: Option<Settings>, err: Option<Err>)
      requires Configured(agent)
      modifies this`run, this`settings
      ensures Opened(run, local, settings, err) == StepOpen(agent, Engine(old(run), old(settings)), t)
    {
      local := settings;
      err := Blocked(agent, run, t);
      if err.Some? {
        return;
      }
      run := run.(step := run.step + 1, events := run.events + [TurnStarted(run.step + 1)]);
      if agent.toolChoice.Some? {
        if local.None? {
          local := Some(Settings(agent.toolChoice, 0));
        } else if local.value.choice.None? {
          local := Some(local.value.(choice := agent.toolChoice));
          settings := local;
        }
      }
      run := run.(messages := Compacted(agent, run, t));
      if t.prep.Some? {
        run := Complete(run, true);
        err := Some(Preparation(t.prep.value));
        return;
      }
      run := run.(sent := run.sent + [Sent(run.messages, if local.None? then None else local.value.choice)]);
      if t.reply.NoReply? {
        run := Complete(run, true);
        err := Some(ModelFailed);
      }
    }

    /** Step from the model's reply on. */
    method CloseTurn(t: Turn, local: Option<Settings>) returns (sig: Signal)
      requires t.reply.Reply?
      modifies this`run, this`settings
      ensures (Engine(run, settings), sig) == StepClose(agent, Opened(old(run), local, old(settings), None), t)
    {
      var reply := t.reply;
      run := CountRequest(run, reply.usage);
      if t.dropped {
        run := Complete(run, false).(notes := run.notes + [DroppedTurn]);
        return Dropped;
      }
      settings := local;
      if agent.autoReset && Calls(reply.parts) != [] && settings.Some? && settings.value.choice.Some? {
        settings := Some(settings.value.(choice := Some(AUTO)));
      }
      run := run.(messages := run.messages + [Response(reply.parts, reply.finish, reply.usage)]);
      sig := HandleResponse(t);
    }

    /** Step after the response has been recorded. */
    method HandleResponse(t: Turn) returns (sig: Signal)
      requires t.reply.Reply?
      modifies this`run
      ensures (run, sig) == HandleStep(agent, old(run), t)
    {
      if TokensOver(agent.limits, run.usage.tokens) {
        run := Complete(run, true);
        return Failed(TokenLimit);
      }
      if t.stop.StopWith? {
        run := Complete(run, false);
        return Finished(t.stop.output);
      }
      if t.stop.StopFor? {
        run := Complete(run, true);
        return Failed(ConditionStop(t.stop.what));
      }
      var (c, v) := agent.handle(run.messages, CountersOf(run), t.reply.parts, t.reply.finish, t.oracle);
      sig := SettleTurn(t, c, v);
    }

    method SettleTurn(t: Turn, c: Counters, v: Verdict) returns (sig: Signal)
      modifies this`run
      ensures (run, sig) == Settle(old(run), t, c, v)
    {
      run := WithCounters(run, c);
      if v.Broken? {
        run := Complete(run, true);
        return Failed(v.err);
      }
      if v.answers != [] {
        run := run.(messages := run.messages + [Request(v.answers)]);
      }
      if v.deferred != [] {
        run := Complete(run, false);
        return Signal.Waiting(v.deferred);
      }
      if v.result.Some? {
        run := Complete(run, t.storeFails);
        return if t.storeFails then Failed(KnowledgeStore) else Finished(v.result.value);
      }
      run := Complete(run, false).(notes := run.notes + [if v.ran then ToolTurn else IdleTurn]);
      sig := Onward;
    }

    /** Step repeats while responses are dropped; none when the script runs dry. */
    method Step() returns (sig: Option<Signal>)
      requires Valid()
      modifies this
      ensures Valid() && cursor >= old(cursor)
      ensures sig.Some? ==> !sig.value.Dropped? && cursor > old(cursor)
      ensures sig.None? ==> cursor == |script|
      ensures if sig.Some? && Ends(sig.value) then old(Fate()) == (Engine(run, settings), sig)
        else Fate() == old(Fate())
    {
      while cursor < |script|
        invariant Valid() && cursor >= old(cursor) && Fate() == old(Fate())
        decreases |script| - cursor
      {
        var t := script[cursor];
        assert script[cursor..][1..] == script[cursor + 1..];
        StepBalancesEvents(agent, Engine(run, settings), t);
        cursor := cursor + 1;
        var local, err := OpenTurn(t);
        if err.Some? {
          return Some(Failed(err.value));
        }
        var s := CloseTurn(t, local);
        if !s.Dropped? {
          return Some(s);
        }
      }
      sig := None;
    }

    /** core/agent.go runLoop. */
    method RunToEnd() returns (sig: Option<Signal>)
      requires Valid()
      modifies this
      ensures Valid() && (Engine(run, settings), sig) == old(Fate())
    {
      while true
        invariant Valid() && Fate() == old(Fate())
        decreases |script| - cursor
      {
        sig := Step();
        if sig.None? || Ends(sig.value) {
          return;
        }
      }
    }
  }

  datatype Read = Chunk | EndOfStream | ReadError(signal: Signal) | NoMore

  /** core/stream.go agentStream without a steer queue. `current` is the open provider
      stream and `left` the chunks it still holds. */
  class AgentStream {
    const agent: Agent
    const script: seq<Delivery>
    var run: Run
    var settings: Option<Settings>
    var current: Option<Delivery>
    var left: nat
    var turnOpen: bool
    var done: bool
    var outcome: Option<Signal>
    var cursor: nat

    constructor (agent: Agent, script: seq<Delivery>, run: Run, settings: Option<Settings>)
      requires Configured(agent) && Lively(run, false)
      ensures Valid() && !done && current.None? && cursor == 0 && View() == Stream(run, settings, false, false, None)
      ensures this.agent == agent && this.script == script
    {
      this.agent, this.script, this.run, this.settings := agent, script, run, settings;
      current, left, turnOpen, done, outcome, cursor := None, 0, false, false, None, 0;
    }

    function View(): Stream
      reads this
    {
      Stream(run, settings, turnOpen, done, outcome)
    }

    /** Turn events alternate, a turn is open exactly while its stream is, and a finished
        stream has no open turn. */
    ghost predicate Valid()
      reads this
    {
      && Configured(agent) && cursor <= |script| && Lively(run, turnOpen)
      && (turnOpen <==> current.Some?) && (done ==> !turnOpen) && (done <==> outcome.Some?)
    }

    /** The state that reading the stream to its end leads to. */
    ghost function Fate(): Stream
      reads this
      requires Valid()
    {
      Drain(agent, if current.None? then View() else TurnRest(agent, View(), current.value), script[cursor..])
    }

    method FinishRun(sig: Signal)
      requires Lively(run, turnOpen)
      modifies this
      ensures View() == Finish(old(View()), sig) && current.None? && cursor == old(cursor) && left == old(left) &&
        Lively(run, false)
    {
      current := None;
      if turnOpen {
        CompleteCloses(run);
        run := Complete(run, sig.Failed? || sig.Waiting?);
        turnOpen := false;
      }
      done, outcome := true, Some(sig);
    }

    method BeginTurn() returns (err: Option<Err>)
      requires Valid() && !done && current.None? && cursor < |script|
      modifies this
      ensures cursor == old(cursor) + 1 && !done && outcome.None?
      ensures (View(), err) == StartTurn(agent, old(View()), script[old(cursor)])
      ensures Lively(run, turnOpen) && (turnOpen <==> err.None?)
      ensures current == if err.None? then Some(script[old(cursor)]) else None
    {
      var d := script[cursor];
      StartKeepsLively(agent, View(), d);
      cursor := cursor + 1;
      err := OpenTurn(d);
      if err.None? {
        current, left := Some(d), d.chunks;
      }
    }

    /** startTurn. */
    method OpenTurn(d: Delivery) returns (err: Option<Err>)
      requires Configured(agent)
      modifies this`run, this`settings, this`turnOpen
      ensures (View(), err) == StartTurn(agent, old(View()), d)
    {
      err := Blocked(agent, run, d.turn);
      if err.Some? {
        return;
      }
      run := run.(step := run.step + 1, events := run.events + [TurnStarted(run.step + 1)]);
      var local := settings;
      if agent.toolChoice.Some? {
        if local.None? {
          local := Some(Settings(agent.toolChoice, 0));
        } else if local.value.choice.None? {
          local := Some(local.value.(choice := agent.toolChoice));
          settings := local;
        }
      }
      run := run.(messages := Compacted(agent, run, d.turn));
      if d.turn.prep.Some? {
        run := Complete(run, true);
        err := Some(Preparation(d.turn.prep.value));
        return;
      }
      run := run.(sent := run.sent + [Sent(run.messages, if local.None? then None else local.value.choice)]);
      if d.turn.reply.NoReply? && d.failure.AtRequest? {
        run := Complete(run, true);
        err := Some(ModelFailed);
        return;
      }
      settings, turnOpen := local, true;
    }

    method EndTurn() returns (stop: Option<Signal>)
      requires Valid() && current.Some?
      modifies this
      ensures cursor == old(cursor) && left == old(left) && current.None?
      ensures (View(), stop) == CompleteTurn(agent, old(View()), old(current).value)
      ensures Lively(run, turnOpen) && (turnOpen ==> stop.Some?) && (done <==> outcome.Some?) && (done ==> stop.None?)
    {
      CompleteKeepsLively(agent, View(), current.value);
      var d := current.value;
      current := None;
      stop := CloseTurn(d);
    }

    /** completeTurn. */
    method CloseTurn(d: Delivery) returns (stop: Option<Signal>)
      modifies this`run, this`settings, this`turnOpen, this`done, this`outcome
      ensures (View(), stop) == CompleteTurn(agent, old(View()), d)
    {
      if d.turn.reply.NoReply? {
        return Some(Failed(ModelFailed));
      }
      var reply := d.turn.reply;
      var usage := if ZeroUsage(d.own) then d.streamed else d.own;
      run := CountRequest(run, usage);
      if d.turn.dropped {
        run := run.(notes := run.notes + [DroppedTurn]);
        CompleteActiveTurn(false);
        return None;
      }
      if agent.autoReset && Calls(reply.parts) != [] && settings.Some? && settings.value.choice.Some? {
        settings := Some(settings.value.(choice := Some(AUTO)));
      }
      run := run.(messages := run.messages + [Response(reply.parts, reply.finish, usage)]);
      stop := HandleResponse(d.turn);
    }

    /** completeTurn after the response has been recorded. */
    method HandleResponse(t: Turn) returns (stop: Option<Signal>)
      requires t.reply.Reply?
      modifies this`run, this`turnOpen, this`done, this`outcome
      ensures (View(), stop) == HandleReply(agent, old(View()), t)
    {
      if TokensOver(agent.limits, run.usage.tokens) {
        CompleteActiveTurn(true);
        return Some(Failed(TokenLimit));
      }
      if t.stop.StopWith? {
        CompleteActiveTurn(false);
        done, outcome := true, Some(Finished(t.stop.output));
        return None;
      }
      if t.stop.StopFor? {
        CompleteActiveTurn(true);
        return Some(Failed(ConditionStop(t.stop.what)));
      }
      var (c, v) := agent.handle(run.messages, CountersOf(run), t.reply.parts, t.reply.finish, t.oracle);
      stop := SettleTurn(t, c, v);
    }

    /** completeActiveTurn. */
    method CompleteActiveTurn(failed: bool)
      modifies this`run, this`turnOpen
      ensures run == Complete(old(run), failed) && !turnOpen
    {
      run := Complete(run, failed);
      turnOpen := false;
    }

    /** The end of completeTurn, once the response has been handled. */
    method SettleTurn(t: Turn, c: Counters, v: Verdict) returns (stop: Option<Signal>)
      modifies this`run, this`turnOpen, this`done, this`outcome
      ensures (View(), stop) == SettleStream(old(View()), t, c, v)
    {
      run := WithCounters(run, c);
      if v.Broken? {
        CompleteActiveTurn(true);
        return Some(Failed(v.err));
      }
      if v.answers != [] {
        run := run.(messages := run.messages + [Request(v.answers)]);
      }
      if v.deferred != [] {
        CompleteActiveTurn(false);
        return Some(Signal.Waiting(v.deferred));
      }
      if v.result.Some? {
        CompleteActiveTurn(t.storeFails);
        if t.storeFails {
          return Some(Failed(KnowledgeStore));
        }
        done, outcome := true, Some(Finished(v.result.value));
        return None;
      }
      run := run.(notes := run.notes + [if v.ran then ToolTurn else IdleTurn]);
      CompleteActiveTurn(false);
      stop := None;
    }

    /** One round of the loop in Next; none if the loop goes on. */
    method Advance() returns (r: Option<Read>)
      requires Valid() && !done
      modifies this
      ensures Valid() && Fate() == old(Fate()) && cursor >= old(cursor)
      ensures r.None? ==>
                && !done
                && (cursor > old(cursor) ||
                    (old(current).Some? && current.None? && cursor == old(cursor) && left == old(left) == 0))
      ensures r == Some(Chunk) ==> cursor > old(cursor) || (cursor == old(cursor) && left < old(left))
      ensures r == Some(NoMore) ==> !done && cursor == |script| && current.None?
      ensures r.Some? && (r.value.EndOfStream? || r.value.ReadError?) ==> done
    {
      if current.None? {
        if cursor == |script| {
          return Some(NoMore);
        }
        assert script[cursor..][1..] == script[cursor + 1..];
        var err := BeginTurn();
        if err.Some? {
          FinishRun(Failed(err.value));
          return Some(ReadError(Failed(err.value)));
        }
      }
      if left > 0 {
        left := left - 1;
        return Some(Chunk);
      }
      r := EndOrFail();
    }

    method EndOrFail() returns (r: Option<Read>)
      requires Valid() && current.Some?
      modifies this
      ensures Valid() && Fate() == old(Fate()) && cursor == old(cursor) && left == old(left) && current.None?
      ensures r.None? <==> !done
      ensures r.Some? ==> r.value.EndOfStream? || r.value.ReadError?
    {
      if current.value.turn.reply.NoReply? && current.value.failure.MidStream? {
        FinishRun(Failed(ModelFailed));
        return Some(ReadError(Failed(ModelFailed)));
      }
      var stop := EndTurn();
      if stop.Some? {
        FinishRun(stop.value);
        return Some(ReadError(stop.value));
      }
      return if done then Some(EndOfStream) else None;
    }

    /** Next reads one chunk, starting and completing turns as needed. */
    method Next() returns (r: Read)
      requires Valid()
      modifies this
      ensures Valid() && Fate() == old(Fate()) && cursor >= old(cursor)
      ensures r.EndOfStream? || r.ReadError? ==> done
      ensures r.NoMore? ==> !done && cursor == |script| && current.None?
      ensures r.Chunk? ==> cursor > old(cursor) || (cursor == old(cursor) && left < old(left))
    {
      if done {
        return if outcome.value.Failed? || outcome.value.Waiting? then ReadError(outcome.value) else EndOfStream;
      }
      while true
        invariant Valid() && !done && Fate() == old(Fate()) && cursor >= old(cursor)
        invariant cursor == old(cursor) ==> left == old(left)
        decreases |script| - cursor, current.Some?
      {
        var next := Advance();
        if next.Some? {
          return next.value;
        }
      }
    }

    /** Close ends an unfinished run; its open turn is completed first. */
    method Close()
      requires Valid()
      modifies this
      ensures Valid() && done && current.None?
      ensures old(done) ==> View() == old(View())
      ensures !old(done) ==> View() == Finish(old(View()), Failed(ContextEnded))
    {
      current := None;
      if !done {
        FinishRun(Failed(ContextEnded));
      }
    }

    /** Result reads to the end. */
    method Result()
      requires Valid()
      modifies this
      ensures Valid() && View() == old(Fate())
    {
      while true
        invariant Valid() && Fate() == old(Fate())
        decreases |script| - cursor, left
      {
        var r := Next();
        if !r.Chunk? {
          return;
        }
      }
    }
  }

  lemma StartEventsOnce(a: Agent, s: Stream, d: Delivery)
    requires Configured(a) && !s.turnOpen
    ensures var (s', err) := StartTurn(a, s, d);
      && (s'.turnOpen <==> err.None?) && s'.done == s.done && s'.outcome == s.outcome
      && (s'.turnOpen ==> SameTurns(s'.run, Started(s.run)))
      && (!s'.turnOpen ==> SameTurns(s'.run, s.run) || SameTurns(s'.run, Complete(Started(s.run), true)))
  {
  }

  lemma StartKeepsLively(a: Agent, s: Stream, d: Delivery)
    requires Configured(a) && Lively(s.run, false) && !s.turnOpen
    ensures var (s', err) := StartTurn(a, s, d);
      Lively(s'.run, s'.turnOpen) && (s'.turnOpen <==> err.None?) && s'.done == s.done && s'.outcome == s.outcome
  {
    StartEventsOnce(a, s, d);
    StartOpens(s.run);
    CompleteCloses(Started(s.run));
  }

  lemma CompleteKeepsLively(a: Agent, s: Stream, d: Delivery)
    requires Lively(s.run, true) && s.turnOpen && !s.done && s.outcome.None?
    ensures var (s', stop) := CompleteTurn(a, s, d);
      Lively(s'.run, s'.turnOpen) && (s'.turnOpen ==> stop.Some?) && (s'.done <==> s'.outcome.Some?) &&
        (s'.done ==> stop.None?)
  {
    CompleteCloses(s.run);
    CompleteEventsOnce(a, s, d);
  }

  lemma CompleteEventsOnce(a: Agent, s: Stream, d: Delivery)
    requires s.turnOpen && !s.done && s.outcome.None?
    ensures var (s', stop) := CompleteTurn(a, s, d);
      && s'.run.step == s.run.step
      && (s'.turnOpen ==> stop.Some? && s' == s)
      && (!s'.turnOpen ==>
            s'.run.events == Complete(s.run, true).events || s'.run.events == Complete(s.run, false).events)
      && (s'.done <==> s'.outcome.Some?) && (s'.done ==> stop.None?)
  {
  }
}
