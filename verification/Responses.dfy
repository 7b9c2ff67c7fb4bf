/** What the agent does with one model response (core/agent.go processResponse):
    accept an output, ask the model again, or run tools and collect their answers. */
module Responses {
  import opened Transcript
  import opened ToolBatches

  datatype Err =
    | ContextEnded | RequestLimit | ToolCallsSpent | ToolCallLimit | TokenLimit | QuotaExceeded
    | Preparation(what: string) | ModelFailed | ConditionStop(what: string)
    | TooManyRetries | IncompleteCall | OutputRefused(what: string)
    | CutByLength | Filtered | ToolBroke(what: string) | KnowledgeStore

  /** Agent options that decide how a response is handled. `tools` maps a function
      tool to whether it may run concurrently. */
  datatype Policy = Policy(
    outputTools: set<string>, tools: map<string, bool>, maxConcurrency: int,
    allowsText: bool, early: bool, maxRetries: int, toolCallsLimit: Option<int>)

  datatype Judgement = Good(output: string) | Again(feedback: string) | Refuse(what: string)

  /** Everything the outside decides while a response is handled: parsing, repair and
      validation of outputs, the tool handlers, cancellation, and in which order
      concurrently running tools touch their retry counters. */
  datatype Oracle = Oracle(
    text: Judgement, output: nat -> Judgement, tool: nat -> ToolOut,
    cancelAt: Option<nat>, landing: seq<nat>, malformed: bool)

  datatype Counters = Counters(retries: int, toolCalls: int, toolRetries: map<string, int>)

  datatype Verdict =
    | Broken(err: Err)
    | Turned(result: Option<string>, answers: seq<RequestPart>, deferred: seq<Call>, ran: bool)

  /* ----- retry accounting ----- */

  function LastResponse(h: seq<Message>): Option<Message> {
    if h == [] then None
    else if h[|h| - 1].Response? then Some(h[|h| - 1])
    else LastResponse(h[..|h| - 1])
  }

  function OverRetried(h: seq<Message>, malformed: bool): Err {
    var last := LastResponse(h);
    if last.Some? && last.value.Response? && last.value.finish.Length? && Calls(last.value.parts) != [] && malformed
    then IncompleteCall else TooManyRetries
  }

  /* ----- sorting the calls ----- */

  datatype Kind = Output | Function | Unknown

  function KindOf(p: Policy, c: Call): Kind {
    if c.tool in p.outputTools then Output else if c.tool in p.tools then Function else Unknown
  }

  function Pick(p: Policy, kind: Kind, calls: seq<Call>): (r: seq<Call>)
    ensures kind.Function? ==> Runnable(p, r)
  {
    if calls == [] then []
    else
      var n := |calls| - 1;
      var front := Pick(p, kind, calls[..n]);
      if KindOf(p, calls[n]) == kind then front + [calls[n]] else front
  }

  predicate Runnable(p: Policy, calls: seq<Call>) {
    forall i :: 0 <= i < |calls| ==> calls[i].tool in p.tools
  }

  lemma {:induction false} PickPartitions(p: Policy, calls: seq<Call>, k: Key)
    ensures Asked(Pick(p, Unknown, calls), k) + Asked(Pick(p, Output, calls), k) + Asked(Pick(p, Function, calls), k) ==
      Asked(calls, k)
  {
    if calls != [] {
      var n := |calls| - 1;
      PickPartitions(p, calls[..n], k);
      AskedSnoc(Pick(p, KindOf(p, calls[n]), calls[..n]), calls[n], k);
    }
  }

  lemma {:induction false} PickSizes(p: Policy, calls: seq<Call>)
    ensures |Pick(p, Unknown, calls)| + |Pick(p, Output, calls)| + |Pick(p, Function, calls)| == |calls|
  {
    if calls != [] {
      PickSizes(p, calls[..|calls| - 1]);
    }
  }

  function UnknownAnswer(c: Call): RequestPart {
    RetryPrompt("unknown tool " + c.tool, c.tool, c.id)
  }

  function UnknownAnswers(calls: seq<Call>): seq<RequestPart> {
    if calls == [] then []
    else UnknownAnswers(calls[..|calls| - 1]) + [UnknownAnswer(calls[|calls| - 1])]
  }

  lemma {:induction false} UnknownAnswersAnswer(calls: seq<Call>, k: Key)
    ensures Given(UnknownAnswers(calls), k) == Asked(calls, k)
  {
    if calls != [] {
      var n := |calls| - 1;
      UnknownAnswersAnswer(calls[..n], k);
      GivenSnoc(UnknownAnswers(calls[..n]), UnknownAnswer(calls[n]), k);
    }
  }

  /* ----- output tool calls ----- */

  datatype Exit = Going | Early | Stuck(err: Err)

  datatype Outputs = Outputs(retries: int, result: Option<string>, parts: seq<RequestPart>, exit: Exit)

  function OutputStep(p: Policy, h: seq<Message>, o: Oracle, k: nat, c: Call, acc: Outputs): Outputs {
    match o.output(k)
    case Refuse(what) => acc.(exit := Stuck(OutputRefused(what)))
    case Again(feedback) =>
      if acc.retries + 1 > p.maxRetries
        then acc.(retries := acc.retries + 1, exit := Stuck(OverRetried(h, o.malformed)))
      else acc.(retries := acc.retries + 1, parts := acc.parts + [RetryPrompt(feedback, c.tool, c.id)])
    case Good(output) =>
      if acc.result.Some? then
        acc.(parts := acc.parts + [ToolReturn(c.tool, Str("output already accepted; duplicate ignored"), c.id)])
      else
        acc.(result := Some(output),
             parts := acc.parts + [ToolReturn(c.tool, Str("output accepted"), c.id)],
             exit := if p.early then Early else Going)
  }

  function OutputLoop(p: Policy, h: seq<Message>, o: Oracle, calls: seq<Call>, start: Outputs): Outputs {
    if calls == [] then start
    else
      var n := |calls| - 1;
      var acc := OutputLoop(p, h, o, calls[..n], start);
      if acc.exit.Going? then OutputStep(p, h, o, n, calls[n], acc) else acc
  }

  /** Each output call sent back to the model costs a retry; a good one ends the loop
      at once in early mode. */
  lemma {:induction false} OutputLoopCosts(p: Policy, h: seq<Message>, o: Oracle, calls: seq<Call>, start: Outputs)
    requires start.exit.Going? && start.result.None?
    ensures var r := OutputLoop(p, h, o, calls, start);
      && start.retries <= r.retries && |start.parts| <= |r.parts|
      && (r.exit.Going? && r.retries > start.retries ==> r.retries <= p.maxRetries)
      && (r.exit.Going? && r.result.None? && calls != [] ==> r.retries > start.retries)
      && (r.exit.Going? && p.early ==> r.result.None?)
      && (r.exit.Early? ==> p.early && r.result.Some? && r.parts != [])
  {
    if calls != [] {
      OutputLoopCosts(p, h, o, calls[..|calls| - 1], start);
    }
  }

  /** While the loop goes on, every output call so far has been answered once. */
  lemma {:induction false} OutputLoopAnswers(p: Policy, h: seq<Message>, o: Oracle, calls: seq<Call>, start: Outputs,
      k: Key)
    requires OutputLoop(p, h, o, calls, start).exit.Going?
    ensures Given(OutputLoop(p, h, o, calls, start).parts, k) == Given(start.parts, k) + Asked(calls, k)
  {
    if calls != [] {
      var n := |calls| - 1;
      OutputLoopAnswers(p, h, o, calls[..n], start, k);
      OutputStepAnswers(p, h, o, n, calls[n], OutputLoop(p, h, o, calls[..n], start), k);
    }
  }

  lemma OutputStepAnswers(p: Policy, h: seq<Message>, o: Oracle, i: nat, c: Call, acc: Outputs, k: Key)
    requires !OutputStep(p, h, o, i, c, acc).exit.Stuck?
    ensures Given(OutputStep(p, h, o, i, c, acc).parts, k) == Given(acc.parts, k) + if KeyOf(c) == k then 1 else 0
  {
    GivenSnoc(acc.parts, OutputStep(p, h, o, i, c, acc).parts[|acc.parts|], k);
  }

  /** An early exit has answered exactly the calls up to the first good one. */
  lemma {:induction false} OutputLoopEarly(p: Policy, h: seq<Message>, o: Oracle, calls: seq<Call>, start: Outputs,
      k: Key) returns (i: nat)
    requires start.exit.Going? && start.result.None?
    requires OutputLoop(p, h, o, calls, start).exit.Early?
    ensures i < |calls| && FirstGood(o, i)
    ensures Given(OutputLoop(p, h, o, calls, start).parts, k) == Given(start.parts, k) + Asked(calls[..i + 1], k)
  {
    var n := |calls| - 1;
    var acc := OutputLoop(p, h, o, calls[..n], start);
    if acc.exit.Going? {
      i := n;
      OutputLoopAnswers(p, h, o, calls[..n], start, k);
      OutputStepAnswers(p, h, o, n, calls[n], acc, k);
      EarlierNotGood(p, h, o, calls[..n], start);
      assert calls[..n + 1] == calls;
    } else {
      i := OutputLoopEarly(p, h, o, calls[..n], start, k);
      assert calls[..n][..i + 1] == calls[..i + 1];
    }
  }

  ghost predicate FirstGood(o: Oracle, k: nat) {
    o.output(k).Good? && forall j: nat :: j < k ==> !o.output(j).Good?
  }

  lemma {:induction false} EarlierNotGood(p: Policy, h: seq<Message>, o: Oracle, calls: seq<Call>, start: Outputs)
    requires start.exit.Going? && start.result.None?
    requires OutputLoop(p, h, o, calls, start).exit.Going? && OutputLoop(p, h, o, calls, start).result.None?
    ensures forall j: nat :: j < |calls| ==> !o.output(j).Good?
  {
    if calls != [] {
      EarlierNotGood(p, h, o, calls[..|calls| - 1], start);
    }
  }

  /* ----- function tool calls ----- */

  function AnswerFor(c: Call, out: ToolOut): Option<RequestPart> {
    match out
    case Success(x) => Some(ToolReturn(c.tool, Str(x), c.id))
    case ErrorReturn(x) => Some(ToolReturn(c.tool, Str(x), c.id))
    case Cancelled(x) => Some(ToolReturn(c.tool, Str(x), c.id))
    case Retry(x) => Some(RetryPrompt(x, c.tool, c.id))
    case Denied(x) => Some(RetryPrompt(x, c.tool, c.id))
    case _ => None
  }

  function ToolAnswers(calls: seq<Call>, outs: seq<ToolOut>): seq<RequestPart>
    requires |calls| == |outs|
  {
    if calls == [] then []
    else
      var n := |calls| - 1;
      var a := AnswerFor(calls[n], outs[n]);
      var front := ToolAnswers(calls[..n], outs[..n]);
      if a.Some? then front + [a.value] else front
  }

  function DeferredCalls(calls: seq<Call>, outs: seq<ToolOut>): seq<Call>
    requires |calls| == |outs|
  {
    if calls == [] then []
    else
      var n := |calls| - 1;
      var front := DeferredCalls(calls[..n], outs[..n]);
      if outs[n].Deferred? then front + [calls[n]] else front
  }

  lemma AnswerForAnswers(c: Call, out: ToolOut, k: Key)
    requires !out.Fatal?
    ensures AnswerFor(c, out).Some? <==> !out.Deferred?
    ensures AnswerFor(c, out).Some? ==> (Answers(AnswerFor(c, out).value, k) <==> KeyOf(c) == k)
  {
  }

  lemma {:induction false} ToolAnswersPair(calls: seq<Call>, outs: seq<ToolOut>, k: Key)
    requires |calls| == |outs| && forall i :: 0 <= i < |outs| ==> !outs[i].Fatal?
    ensures Given(ToolAnswers(calls, outs), k) + Asked(DeferredCalls(calls, outs), k) == Asked(calls, k)
  {
    if calls != [] {
      var n := |calls| - 1;
      ToolAnswersPair(calls[..n], outs[..n], k);
      AnswerForAnswers(calls[n], outs[n], k);
      var answers, deferred := ToolAnswers(calls[..n], outs[..n]), DeferredCalls(calls[..n], outs[..n]);
      if outs[n].Deferred? {
        assert ToolAnswers(calls, outs) == answers;
        AskedSnoc(deferred, calls[n], k);
      } else {
        assert DeferredCalls(calls, outs) == deferred;
        GivenSnoc(answers, AnswerFor(calls[n], outs[n]).value, k);
      }
    }
  }

  /** Per-tool retry counters, updated in the order the tools finish. */
  function Tally(t: map<string, int>, calls: seq<Call>, outs: seq<ToolOut>, reach: nat,
      landing: seq<nat>): map<string, int>
    requires |calls| == |outs|
  {
    if landing == [] then t
    else
      var m := Tally(t, calls, outs, reach, landing[..|landing| - 1]);
      var i := landing[|landing| - 1];
      if i >= |calls| || i >= reach then m
      else if outs[i].Success? then m - {calls[i].tool}
      else if outs[i].Retry? then m[calls[i].tool := 1 + if calls[i].tool in m then m[calls[i].tool] else 0]
      else m
  }

  function SafeFlags(p: Policy, calls: seq<Call>): (flags: seq<bool>)
    requires Runnable(p, calls)
    ensures |flags| == |calls|
  {
    if calls == [] then [] else SafeFlags(p, calls[..|calls| - 1]) + [p.tools[calls[|calls| - 1].tool]]
  }

  function Outs(o: Oracle, n: nat): (outs: seq<ToolOut>)
    ensures |outs| == n && forall i :: 0 <= i < n ==> outs[i] == o.tool(i)
  {
    seq(n, i requires 0 <= i => o.tool(i))
  }

  function JobOf(p: Policy, o: Oracle, calls: seq<Call>): (j: Job)
    requires Runnable(p, calls)
    ensures Bounded(j) && |j.outs| == |calls|
  {
    Job(Batching(SafeFlags(p, calls)), Outs(o, |calls|), o.cancelAt, p.maxConcurrency)
  }

  /** Function calls, given that `answers` and `result` are already decided. */
  function RunTools(p: Policy, o: Oracle, c: Counters, calls: seq<Call>, result: Option<string>,
      answers: seq<RequestPart>): (Counters, Verdict)
    requires Runnable(p, calls)
  {
    if calls == [] then (c, Turned(result, answers, [], false))
    else if p.toolCallsLimit.Some? && c.toolCalls + |calls| > p.toolCallsLimit.value then (c, Broken(ToolCallLimit))
    else
      RunJob(p, o, c, calls, result, answers)
  }

  function RunJob(p: Policy, o: Oracle, c: Counters, calls: seq<Call>, result: Option<string>,
      answers: seq<RequestPart>): (Counters, Verdict)
    requires Runnable(p, calls)
  {
    var j := JobOf(p, o, calls);
    var (end, reach) := Execute(j, 0);
    var c' := c.(toolCalls := c.toolCalls + CountLive(j.outs, reach),
                 toolRetries := Tally(c.toolRetries, calls, j.outs, reach, o.landing));
    ToolVerdict(c', end, calls, j.outs, result, answers)
  }

  function ToolVerdict(c: Counters, end: Outcome, calls: seq<Call>, outs: seq<ToolOut>, result: Option<string>,
      answers: seq<RequestPart>): (Counters, Verdict)
    requires |calls| == |outs|
  {
    if end.ContextDone? then (c, Broken(ContextEnded))
    else if end.FatalTool? then (c, Broken(ToolBroke(end.reason)))
    else (c.(retries := 0), Turned(result, answers + ToolAnswers(calls, outs), DeferredCalls(calls, outs), true))
  }

  /* ----- the whole response ----- */

  function AskAgain(p: Policy, h: seq<Message>, o: Oracle, c: Counters, feedback: string): (Counters, Verdict) {
    var c' := c.(retries := c.retries + 1);
    if c'.retries > p.maxRetries then (c', Broken(OverRetried(h, o.malformed)))
    else (c', Turned(None, [RetryPrompt(feedback, "", "")], [], false))
  }

  const EMPTY_RESPONSE := "empty response, please provide a result"

  /** How a response that calls tools is handled, up to its function calls. */
  function OutputPhase(p: Policy, h: seq<Message>, c: Counters, calls: seq<Call>, o: Oracle): Outputs {
    var unknown := Pick(p, Unknown, calls);
    OutputLoop(p, h, o, Pick(p, Output, calls),
               Outputs(if unknown == [] then c.retries else c.retries + 1, None, UnknownAnswers(unknown), Going))
  }

  function Process(p: Policy, h: seq<Message>, c: Counters, parts: seq<ResponsePart>, finish: FinishReason,
      o: Oracle): (Counters, Verdict) {
    var calls := Calls(parts);
    if calls == [] && TextContent(parts) != "" && p.allowsText then
      match o.text
      case Good(output) => (c, Turned(Some(output), [], [], false))
      case Again(feedback) => AskAgain(p, h, o, c, feedback)
      case Refuse(what) => (c, Broken(OutputRefused(what)))
    else if calls == [] then
      if finish.Length? then (c, Broken(CutByLength))
      else if finish.ContentFilter? then (c, Broken(Filtered))
      else AskAgain(p, h, o, c, EMPTY_RESPONSE)
    else
      ProcessCalls(p, h, c, calls, o)
  }

  function ProcessCalls(p: Policy, h: seq<Message>, c: Counters, calls: seq<Call>, o: Oracle): (Counters, Verdict) {
    if Pick(p, Unknown, calls) != [] && c.retries + 1 > p.maxRetries then
      (c.(retries := c.retries + 1), Broken(OverRetried(h, o.malformed)))
    else
      var outs := OutputPhase(p, h, c, calls, o);
      var c' := c.(retries := outs.retries);
      match outs.exit
      case Stuck(err) => (c', Broken(err))
      case Early => (c', Turned(outs.result, outs.parts, [], false))
      case Going => RunTools(p, o, c', Pick(p, Function, calls), outs.result, outs.parts)
  }

  lemma RunToolsPairs(p: Policy, o: Oracle, c: Counters, calls: seq<Call>, result: Option<string>,
      answers: seq<RequestPart>, k: Key)
    requires Runnable(p, calls) && RunTools(p, o, c, calls, result, answers).1.Turned?
    ensures var v := RunTools(p, o, c, calls, result, answers).1;
      Given(v.answers, k) + Asked(v.deferred, k) == Given(answers, k) + Asked(calls, k)
  {
    if calls != [] {
      ToolsPaired(p, o, calls, k);
      GivenAppend(answers, ToolAnswers(calls, JobOf(p, o, calls).outs), k);
    }
  }

  lemma RunToolsCounts(p: Policy, o: Oracle, c: Counters, calls: seq<Call>, result: Option<string>,
      answers: seq<RequestPart>)
    requires Runnable(p, calls)
    ensures var (c', v) := RunTools(p, o, c, calls, result, answers);
      && (v.Turned? ==> v.result == result && (v.ran <==> calls != []))
      && (v.Turned? ==> if v.ran then c'.retries == 0 else c' == c && v.deferred == [])
      && WithinLimit(p, c.toolCalls, c'.toolCalls)
  {
  }

  /** Unless an output was accepted early, the answers and the deferred requests match
      the response's calls one to one. */
  lemma CallsAnswered(p: Policy, h: seq<Message>, c: Counters, parts: seq<ResponsePart>, finish: FinishReason,
      o: Oracle, k: Key)
    requires Process(p, h, c, parts, finish, o).1.Turned?
    requires !(p.early && Process(p, h, c, parts, finish, o).1.result.Some?)
    requires Calls(parts) != []
    ensures var v := Process(p, h, c, parts, finish, o).1;
      Given(v.answers, k) + Asked(v.deferred, k) == Asked(Calls(parts), k)
  {
    var calls := Calls(parts);
    var unknown, outputs := Pick(p, Unknown, calls), Pick(p, Output, calls);
    var start := Outputs(if unknown == [] then c.retries else c.retries + 1, None, UnknownAnswers(unknown), Going);
    var outs := OutputPhase(p, h, c, calls, o);
    OutputLoopCosts(p, h, o, outputs, start);
    assert outs.exit.Going?;
    PickPartitions(p, calls, k);
    UnknownAnswersAnswer(unknown, k);
    OutputLoopAnswers(p, h, o, outputs, start, k);
    RunToolsPairs(p, o, c.(retries := outs.retries), Pick(p, Function, calls), outs.result, outs.parts, k);
  }

  lemma ToolsPaired(p: Policy, o: Oracle, calls: seq<Call>, k: Key)
    requires calls != [] && Runnable(p, calls)
    requires Execute(JobOf(p, o, calls), 0).0.Done?
    ensures var outs := JobOf(p, o, calls).outs;
      Given(ToolAnswers(calls, outs), k) + Asked(DeferredCalls(calls, outs), k) == Asked(calls, k)
  {
    var j := JobOf(p, o, calls);
    var safe := SafeFlags(p, calls);
    forall i | 0 <= i < |j.outs| ensures !j.outs[i].Fatal? {
      DoneHasNoFatal(j, 0, safe, i);
    }
    ToolAnswersPair(calls, j.outs, k);
  }

  /** When early mode has a result, the output loop stopped at it. */
  lemma EarlyResultStops(p: Policy, h: seq<Message>, c: Counters, parts: seq<ResponsePart>, finish: FinishReason,
      o: Oracle)
    requires Process(p, h, c, parts, finish, o).1.Turned?
    requires p.early && Process(p, h, c, parts, finish, o).1.result.Some? && Calls(parts) != []
    ensures var outs := OutputPhase(p, h, c, Calls(parts), o);
      outs.exit.Early? && outs.parts != [] &&
        Process(p, h, c, parts, finish, o).1 == Turned(outs.result, outs.parts, [], false)
  {
    var calls := Calls(parts);
    var outs := OutputPhase(p, h, c, calls, o);
    OutputPhaseCosts(p, h, c, calls, o);
    if outs.exit.Going? {
      RunToolsCounts(p, o, c.(retries := outs.retries), Pick(p, Function, calls), outs.result, outs.parts);
    }
  }

  /** What the loop has answered by then: the unknown calls, and the output calls up to the
      first good one. */
  lemma EarlyOutputs(p: Policy, h: seq<Message>, c: Counters, calls: seq<Call>, o: Oracle, k: Key) returns (i: nat)
    requires OutputPhase(p, h, c, calls, o).exit.Early?
    ensures var outputs := Pick(p, Output, calls);
      && i < |outputs| && FirstGood(o, i)
      && Given(OutputPhase(p, h, c, calls, o).parts, k) ==
        Asked(Pick(p, Unknown, calls), k) + Asked(outputs[..i + 1], k)
  {
    var unknown := Pick(p, Unknown, calls);
    var start := Outputs(if unknown == [] then c.retries else c.retries + 1, None, UnknownAnswers(unknown), Going);
    UnknownAnswersAnswer(unknown, k);
    i := OutputLoopEarly(p, h, o, Pick(p, Output, calls), start, k);
  }

  /** An output accepted early leaves unanswered exactly the later output calls and
      every function call. */
  lemma EarlyLeavesRest(p: Policy, h: seq<Message>, c: Counters, parts: seq<ResponsePart>, finish: FinishReason,
      o: Oracle, k: Key) returns (i: nat)
    requires Process(p, h, c, parts, finish, o).1.Turned?
    requires p.early && Process(p, h, c, parts, finish, o).1.result.Some? && Calls(parts) != []
    ensures var v := Process(p, h, c, parts, finish, o).1; var calls := Calls(parts);
      && i < |Pick(p, Output, calls)| && FirstGood(o, i) && v.deferred == []
      && Given(v.answers, k) + Asked(Pick(p, Output, calls)[i + 1..], k) + Asked(Pick(p, Function, calls), k) ==
        Asked(calls, k)
  {
    var calls := Calls(parts);
    EarlyResultStops(p, h, c, parts, finish, o);
    i := EarlyOutputs(p, h, c, calls, o, k);
    PickPartitions(p, calls, k);
    AskedSplits(Pick(p, Output, calls), i + 1, k);
  }

  lemma AskedSplits(calls: seq<Call>, i: nat, k: Key)
    requires i <= |calls|
    ensures Asked(calls, k) == Asked(calls[..i], k) + Asked(calls[i..], k)
  {
    assert calls == calls[..i] + calls[i..];
    AskedAppend(calls[..i], calls[i..], k);
  }

  /** A turn that goes on without running a tool has used up a retry; one that ran
      tools has a fresh allowance. The tool-call limit is never overrun. Only a turn
      without an early output defers calls. */
  ghost predicate Spent(p: Policy, c: Counters, c': Counters, v: Verdict) {
    && (v.Turned? && v.ran ==> c'.retries == 0)
    && (v.Turned? && !v.ran ==> v.deferred == [] && (v.result.None? ==> c.retries < c'.retries <= p.maxRetries))
    && (v.Turned? && v.deferred != [] ==> !(p.early && v.result.Some?))
    && WithinLimit(p, c.toolCalls, c'.toolCalls)
  }

  ghost predicate WithinLimit(p: Policy, before: int, after: int) {
    before <= after && (p.toolCallsLimit.Some? ==> after == before || after <= p.toolCallsLimit.value)
  }

  lemma ToolPhaseSpends(p: Policy, o: Oracle, c: Counters, outs: Outputs, calls: seq<Call>)
    requires Runnable(p, calls) && (p.early ==> outs.result.None?)
    requires calls == [] && outs.result.None? ==> c.retries < outs.retries <= p.maxRetries
    ensures var (c', v) := RunTools(p, o, c.(retries := outs.retries), calls, outs.result, outs.parts);
      Spent(p, c, c', v)
  {
    RunToolsCounts(p, o, c.(retries := outs.retries), calls, outs.result, outs.parts);
  }

  lemma {:induction false} OutputPhaseCosts(p: Policy, h: seq<Message>, c: Counters, calls: seq<Call>, o: Oracle)
    requires calls != [] && !(Pick(p, Unknown, calls) != [] && c.retries + 1 > p.maxRetries)
    ensures var outs := OutputPhase(p, h, c, calls, o);
      && (outs.exit.Early? ==> p.early && outs.result.Some? && outs.parts != [])
      && (outs.exit.Going? && p.early ==> outs.result.None?)
      && (outs.exit.Going? && outs.result.None? && Pick(p, Function, calls) == [] ==>
            c.retries < outs.retries <= p.maxRetries)
  {
    var unknown := Pick(p, Unknown, calls);
    PickSizes(p, calls);
    OutputLoopCosts(p, h, o, Pick(p, Output, calls),
      Outputs(if unknown == [] then c.retries else c.retries + 1, None, UnknownAnswers(unknown), Going));
  }

  lemma CallTurnSpends(p: Policy, h: seq<Message>, c: Counters, calls: seq<Call>, o: Oracle)
    requires calls != []
    ensures Spent(p, c, ProcessCalls(p, h, c, calls, o).0, ProcessCalls(p, h, c, calls, o).1)
  {
    if !(Pick(p, Unknown, calls) != [] && c.retries + 1 > p.maxRetries) {
      OutputPhaseCosts(p, h, c, calls, o);
      var outs := OutputPhase(p, h, c, calls, o);
      if outs.exit.Going? {
        ToolPhaseSpends(p, o, c, outs, Pick(p, Function, calls));
      }
    }
  }

  lemma RetriesSpent(p: Policy, h: seq<Message>, c: Counters, parts: seq<ResponsePart>, finish: FinishReason, o: Oracle)
    ensures Spent(p, c, Process(p, h, c, parts, finish, o).0, Process(p, h, c, parts, finish, o).1)
  {
    if Calls(parts) != [] {
      CallTurnSpends(p, h, c, Calls(parts), o);
    }
  }

  /** Only a response with calls, and no output accepted early, defers any. */
  lemma DeferredWereCalled(p: Policy, h: seq<Message>, c: Counters, parts: seq<ResponsePart>, finish: FinishReason,
      o: Oracle)
    requires var v := Process(p, h, c, parts, finish, o).1; v.Turned? && v.deferred != []
    ensures Calls(parts) != [] && !(p.early && Process(p, h, c, parts, finish, o).1.result.Some?)
  {
    RetriesSpent(p, h, c, parts, finish, o);
  }

  /** A turn that goes on always has something to tell the model. */
  lemma ContinuingTurnSpeaks(p: Policy, h: seq<Message>, c: Counters, parts: seq<ResponsePart>, finish: FinishReason,
      o: Oracle)
    requires var v := Process(p, h, c, parts, finish, o).1; v.Turned? && v.result.None? && v.deferred == []
    ensures Process(p, h, c, parts, finish, o).1.answers != []
    ensures Answered(parts, Request(Process(p, h, c, parts, finish, o).1.answers))
  {
    var calls, v := Calls(parts), Process(p, h, c, parts, finish, o).1;
    if calls != [] {
      forall k ensures Given(v.answers, k) == Asked(calls, k) {
        CallsAnswered(p, h, c, parts, finish, o, k);
      }
      assert Asked(calls, KeyOf(calls[|calls| - 1])) > 0;
    }
  }

  /* ----- deferred calls ----- */

  datatype DeferredResult = DeferredResult(tool: string, id: string, content: string, failed: bool)

  function DeferredPart(r: DeferredResult): RequestPart {
    if r.failed then RetryPrompt(r.content, r.tool, r.id) else ToolReturn(r.tool, Str(r.content), r.id)
  }

  function DeferredParts(rs: seq<DeferredResult>): seq<RequestPart> {
    if rs == [] then [] else DeferredParts(rs[..|rs| - 1]) + [DeferredPart(rs[|rs| - 1])]
  }

  /** injectDeferredResults: join a trailing request, or else start a new one. */
  function Inject(h: seq<Message>, rs: seq<DeferredResult>): seq<Message> {
    if h != [] && h[|h| - 1].Request?
    then h[..|h| - 1] + [Request(h[|h| - 1].asked + DeferredParts(rs))]
    else h + [Request(DeferredParts(rs))]
  }

  /** The history a turn leaves behind (core/run_engine.go 431, 514-519). */
  function After(h: seq<Message>, resp: Message, answers: seq<RequestPart>): seq<Message> {
    h + [resp] + if answers == [] then [] else [Request(answers)]
  }

  /** Resuming with one result per deferred request yields a single next request that
      answers every call of the interrupted response exactly once. */
  lemma {:induction false} ResumeAnswersAll(p: Policy, h: seq<Message>, c: Counters, resp: Message, o: Oracle,
      rs: seq<DeferredResult>)
    requires Sendable(h) && resp.Response?
    requires var v := Process(p, h + [resp], c, resp.parts, resp.finish, o).1;
      v.Turned? && v.deferred != [] && forall k :: Given(DeferredParts(rs), k) == Asked(v.deferred, k)
    ensures var v := Process(p, h + [resp], c, resp.parts, resp.finish, o).1;
      var h' := Inject(After(h, resp, v.answers), rs);
      && h' == h + [resp, Request(v.answers + DeferredParts(rs))]
      && (forall k :: Given(v.answers + DeferredParts(rs), k) == Asked(Calls(resp.parts), k))
      && Sendable(h')
  {
    var v := Process(p, h + [resp], c, resp.parts, resp.finish, o).1;
    DeferredWereCalled(p, h + [resp], c, resp.parts, resp.finish, o);
    forall k ensures Given(v.answers + DeferredParts(rs), k) == Asked(Calls(resp.parts), k) {
      CallsAnswered(p, h + [resp], c, resp.parts, resp.finish, o, k);
      GivenAppend(v.answers, DeferredParts(rs), k);
    }
    InjectJoins(h, resp, v.answers, rs);
    ExchangeIsSendable(h, resp, v.answers + DeferredParts(rs));
  }

  /** Deferred results join the answers of the turn that was interrupted. */
  lemma InjectJoins(h: seq<Message>, resp: Message, answers: seq<RequestPart>, rs: seq<DeferredResult>)
    requires resp.Response?
    ensures Inject(After(h, resp, answers), rs) == h + [resp, Request(answers + DeferredParts(rs))]
  {
    assert answers == [] ==> answers + DeferredParts(rs) == DeferredParts(rs);
  }
}
