/** What a handled response tells the model and the caller (core/agent.go 822-1094,
    1137-1280, 1535-1656): which text answers which call, in which order, and which output
    is the result; and that the schedule follows the tools' own definitions. */
module ResponseContents {
  import opened Transcript
  import opened ToolBatches
  import opened Responses
  import opened Engines
  import opened RunProperties

  /* ----- the schedule and the tools ----- */

  /** Whether a call may run beside others is what its tool says. */
  lemma {:induction false} SafeFlagsAre(p: Policy, calls: seq<Call>, i: nat)
    requires Runnable(p, calls) && i < |calls|
    ensures SafeFlags(p, calls)[i] == p.tools[calls[i].tool]
  {
    if i < |calls| - 1 {
      SafeFlagsAre(p, calls[..|calls| - 1], i);
    }
  }

  /** In every interleaving of a response's calls: a call of an exclusive tool runs alone,
      all earlier calls have ended and no later one has begun; and at most maxConcurrency
      calls run at once if it is set. */
  lemma ToolsScheduledSafely(p: Policy, o: Oracle, calls: seq<Call>, run: seq<Sched>, moves: seq<Move>, k: nat, i: nat)
    requires Runnable(p, calls) && IsRun(JobOf(p, o, calls), run, moves) && k < |run| && i < |calls|
    ensures |run[k].phase| == |calls|
    ensures run[k].phase[i].Running? && !p.tools[calls[i].tool] ==>
              forall i' :: 0 <= i' < |calls| && i' != i ==>
                if i' < i then run[k].phase[i'].Ended? else run[k].phase[i'].Waiting?
    ensures p.maxConcurrency > 0 ==> |RunningSet(run[k])| <= p.maxConcurrency
  {
    var safe := SafeFlags(p, calls);
    ScheduleSafe(JobOf(p, o, calls), safe, run, moves, k);
    SafeFlagsAre(p, calls, i);
    if p.maxConcurrency > 0 {
      WidthWithin(p, o, calls, run, moves, k);
    }
  }

  lemma WidthWithin(p: Policy, o: Oracle, calls: seq<Call>, run: seq<Sched>, moves: seq<Move>, k: nat)
    requires Runnable(p, calls) && IsRun(JobOf(p, o, calls), run, moves) && k < |run| && p.maxConcurrency > 0
    ensures |RunningSet(run[k])| <= p.maxConcurrency
  {
    var j, safe := JobOf(p, o, calls), SafeFlags(p, calls);
    ScheduleSafe(j, safe, run, moves, k);
    if i: nat :| i in RunningSet(run[k]) {
      if !safe[i] {
        assert RunningSet(run[k]) == {i};
      }
    } else {
      assert RunningSet(run[k]) == {};
    }
  }

  /* ----- function calls ----- */

  /** The part tells the model what the call came to. */
  predicate Tells(part: RequestPart, c: Call, out: ToolOut) {
    match out
    case Success(x) => part == ToolReturn(c.tool, Str(x), c.id)
    case ErrorReturn(x) => part == ToolReturn(c.tool, Str(x), c.id)
    case Cancelled(x) => part == ToolReturn(c.tool, Str(x), c.id)
    case Retry(x) => part == RetryPrompt(x, c.tool, c.id)
    case Denied(x) => part == RetryPrompt(x, c.tool, c.id)
    case _ => false
  }

  /** How many of the first n calls are answered at once, and not deferred. */
  function Told(outs: seq<ToolOut>, n: nat): (k: nat)
    requires n <= |outs|
    ensures k <= n
  {
    if n == 0 then 0 else Told(outs, n - 1) + if outs[n - 1].Deferred? then 0 else 1
  }

  lemma {:induction false} ToldOfFront(outs: seq<ToolOut>, m: nat, n: nat)
    requires n <= m <= |outs|
    ensures Told(outs[..m], n) == Told(outs, n)
  {
    if n > 0 {
      ToldOfFront(outs, m, n - 1);
    }
  }

  lemma {:induction false} ToolAnswersSizes(calls: seq<Call>, outs: seq<ToolOut>)
    requires |calls| == |outs| && forall j :: 0 <= j < |outs| ==> !outs[j].Fatal?
    ensures |ToolAnswers(calls, outs)| == Told(outs, |outs|)
    ensures |DeferredCalls(calls, outs)| == |outs| - Told(outs, |outs|)
  {
    if calls != [] {
      var n := |calls| - 1;
      ToolAnswersSizes(calls[..n], outs[..n]);
      ToldOfFront(outs, n, n);
    }
  }

  /** Each call that was not deferred is told in its place ... */
  lemma {:induction false} ToolAnswersTell(calls: seq<Call>, outs: seq<ToolOut>, i: nat)
    requires |calls| == |outs| && i < |calls| && forall j :: 0 <= j < |outs| ==> !outs[j].Fatal?
    requires !outs[i].Deferred?
    ensures Told(outs, i) < |ToolAnswers(calls, outs)|
    ensures Tells(ToolAnswers(calls, outs)[Told(outs, i)], calls[i], outs[i])
  {
    var n := |calls| - 1;
    if i < n {
      ToolAnswersTell(calls[..n], outs[..n], i);
      assert ToolAnswers(calls[..n], outs[..n]) <= ToolAnswers(calls, outs);
      ToldOfFront(outs, n, i);
    } else {
      ToolAnswersSizes(calls[..n], outs[..n]);
      ToldOfFront(outs, n, n);
    }
  }

  /** ... and each deferred one kept in its own. */
  lemma {:induction false} DeferredCallsKept(calls: seq<Call>, outs: seq<ToolOut>, i: nat)
    requires |calls| == |outs| && i < |calls| && forall j :: 0 <= j < |outs| ==> !outs[j].Fatal?
    requires outs[i].Deferred?
    ensures i - Told(outs, i) < |DeferredCalls(calls, outs)|
    ensures DeferredCalls(calls, outs)[i - Told(outs, i)] == calls[i]
  {
    var n := |calls| - 1;
    if i < n {
      DeferredCallsKept(calls[..n], outs[..n], i);
      assert DeferredCalls(calls[..n], outs[..n]) <= DeferredCalls(calls, outs);
      ToldOfFront(outs, n, i);
    } else {
      ToolAnswersSizes(calls[..n], outs[..n]);
      ToldOfFront(outs, n, n);
    }
  }

  /* ----- output calls ----- */

  /** The part tells the model how output call k was judged. */
  predicate Judges(part: RequestPart, c: Call, o: Oracle, k: nat, first: bool) {
    match o.output(k)
    case Good(_) =>
      var told := if first then "output accepted" else "output already accepted; duplicate ignored";
      part == ToolReturn(c.tool, Str(told), c.id)
    case Again(feedback) => part == RetryPrompt(feedback, c.tool, c.id)
    case Refuse(_) => false
  }

  /** The first output judged good, among the first n. */
  function FirstOutput(o: Oracle, n: nat): Option<string> {
    if n == 0 then None
    else if FirstOutput(o, n - 1).Some? then FirstOutput(o, n - 1)
    else if o.output(n - 1).Good? then Some(o.output(n - 1).output) else None
  }

  lemma {:induction false} OutputLoopTells(p: Policy, h: seq<Message>, o: Oracle, calls: seq<Call>, start: Outputs,
      k: nat)
    requires start.exit.Going? && start.result.None? && OutputLoop(p, h, o, calls, start).exit.Going?
    ensures var r := OutputLoop(p, h, o, calls, start);
      && r.result == FirstOutput(o, |calls|) && |r.parts| == |start.parts| + |calls| && start.parts <= r.parts
      && (k < |calls| ==> Judges(r.parts[|start.parts| + k], calls[k], o, k, FirstOutput(o, k).None?))
  {
    if calls != [] {
      var n := |calls| - 1;
      OutputLoopTells(p, h, o, calls[..n], start, if k < n then k else n);
    }
  }

  /* ----- the whole response ----- */

  /** The unknown calls come first, each with a prompt to try again. */
  lemma {:induction false} UnknownAnswersTell(calls: seq<Call>, i: nat)
    requires i < |calls|
    ensures |UnknownAnswers(calls)| == |calls|
    ensures Prompts(UnknownAnswers(calls)[i], calls[i])
  {
    if i < |calls| - 1 {
      UnknownAnswersTell(calls[..|calls| - 1], i);
    } else {
      UnknownSize(calls);
    }
  }

  lemma {:induction false} UnknownSize(calls: seq<Call>)
    ensures |UnknownAnswers(calls)| == |calls|
  {
    if calls != [] {
      UnknownSize(calls[..|calls| - 1]);
    }
  }

  /** The answers begin with the unknown and the output calls, in order; what is said of the
      i-th of either kind. */
  predicate OutputPart(p: Policy, calls: seq<Call>, o: Oracle, answers: seq<RequestPart>, i: nat) {
    var unknown, outputs := Pick(p, Unknown, calls), Pick(p, Output, calls);
    && |unknown| + |outputs| <= |answers|
    && (i < |unknown| ==> Prompts(answers[i], unknown[i]))
    && (i < |outputs| ==> Judges(answers[|unknown| + i], outputs[i], o, i, FirstOutput(o, i).None?))
  }

  predicate Prompts(part: RequestPart, c: Call) {
    part.RetryPrompt? && part.retryTool == c.tool && part.retryId == c.id
  }

  /** Behind the first n parts stand the answers to the function calls that were not
      deferred, and nothing else; what is said of the i-th call. */
  predicate FunctionPart(calls: seq<Call>, outs: seq<ToolOut>, n: nat, answers: seq<RequestPart>,
      deferred: seq<Call>, i: nat)
    requires |calls| == |outs|
  {
    && |answers| == n + Told(outs, |outs|) && |deferred| == |outs| - Told(outs, |outs|)
    && (i < |calls| && !outs[i].Deferred? ==>
          Told(outs, i) < Told(outs, |outs|) && Tells(answers[n + Told(outs, i)], calls[i], outs[i]))
    && (i < |calls| && outs[i].Deferred? ==> i - Told(outs, i) < |deferred| && deferred[i - Told(outs, i)] == calls[i])
  }

  lemma OutputPhaseTells(p: Policy, h: seq<Message>, c: Counters, calls: seq<Call>, o: Oracle, i: nat)
    requires OutputPhase(p, h, c, calls, o).exit.Going?
    ensures var outs := OutputPhase(p, h, c, calls, o);
      && outs.result == FirstOutput(o, |Pick(p, Output, calls)|)
      && |outs.parts| == |Pick(p, Unknown, calls)| + |Pick(p, Output, calls)| && OutputPart(p, calls, o, outs.parts, i)
  {
    var unknown := Pick(p, Unknown, calls);
    var start := Outputs(if unknown == [] then c.retries else c.retries + 1, None, UnknownAnswers(unknown), Going);
    UnknownSize(unknown);
    if i < |unknown| {
      UnknownAnswersTell(unknown, i);
    }
    OutputLoopTells(p, h, o, Pick(p, Output, calls), start, i);
  }

  lemma NoFatalOuts(p: Policy, o: Oracle, calls: seq<Call>)
    requires Runnable(p, calls) && calls != [] && Execute(JobOf(p, o, calls), 0).0.Done?
    ensures forall k :: 0 <= k < |calls| ==> !Outs(o, |calls|)[k].Fatal?
  {
    var j := JobOf(p, o, calls);
    forall k | 0 <= k < |j.outs| ensures !j.outs[k].Fatal? {
      DoneHasNoFatal(j, 0, SafeFlags(p, calls), k);
    }
  }

  lemma RunToolsIs(p: Policy, o: Oracle, c: Counters, calls: seq<Call>, result: Option<string>,
      answers: seq<RequestPart>)
    requires Runnable(p, calls) && RunTools(p, o, c, calls, result, answers).1.Turned?
    ensures var v, outs := RunTools(p, o, c, calls, result, answers).1, Outs(o, |calls|);
      && v.result == result && v.answers == answers + ToolAnswers(calls, outs)
      && v.deferred == DeferredCalls(calls, outs)
      && forall k :: 0 <= k < |calls| ==> !outs[k].Fatal?
  {
    if calls != [] {
      NoFatalOuts(p, o, calls);
    }
  }

  lemma AnswersBehind(calls: seq<Call>, outs: seq<ToolOut>, answers: seq<RequestPart>, i: nat)
    requires |calls| == |outs| && forall k :: 0 <= k < |outs| ==> !outs[k].Fatal?
    ensures FunctionPart(calls, outs, |answers|, answers + ToolAnswers(calls, outs), DeferredCalls(calls, outs), i)
  {
    ToolAnswersSizes(calls, outs);
    if i < |calls| && outs[i].Deferred? {
      DeferredCallsKept(calls, outs, i);
    } else if i < |calls| {
      ToolAnswersTell(calls, outs, i);
    }
  }

  lemma GoingProcess(p: Policy, h: seq<Message>, c: Counters, parts: seq<ResponsePart>, finish: FinishReason, o: Oracle)
    requires Calls(parts) != [] && Process(p, h, c, parts, finish, o).1.Turned?
    requires !(p.early && Process(p, h, c, parts, finish, o).1.result.Some?)
    ensures var outs := OutputPhase(p, h, c, Calls(parts), o);
      && outs.exit.Going?
      && Process(p, h, c, parts, finish, o) ==
         RunTools(p, o, c.(retries := outs.retries), Pick(p, Function, Calls(parts)), outs.result, outs.parts)
  {
    OutputPhaseCosts(p, h, c, Calls(parts), o);
  }

  /** A response with calls was handled to the end, no output having been accepted early. */
  predicate Through(p: Policy, parts: seq<ResponsePart>, v: Verdict) {
    Calls(parts) != [] && v.Turned? && !(p.early && v.result.Some?)
  }

  /** Such a response gives the result that its outputs call for, and opens its answers with
      those to the unknown and the output calls, each in its place ... */
  lemma ResponseTellsOutputs(p: Policy, h: seq<Message>, c: Counters, parts: seq<ResponsePart>, finish: FinishReason,
      o: Oracle, i: nat)
    requires Through(p, parts, Process(p, h, c, parts, finish, o).1)
    ensures var v, calls := Process(p, h, c, parts, finish, o).1, Calls(parts);
      v.result == FirstOutput(o, |Pick(p, Output, calls)|) && OutputPart(p, calls, o, v.answers, i)
  {
    var calls := Calls(parts);
    var outs, functions := OutputPhase(p, h, c, calls, o), Pick(p, Function, calls);
    GoingProcess(p, h, c, parts, finish, o);
    OutputPhaseTells(p, h, c, calls, o, i);
    RunToolsIs(p, o, c.(retries := outs.retries), functions, outs.result, outs.parts);
  }

  /** ... and goes on with the answers to its function calls and the deferred calls that
      their outcomes call for, each in its place. */
  lemma ResponseTellsFunctions(p: Policy, h: seq<Message>, c: Counters, parts: seq<ResponsePart>, finish: FinishReason,
      o: Oracle, i: nat)
    requires Through(p, parts, Process(p, h, c, parts, finish, o).1)
    ensures var v, functions := Process(p, h, c, parts, finish, o).1, Pick(p, Function, Calls(parts));
      var before := |Pick(p, Unknown, Calls(parts))| + |Pick(p, Output, Calls(parts))|;
      FunctionPart(functions, Outs(o, |functions|), before, v.answers, v.deferred, i)
  {
    var calls := Calls(parts);
    var outs, functions := OutputPhase(p, h, c, calls, o), Pick(p, Function, calls);
    GoingProcess(p, h, c, parts, finish, o);
    OutputPhaseTells(p, h, c, calls, o, i);
    RunToolsIs(p, o, c.(retries := outs.retries), functions, outs.result, outs.parts);
    AnswersBehind(functions, Outs(o, |functions|), outs.parts, i);
  }

  /** An early exit has judged the output calls up to the first good one, which is the
      result. */
  lemma {:induction false} EarlyLoopTells(p: Policy, h: seq<Message>, o: Oracle, calls: seq<Call>, start: Outputs,
      k: nat) returns (i: nat)
    requires start.exit.Going? && start.result.None? && OutputLoop(p, h, o, calls, start).exit.Early?
    ensures i < |calls| && FirstGood(o, i)
    ensures var r := OutputLoop(p, h, o, calls, start);
      && r.result == Some(o.output(i).output) && |r.parts| == |start.parts| + i + 1 && start.parts <= r.parts
      && (k <= i ==> Judges(r.parts[|start.parts| + k], calls[k], o, k, true))
  {
    var n := |calls| - 1;
    var acc := OutputLoop(p, h, o, calls[..n], start);
    if acc.exit.Early? {
      i := EarlyLoopTells(p, h, o, calls[..n], start, k);
    } else {
      OutputLoopTells(p, h, o, calls[..n], start, k);
      OutputLoopCosts(p, h, o, calls[..n], start);
      EarlierNotGood(p, h, o, calls[..n], start);
      NoneGood(o, k);
      i := n;
    }
  }

  lemma {:induction false} NoneGood(o: Oracle, n: nat)
    ensures (forall j: nat :: j < n ==> !o.output(j).Good?) ==> FirstOutput(o, n).None?
  {
    if n > 0 {
      NoneGood(o, n - 1);
    }
  }

  /** A response with an output accepted early: the result is the first good output, and the
      answers are those to the unknown calls and to the output calls up to it. */
  lemma EarlyResponseTells(p: Policy, h: seq<Message>, c: Counters, parts: seq<ResponsePart>, finish: FinishReason,
      o: Oracle, k: nat) returns (i: nat)
    requires Calls(parts) != [] && Process(p, h, c, parts, finish, o).1.Turned?
    requires p.early && Process(p, h, c, parts, finish, o).1.result.Some?
    ensures var v := Process(p, h, c, parts, finish, o).1;
      var unknown, outputs := Pick(p, Unknown, Calls(parts)), Pick(p, Output, Calls(parts));
      && i < |outputs| && FirstGood(o, i) && v.result == Some(o.output(i).output) && v.deferred == [] && !v.ran
      && |v.answers| == |unknown| + i + 1 && (k < |unknown| ==> Prompts(v.answers[k], unknown[k]))
      && (k <= i ==> Judges(v.answers[|unknown| + k], outputs[k], o, k, true))
  {
    EarlyResultStops(p, h, c, parts, finish, o);
    var unknown := Pick(p, Unknown, Calls(parts));
    var start := Outputs(if unknown == [] then c.retries else c.retries + 1, None, UnknownAnswers(unknown), Going);
    UnknownSize(unknown);
    if k < |unknown| {
      UnknownAnswersTell(unknown, k);
    }
    i := EarlyLoopTells(p, h, o, Pick(p, Output, Calls(parts)), start, k);
  }

  /** A response without calls: text that is judged good is the result; otherwise the model
      is told why, or the run breaks for the reason at hand. */
  lemma TextResponse(p: Policy, h: seq<Message>, c: Counters, parts: seq<ResponsePart>, finish: FinishReason, o: Oracle)
    requires Calls(parts) == []
    ensures var v := Process(p, h, c, parts, finish, o).1; var text := TextContent(parts) != "" && p.allowsText;
      && (v.Turned? && v.result.Some? <==> text && o.text.Good?)
      && (v.Turned? && v.result.Some? ==> v.result == Some(o.text.output) && v.answers == [])
      && (v.Turned? && v.result.None? ==>
            c.retries < p.maxRetries &&
            v.answers == [RetryPrompt(if text then o.text.feedback else EMPTY_RESPONSE, "", "")])
      && (v.Broken? ==>
            || (text && o.text.Refuse? && v.err == OutputRefused(o.text.what))
            || (!text && finish.Length? && v.err == CutByLength)
            || (!text && finish.ContentFilter? && v.err == Filtered)
            || (c.retries >= p.maxRetries && (v.err == TooManyRetries || v.err == IncompleteCall)))
  {
  }

  /** The last response of the history stands at place i, if there is one. */
  ghost predicate LastResponseAt(h: seq<Message>, i: int) {
    0 <= i < |h| && h[i].Response? && forall j :: i < j < |h| ==> h[j].Request?
  }

  lemma {:induction false} LastResponseIs(h: seq<Message>, i: int)
    ensures LastResponseAt(h, i) ==> LastResponse(h) == Some(h[i])
    ensures (forall j :: 0 <= j < |h| ==> h[j].Request?) ==> LastResponse(h).None?
  {
    if h != [] && h[|h| - 1].Request? {
      LastResponseIs(h[..|h| - 1], i);
    }
  }

  /** Retries run out with a hint at an incomplete call exactly if the last response was cut
      off at its length limit in a call whose arguments do not parse. */
  lemma RetriesRunOut(h: seq<Message>, malformed: bool, i: int)
    requires LastResponseAt(h, i)
    ensures OverRetried(h, malformed) ==
      if h[i].finish.Length? && Calls(h[i].parts) != [] && malformed then IncompleteCall else TooManyRetries
  {
    LastResponseIs(h, i);
  }

  /* ----- deferred results ----- */

  /** The part reports a deferred result: a failed one as a prompt to try again. */
  predicate Reports(part: RequestPart, r: DeferredResult) {
    part == if r.failed then RetryPrompt(r.content, r.tool, r.id) else ToolReturn(r.tool, Str(r.content), r.id)
  }

  lemma {:induction false} DeferredPartsReport(rs: seq<DeferredResult>, i: nat)
    requires i <= |rs|
    ensures |DeferredParts(rs)| == |rs| && (i < |rs| ==> Reports(DeferredParts(rs)[i], rs[i]))
  {
    if rs != [] {
      var n := |rs| - 1;
      DeferredPartsReport(rs[..n], if i < n then i else n);
    }
  }

  /** A resumed conversation reports every deferred result, in order, behind what the
      interrupted turn had already answered. */
  lemma ResumeReports(h: seq<Message>, resp: Message, answers: seq<RequestPart>, rs: seq<DeferredResult>, i: nat)
    requires resp.Response? && i < |rs|
    ensures var h' := Inject(After(h, resp, answers), rs);
      && |h'| == |h| + 2 && h'[..|h| + 1] == h + [resp] && h'[|h| + 1].Request?
      && |h'[|h| + 1].asked| == |answers| + |rs| && h'[|h| + 1].asked[..|answers|] == answers
      && Reports(h'[|h| + 1].asked[|answers| + i], rs[i])
  {
    InjectJoins(h, resp, answers, rs);
    DeferredPartsReport(rs, i);
  }

  /* ----- in the history ----- */

  /** What a turn tells the model is the next message of its history. */
  lemma TurnRecordsAnswers(a: Agent, o: Opened, t: Turn)
    requires t.reply.Reply? && (StepClose(a, o, t).1.Onward? || StepClose(a, o, t).1.Waiting?)
    ensures var v := Handled(a, o, t).1;
      v.Turned? && StepClose(a, o, t).0.run.messages == After(o.run.messages, Answer(t), v.answers)
  {
    if StepClose(a, o, t).1.Onward? {
      CloseCloses(a, o, t);
    } else {
      WaitingHistory(a, o, t);
    }
  }

  /* ----- the retry counters of tools ----- */

  /** The counters after these function calls, if all of them ended. */
  function Tallied(t: map<string, int>, calls: seq<Call>, o: Oracle): map<string, int> {
    if calls == [] then t else Tally(t, calls, Outs(o, |calls|), |calls|, o.landing)
  }

  lemma RunToolsTallies(p: Policy, o: Oracle, c: Counters, calls: seq<Call>, result: Option<string>,
      answers: seq<RequestPart>)
    requires Runnable(p, calls) && RunTools(p, o, c, calls, result, answers).1.Turned?
    ensures RunTools(p, o, c, calls, result, answers).0.toolRetries == Tallied(c.toolRetries, calls, o)
  {
  }

  lemma ProcessTallies(p: Policy, h: seq<Message>, c: Counters, parts: seq<ResponsePart>, finish: FinishReason,
      o: Oracle)
    requires var v := Process(p, h, c, parts, finish, o).1; v.Turned? && v.result.None?
    ensures Process(p, h, c, parts, finish, o).0.toolRetries ==
      Tallied(c.toolRetries, Pick(p, Function, Calls(parts)), o)
  {
    if Calls(parts) != [] {
      var outs := OutputPhase(p, h, c, Calls(parts), o);
      GoingProcess(p, h, c, parts, finish, o);
      RunToolsTallies(p, o, c.(retries := outs.retries), Pick(p, Function, Calls(parts)), outs.result, outs.parts);
    }
  }

  lemma CloseCarries(a: Agent, o: Opened, t: Turn)
    requires t.reply.Reply?
    ensures var (e', sig) := StepClose(a, o, t);
      && (sig.Onward? ==> e'.run.toolRetries == Handled(a, o, t).0.toolRetries)
      && (sig.Dropped? ==> e'.run.toolRetries == o.run.toolRetries)
  {
  }

  lemma OpenCarries(a: Agent, e: Engine, t: Turn)
    requires Configured(a)
    ensures StepOpen(a, e, t).run.toolRetries == e.run.toolRetries
  {
  }

  /** The counters of tools go from turn to turn: one that continues the run adds what its
      function calls came to, and nothing else changes them. */
  lemma TurnTalliesRetries(a: Agent, e: Engine, t: Turn)
    requires Handles(a) && Configured(a)
    ensures var (e', sig) := StepTurn(a, e, t);
      && (sig.Dropped? ==> e'.run.toolRetries == e.run.toolRetries)
      && (sig.Onward? ==>
            && t.reply.Reply?
            && e'.run.toolRetries ==
               Tallied(e.run.toolRetries, Pick(a.policy, Function, Calls(t.reply.parts)), t.oracle))
  {
    var o := StepOpen(a, e, t);
    OpenCarries(a, e, t);
    if o.err.None? {
      CloseCarries(a, o, t);
      CloseCloses(a, o, t);
      if StepClose(a, o, t).1.Onward? {
        ProcessTallies(a.policy, o.run.messages + [Answer(t)], CountersOf(CountRequest(o.run, t.reply.usage)),
          t.reply.parts, t.reply.finish, t.oracle);
      }
    }
  }
}
