/** What each turn of a run asks the model: when it asks at all, with which history, and
    under which tool choice (core/run_engine.go 216-400). */
module RunRequests {
  import opened Transcript
  import opened Responses
  import opened Compaction
  import opened Engines
  import opened RunProperties

  /* ----- when a turn asks nothing ----- */

  /** The first check that a turn fails, if any. */
  predicate Refuses(a: Agent, r: Run, t: Turn, err: Err) {
    var spent := a.limits.requests.Some? && r.usage.requests >= a.limits.requests.value;
    var called := a.policy.toolCallsLimit.Some? && r.usage.toolCalls > a.policy.toolCallsLimit.value;
    || (t.ended && err == ContextEnded)
    || (!t.ended && spent && err == RequestLimit)
    || (!t.ended && !spent && called && err == ToolCallsSpent)
    || (!t.ended && !spent && !called && t.quota && err == QuotaExceeded)
  }

  lemma BlockedIs(a: Agent, r: Run, t: Turn, err: Err)
    ensures Blocked(a, r, t) == Some(err) <==> Refuses(a, r, t, err)
  {
  }

  /** A turn under a cancelled context, a spent limit or a spent quota changes nothing and
      ends the run with that error ... */
  lemma RefusedTurn(a: Agent, e: Engine, t: Turn, err: Err)
    requires Configured(a) && Refuses(a, e.run, t, err)
    ensures StepTurn(a, e, t) == (e, Failed(err))
  {
    BlockedIs(a, e.run, t, err);
  }

  /** ... and every other turn starts. */
  lemma AdmittedTurn(a: Agent, e: Engine, t: Turn)
    requires Configured(a) && forall err :: !Refuses(a, e.run, t, err)
    ensures StepTurn(a, e, t).0.run.step == e.run.step + 1
  {
    if Blocked(a, e.run, t).Some? {
      BlockedIs(a, e.run, t, Blocked(a, e.run, t).value);
    }
    var o := StepOpen(a, e, t);
    if o.err.None? {
      CloseCloses(a, o, t);
    }
  }

  lemma {:induction false} RunContinues(a: Agent, e: Engine, pre: seq<Turn>, post: seq<Turn>)
    requires Configured(a)
    ensures var (e', sig) := RunLoop(a, e, pre);
      RunLoop(a, e, pre + post) == if sig.Some? then (e', sig) else RunLoop(a, e', post)
    decreases |pre|
  {
    if pre == [] {
      assert pre + post == post;
    } else {
      var (e', sig) := StepTurn(a, e, pre[0]);
      assert (pre + post)[1..] == pre[1..] + post;
      if !Ends(sig) {
        RunContinues(a, e', pre[1..], post);
      }
    }
  }

  /** A run that meets such a turn ends there, whatever would follow. */
  lemma RefusedRun(a: Agent, e: Engine, pre: seq<Turn>, t: Turn, post: seq<Turn>, err: Err)
    requires Configured(a) && RunLoop(a, e, pre).1.None? && Refuses(a, RunLoop(a, e, pre).0.run, t, err)
    ensures RunLoop(a, e, pre + [t] + post) == (RunLoop(a, e, pre).0, Some(Failed(err)))
  {
    var e' := RunLoop(a, e, pre).0;
    RunContinues(a, e, pre, [t] + post);
    assert pre + [t] + post == pre + ([t] + post) && ([t] + post)[0] == t;
    RefusedTurn(a, e', t, err);
  }

  /* ----- how a turn is reported ----- */

  lemma SettleTells(r: Run, t: Turn, c: Counters, v: Verdict)
    ensures var (r', sig) := Settle(r, t, c, v); r'.events == r.events + [TurnCompleted(r.step, sig.Failed?)]
  {
  }

  lemma HandleTells(a: Agent, r: Run, t: Turn)
    requires t.reply.Reply?
    ensures var (r', sig) := HandleStep(a, r, t); r'.events == r.events + [TurnCompleted(r.step, sig.Failed?)]
  {
    var (c, v) := a.handle(r.messages, CountersOf(r), t.reply.parts, t.reply.finish, t.oracle);
    SettleTells(r, t, c, v);
  }

  lemma CloseTells(a: Agent, o: Opened, t: Turn)
    requires t.reply.Reply?
    ensures var (e', sig) := StepClose(a, o, t);
      e'.run.events == o.run.events + [TurnCompleted(o.run.step, sig.Failed?)]
  {
    var r1 := CountRequest(o.run, t.reply.usage);
    HandleTells(a, r1.(messages := r1.messages + [Answer(t)]), t);
  }

  /** A turn that starts is reported once, by its number, and reported as failed exactly if
      it ends the run with an error. */
  lemma TurnIsReported(a: Agent, e: Engine, t: Turn)
    requires Configured(a) && forall err :: !Refuses(a, e.run, t, err)
    ensures var (e', sig) := StepTurn(a, e, t); var n := e.run.step + 1;
      e'.run.events == e.run.events + [TurnStarted(n), TurnCompleted(n, sig.Failed?)]
  {
    if Blocked(a, e.run, t).Some? {
      BlockedIs(a, e.run, t, Blocked(a, e.run, t).value);
    }
    var o := StepOpen(a, e, t);
    if o.err.None? {
      CloseTells(a, o, t);
    }
  }

  /* ----- the history of a request ----- */

  /** Compaction is due: the last reported input or the estimate exceeds the limit, there is
      a middle of more than one message, and the summary came. */
  predicate Due(a: Agent, r: Run, t: Turn) {
    && a.autoContext.Some? && t.summary.Some?
    && (r.lastInput > a.autoContext.value.maxTokens || t.estimate > a.autoContext.value.maxTokens)
    && HasMiddle(r.messages, |r.messages| - a.autoContext.value.keepLastN, 3)
  }

  /** The request of a turn carries the run's history; a shorter one exactly when compaction
      is due. */
  lemma RequestHistory(a: Agent, e: Engine, t: Turn)
    requires Configured(a) && (forall err :: !Refuses(a, e.run, t, err)) && t.prep.None?
    ensures var sent := StepTurn(a, e, t).0.run.sent;
      && |sent| == |e.run.sent| + 1 && sent[..|e.run.sent|] == e.run.sent
      && (!Due(a, e.run, t) ==> sent[|e.run.sent|].history == e.run.messages)
      && (Due(a, e.run, t) ==> |sent[|e.run.sent|].history| < |e.run.messages|)
  {
    if Blocked(a, e.run, t).Some? {
      BlockedIs(a, e.run, t, Blocked(a, e.run, t).value);
    }
    SentGrowsByTurn(a, e, t);
    if a.autoContext.Some? {
      var tokens := if e.run.lastInput > t.estimate then e.run.lastInput else t.estimate;
      CompressesExactlyWhen(a.autoContext.value, e.run.messages, tokens, t.summary);
    }
  }

  /** The last positive input that was reported. */
  function LastPositive(us: seq<Usage>, start: int): int {
    if us == [] then start else LastPositive(us[1..], if us[0].input > 0 then us[0].input else start)
  }

  lemma CloseNotesInput(a: Agent, o: Opened, t: Turn)
    requires t.reply.Reply?
    ensures StepClose(a, o, t).0.run.lastInput ==
      if t.reply.usage.input > 0 then t.reply.usage.input else o.run.lastInput
  {
  }

  /** What compaction goes by is the last positive input any reply of the run reported. */
  lemma {:induction false} LastInputReported(a: Agent, e: Engine, script: seq<Turn>)
    requires Configured(a)
    ensures RunLoop(a, e, script).0.run.lastInput == LastPositive(Reported(a, e, script), e.run.lastInput)
    decreases |script|
  {
    if script != [] {
      var o := StepOpen(a, e, script[0]);
      if o.err.None? {
        CloseNotesInput(a, o, script[0]);
      }
      var (e', sig) := StepTurn(a, e, script[0]);
      if !Ends(sig) {
        LastInputReported(a, e', script[1..]);
      }
    }
  }

  /* ----- the tool choice of a request ----- */

  /** The choice in the settings, or else the agent's own. */
  function Choice(a: Agent, s: Option<Settings>): Option<string> {
    if s.Some? && s.value.choice.Some? then s.value.choice else a.toolChoice
  }

  /** A kept response with calls resets a forced choice. */
  predicate Resets(a: Agent, t: Turn) {
    a.autoReset && t.reply.Reply? && !t.dropped && Calls(t.reply.parts) != []
  }

  /** Some turn of the run has reset it. */
  ghost predicate WasReset(a: Agent, pre: seq<Turn>) {
    exists i :: 0 <= i < |pre| && Resets(a, pre[i])
  }

  function Under(reset: bool, choice: Option<string>): Option<string> {
    if reset && choice.Some? then Some("auto") else choice
  }

  lemma OpenChoice(a: Agent, e: Engine, t: Turn)
    requires Configured(a)
    ensures var o := StepOpen(a, e, t);
      && Choice(a, o.kept) == Choice(a, e.settings)
      && (o.err.None? ==> Choice(a, o.local) == Choice(a, e.settings))
      && (o.err.None? && Choice(a, e.settings).Some? ==> o.local.Some? && o.local.value.choice.Some?)
  {
  }

  lemma OpenSendsChoice(a: Agent, e: Engine, t: Turn)
    requires Configured(a)
    ensures var sent := StepOpen(a, e, t).run.sent;
      |sent| > |e.run.sent| ==> sent[|sent| - 1].choice == Choice(a, e.settings)
  {
  }

  lemma CloseChoice(a: Agent, o: Opened, t: Turn)
    requires t.reply.Reply? && Choice(a, o.kept) == Choice(a, o.local)
    requires Choice(a, o.local).Some? ==> o.local.Some? && o.local.value.choice.Some?
    ensures Choice(a, StepClose(a, o, t).0.settings) == Under(Resets(a, t), Choice(a, o.local))
  {
  }

  lemma TurnChoice(a: Agent, e: Engine, t: Turn)
    requires Configured(a) && !Ends(StepTurn(a, e, t).1)
    ensures Choice(a, StepTurn(a, e, t).0.settings) == Under(Resets(a, t), Choice(a, e.settings))
  {
    OpenChoice(a, e, t);
    CloseChoice(a, StepOpen(a, e, t), t);
  }

  lemma {:induction false} RunChoice(a: Agent, e: Engine, pre: seq<Turn>)
    requires Configured(a) && RunLoop(a, e, pre).1.None?
    ensures Choice(a, RunLoop(a, e, pre).0.settings) == Under(WasReset(a, pre), Choice(a, e.settings))
    decreases |pre|
  {
    if pre != [] {
      var e' := StepTurn(a, e, pre[0]).0;
      TurnChoice(a, e, pre[0]);
      RunChoice(a, e', pre[1..]);
      ResetSplits(a, pre);
    }
  }

  lemma ResetSplits(a: Agent, pre: seq<Turn>)
    requires pre != []
    ensures WasReset(a, pre) <==> Resets(a, pre[0]) || WasReset(a, pre[1..])
  {
    assert forall i :: 0 <= i < |pre[1..]| ==> pre[1..][i] == pre[i + 1];
    assert forall i :: 1 <= i < |pre| ==> pre[i] == pre[1..][i - 1];
  }

  /** Every request of a run is made under the tool choice the run began with, and under
      "auto" once a kept response with calls has reset it. */
  lemma {:induction false} RequestChoice(a: Agent, e: Engine, pre: seq<Turn>, t: Turn)
    requires Configured(a) && RunLoop(a, e, pre).1.None?
    ensures var e1 := RunLoop(a, e, pre).0; var sent := RunLoop(a, e, pre + [t]).0.run.sent;
      |sent| > |e1.run.sent| ==> sent[|sent| - 1].choice == Under(WasReset(a, pre), Choice(a, e.settings))
  {
    var e1 := RunLoop(a, e, pre).0;
    RunContinues(a, e, pre, [t]);
    RunChoice(a, e, pre);
    OpenSendsChoice(a, e1, t);
    SentGrowsByTurn(a, e1, t);
    OneTurn(a, e1, t);
  }

  lemma OneTurn(a: Agent, e: Engine, t: Turn)
    requires Configured(a)
    ensures RunLoop(a, e, [t]).0 == StepTurn(a, e, t).0
  {
    assert [t][1..] == [];
  }
}
