/** What holds over every run of an agent, whatever the model, the tools, the validators
    and the interceptors do. Runs are those of turnEngine.Step under Agent.runLoop; by
    Engines.EnginesAgree they are also those of the stream. */
module RunProperties {
  import opened Transcript
  import opened Responses
  import opened Compaction
  import opened Engines

  /* ----- one turn ----- */

  function Answer(t: Turn): Message
    requires t.reply.Reply?
  {
    Response(t.reply.parts, t.reply.finish, t.reply.usage)
  }

  /** How the response of this turn was handled. */
  function Handled(a: Agent, o: Opened, t: Turn): (Counters, Verdict)
    requires t.reply.Reply?
  {
    var r := CountRequest(o.run, t.reply.usage);
    a.handle(o.run.messages + [Answer(t)], CountersOf(r), t.reply.parts, t.reply.finish, t.oracle)
  }

  /** What the end of a turn does to a run, given how the response was handled. */
  ghost predicate Closed(r: Run, r': Run, sig: Signal, resp: Message, c: Counters, v: Verdict) {
    && r'.usage.requests == r.usage.requests + 1 && r'.sent == r.sent && r'.step == r.step
    && (r'.events == Complete(r, true).events || r'.events == Complete(r, false).events)
    && (sig.Dropped? ==> r'.notes == r.notes + [DroppedTurn] && r'.retries == r.retries && r'.messages == r.messages)
    && (sig.Onward? ==>
          && v.Turned? && v.result.None? && v.deferred == [] && r'.retries == c.retries
          && r'.messages == After(r.messages, resp, v.answers)
          && r'.notes == r.notes + [if v.ran then ToolTurn else IdleTurn])
    && (Ends(sig) ==> r'.notes == r.notes)
    && (r'.usage.toolCalls == r.usage.toolCalls || r'.usage.toolCalls == c.toolCalls)
  }

  lemma SettleCloses(r: Run, t: Turn, c: Counters, v: Verdict, r0: Run, resp: Message)
    requires r.messages == r0.messages + [resp] && r.usage.requests == r0.usage.requests + 1 && r.sent == r0.sent &&
      r.step == r0.step
    requires r.events == r0.events && r.notes == r0.notes
    ensures Closed(r0, Settle(r, t, c, v).0, Settle(r, t, c, v).1, resp, c, v)
  {
    assert r.messages + [] == r.messages;
  }

  lemma CloseCloses(a: Agent, o: Opened, t: Turn)
    requires t.reply.Reply?
    ensures Closed(o.run, StepClose(a, o, t).0.run, StepClose(a, o, t).1, Answer(t), Handled(a, o, t).0,
      Handled(a, o, t).1)
  {
    var resp := Answer(t);
    var r1 := CountRequest(o.run, t.reply.usage);
    var r2 := r1.(messages := r1.messages + [resp]);
    var (c, v) := Handled(a, o, t);
    SettleCloses(r2, t, c, v, o.run, resp);
  }

  /* ----- every request is well formed ----- */

  lemma OpenSendsOnce(a: Agent, e: Engine, t: Turn)
    requires Configured(a)
    ensures var o := StepOpen(a, e, t);
      o.run.sent == e.run.sent || exists choice :: o.run.sent == e.run.sent + [Sent(o.run.messages, choice)]
  {
  }

  lemma OpenKeepsSendable(a: Agent, e: Engine, t: Turn)
    requires Configured(a) && Sendable(e.run.messages)
    ensures Sendable(StepOpen(a, e, t).run.messages)
  {
    if a.autoContext.Some? {
      var tokens := if e.run.lastInput > t.estimate then e.run.lastInput else t.estimate;
      CompressSound(a.autoContext.value, e.run.messages, tokens, t.summary);
    }
  }

  lemma CloseKeepsSendable(a: Agent, o: Opened, t: Turn)
    requires Handles(a) && t.reply.Reply? && Sendable(o.run.messages) && !Ends(StepClose(a, o, t).1)
    ensures Sendable(StepClose(a, o, t).0.run.messages)
  {
    CloseCloses(a, o, t);
    if StepClose(a, o, t).1.Onward? {
      var r := CountRequest(o.run, t.reply.usage);
      ContinuingTurnSpeaks(a.policy, o.run.messages + [Answer(t)], CountersOf(r), t.reply.parts, t.reply.finish,
        t.oracle);
      var answers := Handled(a, o, t).1.answers;
      ExchangeIsSendable(o.run.messages, Answer(t), answers);
      assert After(o.run.messages, Answer(t), answers) == o.run.messages + [Answer(t), Request(answers)];
    }
  }

  lemma SentGrowsByTurn(a: Agent, e: Engine, t: Turn)
    requires Configured(a)
    ensures StepTurn(a, e, t).0.run.sent == StepOpen(a, e, t).run.sent
  {
    var o := StepOpen(a, e, t);
    if o.err.None? {
      CloseCloses(a, o, t);
    }
  }

  /** Before each model request of a run that starts from a sendable history, the history
      opens with a request, has no two adjacent responses, and answers every call of every
      response in the very next message. */
  lemma {:induction false} RequestsAreWellFormed(a: Agent, e: Engine, script: seq<Turn>, i: nat)
    requires Handles(a) && Configured(a) && Sendable(e.run.messages)
    requires |e.run.sent| <= i < |RunLoop(a, e, script).0.run.sent|
    ensures Sendable(RunLoop(a, e, script).0.run.sent[i].history)
    decreases |script|
  {
    var o := StepOpen(a, e, script[0]);
    OpenSendsOnce(a, e, script[0]);
    OpenKeepsSendable(a, e, script[0]);
    SentGrowsByTurn(a, e, script[0]);
    var (e', sig) := StepTurn(a, e, script[0]);
    if !Ends(sig) {
      CloseKeepsSendable(a, o, script[0]);
      SentGrows(a, e', script[1..]);
      if i >= |e'.run.sent| {
        RequestsAreWellFormed(a, e', script[1..], i);
      }
    }
  }

  lemma {:induction false} SentGrows(a: Agent, e: Engine, script: seq<Turn>)
    requires Configured(a)
    ensures e.run.sent <= RunLoop(a, e, script).0.run.sent
    decreases |script|
  {
    if script != [] {
      var (e', sig) := StepTurn(a, e, script[0]);
      SentGrowsByTurn(a, e, script[0]);
      OpenSendsOnce(a, e, script[0]);
      if !Ends(sig) {
        SentGrows(a, e', script[1..]);
      }
    }
  }

  /* ----- budgets ----- */

  ghost predicate CountsRequests(a: Agent, r: Run, r': Run, sig: Signal) {
    && |r'.sent| <= |r.sent| + 1
    && (a.limits.requests.Some? && r.usage.requests >= a.limits.requests.value ==> |r'.sent| == |r.sent|)
    && (!Ends(sig) ==> r'.usage.requests == r.usage.requests + 1)
    && (a.limits.requests.Some? && !Ends(sig) ==> r.usage.requests < a.limits.requests.value)
  }

  lemma TurnCountsRequests(a: Agent, e: Engine, t: Turn)
    requires Configured(a)
    ensures CountsRequests(a, e.run, StepTurn(a, e, t).0.run, StepTurn(a, e, t).1)
  {
    var o := StepOpen(a, e, t);
    if o.err.None? {
      CloseCloses(a, o, t);
    }
  }

  /** With a request limit L, a run makes at most L minus the initial count of model
      requests, even when interceptors drop responses. */
  lemma {:induction false} RequestBudget(a: Agent, e: Engine, script: seq<Turn>)
    requires Configured(a) && a.limits.requests.Some?
    ensures var spent := |RunLoop(a, e, script).0.run.sent| - |e.run.sent|;
      var left := a.limits.requests.value - e.run.usage.requests;
      spent <= if left > 0 then left else 0
    decreases |script|
  {
    if script != [] {
      TurnCountsRequests(a, e, script[0]);
      var (e', sig) := StepTurn(a, e, script[0]);
      if !Ends(sig) {
        RequestBudget(a, e', script[1..]);
      }
    }
  }

  /** Every continuing turn uses one request, so a limited run cannot go on for ever:
      given more turns than the budget it has ended. */
  lemma {:induction false} LimitedRunEnds(a: Agent, e: Engine, script: seq<Turn>)
    requires Configured(a) && a.limits.requests.Some?
    requires |script| > 0 && |script| > a.limits.requests.value - e.run.usage.requests
    ensures RunLoop(a, e, script).1.Some?
    decreases |script|
  {
    TurnCountsRequests(a, e, script[0]);
    var (e', sig) := StepTurn(a, e, script[0]);
    if !Ends(sig) {
      LimitedRunEnds(a, e', script[1..]);
    }
  }

  lemma TurnKeepsToolBudget(a: Agent, e: Engine, t: Turn)
    requires Configured(a)
    requires var o := StepOpen(a, e, t);
      o.err.None? ==> Spent(a.policy, CountersOf(o.run), Handled(a, o, t).0, Handled(a, o, t).1)
    ensures WithinLimit(a.policy, e.run.usage.toolCalls, StepTurn(a, e, t).0.run.usage.toolCalls)
  {
    var o := StepOpen(a, e, t);
    if o.err.None? {
      CloseCloses(a, o, t);
    }
  }

  lemma HandledSpends(a: Agent, o: Opened, t: Turn)
    requires Handles(a) && t.reply.Reply?
    ensures Spent(a.policy, CountersOf(o.run), Handled(a, o, t).0, Handled(a, o, t).1)
  {
    var r := CountRequest(o.run, t.reply.usage);
    RetriesSpent(a.policy, o.run.messages + [Answer(t)], CountersOf(r),
                 t.reply.parts, t.reply.finish, t.oracle);
  }

  /** Tool calls never exceed their limit once they are within it, so in such a run the
      check before a turn never trips; it trips at once on a run that starts beyond it. */
  lemma {:induction false} ToolCallBudget(a: Agent, e: Engine, script: seq<Turn>, t: Turn)
    requires Handles(a) && Configured(a) && a.policy.toolCallsLimit.Some?
    ensures e.run.usage.toolCalls <= a.policy.toolCallsLimit.value ==>
              && RunLoop(a, e, script).0.run.usage.toolCalls <= a.policy.toolCallsLimit.value
              && Blocked(a, RunLoop(a, e, script).0.run, t) != Some(ToolCallsSpent)
    ensures e.run.usage.toolCalls > a.policy.toolCallsLimit.value && script != [] ==>
              RunLoop(a, e, script).1.Some? && RunLoop(a, e, script).0.run == e.run
    decreases |script|
  {
    if script != [] {
      if StepOpen(a, e, script[0]).err.None? {
        HandledSpends(a, StepOpen(a, e, script[0]), script[0]);
      }
      TurnKeepsToolBudget(a, e, script[0]);
      var (e', sig) := StepTurn(a, e, script[0]);
      if !Ends(sig) {
        ToolCallBudget(a, e', script[1..], t);
      }
    }
  }

  /* ----- retries ----- */

  /** Idle turns since tools last ran. */
  function IdleTail(notes: seq<Note>): nat {
    if notes == [] || notes[|notes| - 1].ToolTurn? then 0
    else IdleTail(notes[..|notes| - 1]) + if notes[|notes| - 1].IdleTurn? then 1 else 0
  }

  function CountIdle(notes: seq<Note>): nat {
    if notes == [] then 0 else CountIdle(notes[..|notes| - 1]) + if notes[|notes| - 1].IdleTurn? then 1 else 0
  }

  function Allowance(a: Agent): nat {
    if a.policy.maxRetries > 0 then a.policy.maxRetries else 0
  }

  ghost predicate RetriesKept(a: Agent, r: Run) {
    IdleTail(r.notes) <= r.retries && forall j :: 0 <= j <= |r.notes| ==> IdleTail(r.notes[..j]) <= Allowance(a)
  }

  ghost predicate SpendsRetries(a: Agent, r: Run, r': Run, sig: Signal) {
    && (sig.Dropped? ==> r'.notes == r.notes + [DroppedTurn] && r'.retries == r.retries)
    && (sig.Onward? ==>
          || (r'.notes == r.notes + [ToolTurn] && r'.retries == 0)
          || (r'.notes == r.notes + [IdleTurn] && r.retries < r'.retries <= a.policy.maxRetries))
    && (Ends(sig) ==> r'.notes == r.notes)
  }

  lemma TurnSpendsRetries(a: Agent, e: Engine, t: Turn)
    requires Handles(a) && Configured(a)
    ensures SpendsRetries(a, e.run, StepTurn(a, e, t).0.run, StepTurn(a, e, t).1)
  {
    var o := StepOpen(a, e, t);
    if o.err.None? {
      CloseCloses(a, o, t);
      HandledSpends(a, o, t);
    }
  }

  lemma RetriesStayKept(a: Agent, r: Run, r': Run, sig: Signal)
    requires RetriesKept(a, r) && SpendsRetries(a, r, r', sig) && !Ends(sig)
    ensures RetriesKept(a, r')
  {
    var n := |r.notes|;
    assert r'.notes[..n] == r.notes && r'.notes[..n + 1] == r'.notes && r.notes[..n] == r.notes;
    forall j | 0 <= j <= n + 1 ensures IdleTail(r'.notes[..j]) <= Allowance(a) {
      if j <= n {
        assert r'.notes[..j] == r.notes[..j];
      }
    }
  }

  lemma {:induction false} RunKeepsRetries(a: Agent, e: Engine, script: seq<Turn>)
    requires Handles(a) && Configured(a) && RetriesKept(a, e.run)
    ensures RetriesKept(a, RunLoop(a, e, script).0.run) || RunLoop(a, e, script).1.Some?
    ensures forall j :: 0 <= j <= |RunLoop(a, e, script).0.run.notes| ==>
              IdleTail(RunLoop(a, e, script).0.run.notes[..j]) <= Allowance(a)
    decreases |script|
  {
    if script != [] {
      TurnSpendsRetries(a, e, script[0]);
      var (e', sig) := StepTurn(a, e, script[0]);
      if !Ends(sig) {
        RetriesStayKept(a, e.run, e'.run, sig);
        RunKeepsRetries(a, e', script[1..]);
      }
    }
  }

  lemma {:induction false} WindowWithinTail(notes: seq<Note>, i: nat, j: nat)
    requires i <= j <= |notes| && forall k :: i <= k < j ==> !notes[k].ToolTurn?
    ensures CountIdle(notes[i..j]) <= IdleTail(notes[..j])
    decreases j
  {
    if i < j {
      assert notes[i..j][..j - i - 1] == notes[i..j - 1] && notes[..j][..j - 1] == notes[..j - 1];
      WindowWithinTail(notes, i, j - 1);
    }
  }

  /** In any stretch of a fresh run in which no turn runs a function tool, at most
      maxRetries turns continue the run, not counting dropped responses. */
  lemma IdleTurnsBounded(a: Agent, e: Engine, script: seq<Turn>, i: nat, j: nat)
    requires Handles(a) && Configured(a) && e.run.notes == [] && e.run.retries >= 0
    requires i <= j <= |RunLoop(a, e, script).0.run.notes|
    requires forall k :: i <= k < j ==> !RunLoop(a, e, script).0.run.notes[k].ToolTurn?
    ensures CountIdle(RunLoop(a, e, script).0.run.notes[i..j]) <= Allowance(a)
  {
    RunKeepsRetries(a, e, script);
    WindowWithinTail(RunLoop(a, e, script).0.run.notes, i, j);
  }

  /* ----- usage ----- */

  /** One of the amounts a provider reports. */
  datatype Field = Input | Out | CacheWrite | CacheRead | Detail(name: string)

  function Amount(u: Usage, f: Field): int {
    match f
    case Input => u.input
    case Out => u.output
    case CacheWrite => u.cacheWrite
    case CacheRead => u.cacheRead
    case Detail(name) => if name in u.details then u.details[name] else 0
  }

  function Total(us: seq<Usage>, f: Field): int {
    if us == [] then 0 else Amount(us[0], f) + Total(us[1..], f)
  }

  /** What the replies of the run reported, in order. */
  function Reported(a: Agent, e: Engine, script: seq<Turn>): (us: seq<Usage>)
    requires Configured(a)
    decreases |script|
  {
    if script == [] || StepOpen(a, e, script[0]).err.Some? || script[0].reply.NoReply? then []
    else
      var (e', sig) := StepTurn(a, e, script[0]);
      [script[0].reply.usage] + if Ends(sig) then [] else Reported(a, e', script[1..])
  }

  lemma AddedAmount(u: Usage, v: Usage, f: Field)
    ensures Amount(AddUsage(u, v), f) == Amount(u, f) + Amount(v, f)
  {
  }

  lemma TurnAddsUsage(a: Agent, e: Engine, t: Turn)
    requires Configured(a)
    ensures var o, r := StepOpen(a, e, t), StepTurn(a, e, t).0.run;
      && (o.err.Some? ==> r.usage.tokens == e.run.usage.tokens && r.usage.requests == e.run.usage.requests)
      && (o.err.None? ==> t.reply.Reply? && r.usage.requests == e.run.usage.requests + 1 &&
                          r.usage.tokens == AddUsage(e.run.usage.tokens, t.reply.usage))
  {
    var o := StepOpen(a, e, t);
    if o.err.None? {
      CloseAddsUsage(a, o, t);
    }
  }

  lemma CloseAddsUsage(a: Agent, o: Opened, t: Turn)
    requires t.reply.Reply?
    ensures var r := StepClose(a, o, t).0.run;
      r.usage.requests == o.run.usage.requests + 1 && r.usage.tokens == AddUsage(o.run.usage.tokens, t.reply.usage)
  {
  }

  /** A run's usage is what it started with plus what every reply reported, dropped ones
      included, once each and in every field. */
  lemma {:induction false} UsageConserved(a: Agent, e: Engine, script: seq<Turn>, f: Field)
    requires Configured(a)
    ensures var r := RunLoop(a, e, script).0.run;
      && Amount(r.usage.tokens, f) == Amount(e.run.usage.tokens, f) + Total(Reported(a, e, script), f)
      && r.usage.requests == e.run.usage.requests + |Reported(a, e, script)|
    decreases |script|
  {
    if script != [] {
      var t := script[0];
      TurnAddsUsage(a, e, t);
      var (e', sig) := StepTurn(a, e, t);
      if t.reply.Reply? {
        AddedAmount(e.run.usage.tokens, t.reply.usage, f);
      }
      if !Ends(sig) {
        UsageConserved(a, e', script[1..], f);
      }
    }
  }

  /** A streamed turn counts what its response reports, and what the stream collected only
      if the response reports nothing. */
  lemma StreamedUsage(d: Delivery, f: Field)
    requires d.turn.reply.Reply?
    ensures Amount(d.own, f) != 0 ==> Heard(d).reply.usage == d.own
    ensures Heard(d).reply.usage == d.own || (Heard(d).reply.usage == d.streamed && Amount(d.own, f) == 0)
    ensures d.own == Usage(0, 0, 0, 0, map[]) ==> Heard(d).reply.usage == d.streamed
  {
  }

  /** Within every limit that is set. */
  predicate WithinTokens(l: Limits, u: Usage) {
    && (l.input.Some? ==> u.input <= l.input.value)
    && (l.output.Some? ==> u.output <= l.output.value)
    && (l.total.Some? ==> u.input + u.output <= l.total.value)
  }

  /** A turn goes on, or ends well, only within the limits; a kept reply that exceeds one
      ends the run for that reason. */
  lemma TurnChecksTokens(a: Agent, e: Engine, t: Turn)
    requires Configured(a)
    ensures var (e', sig) := StepTurn(a, e, t);
      && (sig.Onward? || sig.Finished? || sig.Waiting? ==> WithinTokens(a.limits, e'.run.usage.tokens))
      && (StepOpen(a, e, t).err.None? && !t.dropped && !WithinTokens(a.limits, e'.run.usage.tokens) ==>
        sig == Failed(TokenLimit))
  {
    if StepOpen(a, e, t).err.None? {
      CloseChecksTokens(a, StepOpen(a, e, t), t);
    }
  }

  lemma CloseChecksTokens(a: Agent, o: Opened, t: Turn)
    requires t.reply.Reply?
    ensures var (e', sig) := StepClose(a, o, t);
      && (sig.Onward? || sig.Finished? || sig.Waiting? ==> WithinTokens(a.limits, e'.run.usage.tokens))
      && (!t.dropped && !WithinTokens(a.limits, e'.run.usage.tokens) ==> sig == Failed(TokenLimit))
  {
  }

  /** A run that ends with an output or waiting for deferred results is within its token
      limits. */
  lemma {:induction false} EndsWithinTokens(a: Agent, e: Engine, script: seq<Turn>)
    requires Configured(a)
    ensures var (e', sig) := RunLoop(a, e, script);
      sig.Some? && (sig.value.Finished? || sig.value.Waiting?) ==> WithinTokens(a.limits, e'.run.usage.tokens)
    decreases |script|
  {
    if script != [] {
      TurnChecksTokens(a, e, script[0]);
      var (e', sig) := StepTurn(a, e, script[0]);
      if !Ends(sig) {
        EndsWithinTokens(a, e', script[1..]);
      }
    }
  }

  /* ----- turn events ----- */

  /** Started and completed events alternate, each pair for one turn, turns in order. */
  ghost predicate Alternate(ev: seq<Event>, step: nat) {
    && (forall k :: 0 <= k < |ev| ==> (k % 2 == 0 <==> ev[k].TurnStarted?) && ev[k].turn <= step)
    && (forall k, l :: 0 <= k && l == k + 1 < |ev| ==>
          if k % 2 == 0 then ev[l].turn == ev[k].turn else ev[l].turn > ev[k].turn)
  }

  /** A turn is open exactly when the last event is its start. */
  ghost predicate Lively(r: Run, open: bool) {
    Alternate(r.events, r.step) && (|r.events| % 2 == 1 <==> open) && (open ==> r.events[|r.events| - 1].turn == r.step)
  }

  lemma OpenStartsOnce(a: Agent, e: Engine, t: Turn)
    requires Configured(a) && Lively(e.run, false)
    ensures var o := StepOpen(a, e, t); Lively(o.run, o.err.None?)
  {
    OpenAnnouncesOnce(a, e, t);
    StartOpens(e.run);
    CompleteCloses(Started(e.run));
  }

  /** The two runs tell the same story of turns. */
  ghost predicate SameTurns(r: Run, r': Run) {
    r.events == r'.events && r.step == r'.step
  }

  lemma OpenAnnouncesOnce(a: Agent, e: Engine, t: Turn)
    requires Configured(a)
    ensures var o := StepOpen(a, e, t);
      if o.err.None? then SameTurns(o.run, Started(e.run))
      else SameTurns(o.run, e.run) || SameTurns(o.run, Complete(Started(e.run), true))
  {
  }

  /** The run once its next turn has been announced. */
  function Started(r: Run): Run {
    r.(step := r.step + 1, events := r.events + [TurnStarted(r.step + 1)])
  }

  lemma StartOpens(r: Run)
    requires Lively(r, false)
    ensures Lively(Started(r), true)
  {
  }

  lemma CompleteCloses(r: Run)
    requires Lively(r, true)
    ensures Lively(Complete(r, true), false) && Lively(Complete(r, false), false)
  {
  }

  lemma StepBalancesEvents(a: Agent, e: Engine, t: Turn)
    requires Configured(a) && Lively(e.run, false)
    ensures Lively(StepTurn(a, e, t).0.run, false)
  {
    var o := StepOpen(a, e, t);
    OpenStartsOnce(a, e, t);
    if o.err.None? {
      CompleteCloses(o.run);
      CloseCloses(a, o, t);
    }
  }

  /** In every run the turn events alternate and end balanced, whatever ended it. */
  lemma {:induction false} RunBalancesEvents(a: Agent, e: Engine, script: seq<Turn>)
    requires Configured(a) && Lively(e.run, false)
    ensures Lively(RunLoop(a, e, script).0.run, false)
    decreases |script|
  {
    if script != [] {
      StepBalancesEvents(a, e, script[0]);
      var (e', sig) := StepTurn(a, e, script[0]);
      if !Ends(sig) {
        RunBalancesEvents(a, e', script[1..]);
      }
    }
  }

  /* ----- a steered run after an accepted output ----- */

  function FirstGoodIndex(o: Oracle, i: nat, n: nat): Option<nat>
    requires i <= n
    decreases n - i
  {
    if i == n then None else if o.output(i).Good? then Some(i) else FirstGoodIndex(o, i + 1, n)
  }

  /** The calls that an early accepted output leaves unanswered. */
  function Leftover(p: Policy, o: Oracle, calls: seq<Call>): seq<Call> {
    var outputs := Pick(p, Output, calls);
    var good := FirstGoodIndex(o, 0, |outputs|);
    if good.None? || good.value >= |outputs| then [] else outputs[good.value + 1..] + Pick(p, Function, calls)
  }

  lemma {:induction false} FirstGoodIndexIs(o: Oracle, i: nat, n: nat, g: nat)
    requires i <= g < n && FirstGood(o, g)
    ensures FirstGoodIndex(o, i, n) == Some(g)
    decreases n - i
  {
    if i < g {
      FirstGoodIndexIs(o, i + 1, n, g);
    }
  }

  /** When steering messages arrive with an accepted output, the stream goes on from this
      history (core/stream.go 762-773). It may be sent if and only if the end strategy is
      not early or no call is left over. */
  lemma SteeredContinuation(p: Policy, h: seq<Message>, c: Counters, resp: Message, o: Oracle, steers: seq<RequestPart>)
    requires Sendable(h) && resp.Response?
    requires var v := Process(p, h + [resp], c, resp.parts, resp.finish, o).1;
      v.Turned? && v.result.Some? && v.deferred == []
    ensures var v := Process(p, h + [resp], c, resp.parts, resp.finish, o).1;
      Sendable(After(h, resp, v.answers) + [Request(steers)]) <==> !(p.early && Leftover(p, o, Calls(resp.parts)) != [])
  {
    var v := Process(p, h + [resp], c, resp.parts, resp.finish, o).1;
    var calls := Calls(resp.parts);
    var h' := After(h, resp, v.answers) + [Request(steers)];
    if calls == [] {
      var h1 := h + [resp];
      assert WellFormed(h1);
      PromptIsSendable(h1, v.answers);
      PromptIsSendable(After(h, resp, v.answers), steers);
    } else if !p.early {
      forall k ensures Given(v.answers, k) == Asked(calls, k) {
        CallsAnswered(p, h + [resp], c, resp.parts, resp.finish, o, k);
      }
      AnswersNonEmpty(calls, v.answers);
      ExchangeIsSendable(h, resp, v.answers);
      assert After(h, resp, v.answers) == h + [resp, Request(v.answers)];
      PromptIsSendable(After(h, resp, v.answers), steers);
    } else {
      EarlyContinuation(p, h, c, resp, o, steers);
    }
  }

  /* ----- prompting a finished run again ----- */

  /** The turn that ended the run. */
  function LastTurn(a: Agent, e: Engine, script: seq<Turn>): Turn
    requires Configured(a) && RunLoop(a, e, script).1.Some?
    decreases |script|
  {
    var (e', sig) := StepTurn(a, e, script[0]);
    if Ends(sig) then script[0] else LastTurn(a, e', script[1..])
  }

  /** A turn that ends the run with an output leaves its calls answered: a run condition
      that stops it only if there are none, an accepted output only if none is left over. */
  predicate LeavesNoCall(p: Policy, t: Turn) {
    t.reply.Reply? &&
    if t.stop.StopWith? then Calls(t.reply.parts) == []
      else !(p.early && Leftover(p, t.oracle, Calls(t.reply.parts)) != [])
  }

  lemma SettledHistory(r: Run, t: Turn, c: Counters, v: Verdict, h: seq<Message>, resp: Message)
    requires Settle(r, t, c, v).1.Finished? && r.messages == h + [resp]
    ensures v.Turned? && v.result.Some? && v.deferred == [] &&
      Settle(r, t, c, v).0.messages == After(h, resp, v.answers)
  {
    assert h + [resp] + [] == h + [resp];
  }

  lemma FinishedHistory(a: Agent, o: Opened, t: Turn)
    requires t.reply.Reply? && StepClose(a, o, t).1.Finished?
    ensures var (c, v) := Handled(a, o, t); var m := StepClose(a, o, t).0.run.messages;
      if t.stop.StopWith? then m == o.run.messages + [Answer(t)]
      else v.Turned? && v.result.Some? && v.deferred == [] && m == After(o.run.messages, Answer(t), v.answers)
  {
    if !t.stop.StopWith? {
      var r1 := CountRequest(o.run, t.reply.usage);
      var (c, v) := Handled(a, o, t);
      SettledHistory(r1.(messages := r1.messages + [Answer(t)]), t, c, v, o.run.messages, Answer(t));
    }
  }

  lemma StoppedContinues(h: seq<Message>, resp: Message, prompt: seq<RequestPart>)
    requires Sendable(h) && resp.Response? && forall k :: Given(prompt, k) == 0
    ensures Sendable(h + [resp] + [Request(prompt)]) <==> Calls(resp.parts) == []
  {
    var h1 := h + [resp];
    if Calls(resp.parts) == [] {
      assert WellFormed(h1);
      PromptIsSendable(h1, prompt);
    } else {
      var k := KeyOf(Calls(resp.parts)[|Calls(resp.parts)| - 1]);
      assert Asked(Calls(resp.parts), k) > 0;
      assert (h1 + [Request(prompt)])[|h|] == resp && (h1 + [Request(prompt)])[|h| + 1] == Request(prompt);
      assert !Answered(resp.parts, Request(prompt));
    }
  }

  lemma {:induction false} TurnContinues(a: Agent, e: Engine, t: Turn, prompt: seq<RequestPart>)
    requires Handles(a) && Configured(a) && Sendable(e.run.messages) && forall k :: Given(prompt, k) == 0
    requires StepTurn(a, e, t).1.Finished?
    ensures Sendable(StepTurn(a, e, t).0.run.messages + [Request(prompt)]) <==> LeavesNoCall(a.policy, t)
  {
    var o := StepOpen(a, e, t);
    OpenKeepsSendable(a, e, t);
    FinishedHistory(a, o, t);
    if t.stop.StopWith? {
      StoppedContinues(o.run.messages, Answer(t), prompt);
    } else {
      SteeredContinuation(a.policy, o.run.messages, CountersOf(CountRequest(o.run, t.reply.usage)), Answer(t), t.oracle,
        prompt);
    }
  }

  /** The history that a run with an output leaves can be prompted again if and only if its
      last turn left no call unanswered. */
  lemma {:induction false} FinishedContinues(a: Agent, e: Engine, script: seq<Turn>, prompt: seq<RequestPart>)
    requires Handles(a) && Configured(a) && Sendable(e.run.messages) && forall k :: Given(prompt, k) == 0
    requires RunLoop(a, e, script).1.Some? && RunLoop(a, e, script).1.value.Finished?
    ensures Sendable(RunLoop(a, e, script).0.run.messages + [Request(prompt)]) <==>
      LeavesNoCall(a.policy, LastTurn(a, e, script))
    decreases |script|
  {
    var t := script[0];
    var (e', sig) := StepTurn(a, e, t);
    if Ends(sig) {
      TurnContinues(a, e, t, prompt);
    } else {
      OpenKeepsSendable(a, e, t);
      CloseKeepsSendable(a, StepOpen(a, e, t), t);
      FinishedContinues(a, e', script[1..], prompt);
    }
  }

  /* ----- resuming a run that waits ----- */

  lemma WaitingHistory(a: Agent, o: Opened, t: Turn)
    requires t.reply.Reply? && StepClose(a, o, t).1.Waiting?
    ensures var (c, v) := Handled(a, o, t);
      && v.Turned? && v.deferred != [] && StepClose(a, o, t).1 == Signal.Waiting(v.deferred)
      && StepClose(a, o, t).0.run.messages == After(o.run.messages, Answer(t), v.answers)
  {
    var r1 := CountRequest(o.run, t.reply.usage);
    var (c, v) := Handled(a, o, t);
    SettledWaiting(r1.(messages := r1.messages + [Answer(t)]), t, c, v, o.run.messages, Answer(t));
  }

  lemma SettledWaiting(r: Run, t: Turn, c: Counters, v: Verdict, h: seq<Message>, resp: Message)
    requires Settle(r, t, c, v).1.Waiting? && r.messages == h + [resp]
    ensures v.Turned? && v.deferred != [] && Settle(r, t, c, v).1 == Signal.Waiting(v.deferred)
    ensures Settle(r, t, c, v).0.messages == After(h, resp, v.answers)
  {
    assert h + [resp] + [] == h + [resp];
  }

  lemma {:induction false} TurnResumes(a: Agent, e: Engine, t: Turn, rs: seq<DeferredResult>)
    requires Handles(a) && Configured(a) && Sendable(e.run.messages) && StepTurn(a, e, t).1.Waiting?
    requires forall k :: Given(DeferredParts(rs), k) == Asked(StepTurn(a, e, t).1.calls, k)
    ensures Sendable(Inject(StepTurn(a, e, t).0.run.messages, rs))
  {
    var o := StepOpen(a, e, t);
    OpenKeepsSendable(a, e, t);
    WaitingHistory(a, o, t);
    ResumeAnswersAll(a.policy, o.run.messages, CountersOf(CountRequest(o.run, t.reply.usage)), Answer(t), t.oracle, rs);
  }

  /** A run that ends waiting for deferred calls, resumed with one result per call, goes on
      from a history that may be sent. */
  lemma {:induction false} WaitingRunResumes(a: Agent, e: Engine, script: seq<Turn>, rs: seq<DeferredResult>)
    requires Handles(a) && Configured(a) && Sendable(e.run.messages)
    requires RunLoop(a, e, script).1.Some? && RunLoop(a, e, script).1.value.Waiting?
    requires forall k :: Given(DeferredParts(rs), k) == Asked(RunLoop(a, e, script).1.value.calls, k)
    ensures Sendable(Inject(RunLoop(a, e, script).0.run.messages, rs))
    decreases |script|
  {
    var t := script[0];
    var (e', sig) := StepTurn(a, e, t);
    if Ends(sig) {
      TurnResumes(a, e, t, rs);
    } else {
      OpenKeepsSendable(a, e, t);
      CloseKeepsSendable(a, StepOpen(a, e, t), t);
      WaitingRunResumes(a, e', script[1..], rs);
    }
  }

  /* ----- runs that fail to leave a good history ----- */

  /** The failing cases: a run condition stops a turn that has text and a call, and the
      text becomes the output ... */
  lemma StoppedRunBreaksHistory(a: Agent, e: Engine, t: Turn, prompt: seq<RequestPart>, text: string, x: Call)
    requires Handles(a) && Configured(a) && Sendable(e.run.messages) && forall k :: Given(prompt, k) == 0
    requires Blocked(a, e.run, t).None? && t.prep.None? && !t.dropped && a.limits.input.None? && a.limits.output.None?
    requires t.reply.Reply? && t.reply.parts == [Text(text), ToolCall(x)] && t.stop.StopWith? && a.limits.total.None?
    ensures RunLoop(a, e, [t]).1 == Some(Finished(t.stop.output))
    ensures !Sendable(RunLoop(a, e, [t]).0.run.messages + [Request(prompt)])
  {
    assert t.reply.parts[..1] == [Text(text)];
    assert Calls(t.reply.parts) == Calls([Text(text)]) + [x];
    assert RunLoop(a, e, [t]).1 == Some(Finished(t.stop.output));
    FinishedContinues(a, e, [t], prompt);
  }

  /** ... or an output is accepted early next to a function call. */
  lemma EarlyRunBreaksHistory(a: Agent, e: Engine, t: Turn, prompt: seq<RequestPart>, x: Call, y: Call)
    requires Handles(a) && Configured(a) && Sendable(e.run.messages) && forall k :: Given(prompt, k) == 0
    requires Blocked(a, e.run, t).None? && t.prep.None? && !t.dropped && a.limits.input.None? && a.limits.output.None?
    requires t.reply.Reply? && t.reply.parts == [ToolCall(x), ToolCall(y)] && t.stop.GoOn? && a.limits.total.None?
    requires a.policy.early && KindOf(a.policy, x) == Output && KindOf(a.policy, y) == Function
    requires t.oracle.output(0).Good? && !t.storeFails
    ensures RunLoop(a, e, [t]).1.Some? && RunLoop(a, e, [t]).1.value.Finished?
    ensures !Sendable(RunLoop(a, e, [t]).0.run.messages + [Request(prompt)])
  {
    var o := StepOpen(a, e, t);
    OpenKeepsSendable(a, e, t);
    var c := CountersOf(CountRequest(o.run, t.reply.usage));
    EarlySteerBreaksHistory(a.policy, o.run.messages, c, Answer(t), t.oracle, prompt, x, y);
    assert StepTurn(a, e, t).1.Finished?;
    TurnContinues(a, e, t, prompt);
    SteeredContinuation(a.policy, o.run.messages, c, Answer(t), t.oracle, prompt);
  }

  lemma AnswersNonEmpty(calls: seq<Call>, answers: seq<RequestPart>)
    requires calls != [] && forall k :: Given(answers, k) == Asked(calls, k)
    ensures answers != []
  {
    assert Given(answers, KeyOf(calls[|calls| - 1])) > 0;
  }

  lemma EarlyAccount(p: Policy, h: seq<Message>, c: Counters, parts: seq<ResponsePart>, finish: FinishReason, o: Oracle,
      k: Key)
    requires var v := Process(p, h, c, parts, finish, o).1; v.Turned? && p.early && v.result.Some? && Calls(parts) != []
    ensures Given(Process(p, h, c, parts, finish, o).1.answers, k) + Asked(Leftover(p, o, Calls(parts)), k) ==
      Asked(Calls(parts), k)
  {
    var calls := Calls(parts);
    var i := EarlyLeavesRest(p, h, c, parts, finish, o, k);
    FirstGoodIndexIs(o, 0, |Pick(p, Output, calls)|, i);
    AskedAppend(Pick(p, Output, calls)[i + 1..], Pick(p, Function, calls), k);
  }

  lemma EarlyContinuation(p: Policy, h: seq<Message>, c: Counters, resp: Message, o: Oracle, steers: seq<RequestPart>)
    requires Sendable(h) && resp.Response? && Calls(resp.parts) != []
    requires var v := Process(p, h + [resp], c, resp.parts, resp.finish, o).1; v.Turned? && p.early && v.result.Some?
    ensures var v := Process(p, h + [resp], c, resp.parts, resp.finish, o).1;
      Sendable(After(h, resp, v.answers) + [Request(steers)]) <==> Leftover(p, o, Calls(resp.parts)) == []
  {
    var v := Process(p, h + [resp], c, resp.parts, resp.finish, o).1;
    var calls := Calls(resp.parts);
    var left := Leftover(p, o, calls);
    var h' := After(h, resp, v.answers) + [Request(steers)];
    forall k ensures Given(v.answers, k) + Asked(left, k) == Asked(calls, k) {
      EarlyAccount(p, h + [resp], c, resp.parts, resp.finish, o, k);
    }
    EarlyAnswersSomething(p, h + [resp], c, resp.parts, resp.finish, o);
    assert After(h, resp, v.answers) == h + [resp, Request(v.answers)];
    if left == [] {
      ExchangeIsSendable(h, resp, v.answers);
      PromptIsSendable(After(h, resp, v.answers), steers);
    } else {
      EarlyUnanswered(p, h + [resp], c, resp, o);
      assert h'[|h|] == resp && h'[|h| + 1] == Request(v.answers);
    }
  }

  /** What is left over is a call that the answers do not answer. */
  lemma EarlyUnanswered(p: Policy, h: seq<Message>, c: Counters, resp: Message, o: Oracle)
    requires resp.Response? && Leftover(p, o, Calls(resp.parts)) != [] && Calls(resp.parts) != []
    requires var v := Process(p, h, c, resp.parts, resp.finish, o).1; v.Turned? && p.early && v.result.Some?
    ensures !Answered(resp.parts, Request(Process(p, h, c, resp.parts, resp.finish, o).1.answers))
  {
    var left := Leftover(p, o, Calls(resp.parts));
    var k := KeyOf(left[|left| - 1]);
    EarlyAccount(p, h, c, resp.parts, resp.finish, o, k);
    assert Asked(left, k) > 0;
  }

  lemma EarlyAnswersSomething(p: Policy, h: seq<Message>, c: Counters, parts: seq<ResponsePart>, finish: FinishReason,
      o: Oracle)
    requires var v := Process(p, h, c, parts, finish, o).1; v.Turned? && p.early && v.result.Some? && Calls(parts) != []
    ensures Process(p, h, c, parts, finish, o).1.answers != []
  {
    EarlyResultStops(p, h, c, parts, finish, o);
  }

  /** The failing case: an output accepted early next to a function call. */
  lemma EarlySteerBreaksHistory(p: Policy, h: seq<Message>, c: Counters, resp: Message, o: Oracle,
      steers: seq<RequestPart>, x: Call, y: Call)
    requires Sendable(h) && resp.Response? && resp.parts == [ToolCall(x), ToolCall(y)]
    requires p.early && KindOf(p, x) == Output && KindOf(p, y) == Function && o.output(0).Good?
    ensures var v := Process(p, h + [resp], c, resp.parts, resp.finish, o).1;
      v.Turned? && v.result.Some? && v.deferred == [] && !Sendable(After(h, resp, v.answers) + [Request(steers)])
  {
    PairOfCalls(x, y);
    PickPair(p, x, y);
    OneGoodOutput(p, h + [resp], o, x, Outputs(c.retries, None, [], Going));
    var v := Process(p, h + [resp], c, resp.parts, resp.finish, o).1;
    assert v.Turned? && v.result.Some? && v.deferred == [];
    assert FirstGoodIndex(o, 0, 1) == Some(0);
    assert [x][1..] + [y] == [y];
    assert Leftover(p, o, [x, y]) == [y];
    EarlyContinuation(p, h, c, resp, o, steers);
  }

  lemma PairOfCalls(x: Call, y: Call)
    ensures Calls([ToolCall(x), ToolCall(y)]) == [x, y]
  {
    var parts := [ToolCall(x), ToolCall(y)];
    assert parts[..1] == [ToolCall(x)] && parts[..1][..0] == [];
    assert Calls(parts[..1]) == [x];
  }

  lemma PickPair(p: Policy, x: Call, y: Call)
    requires KindOf(p, x) == Output && KindOf(p, y) == Function
    ensures Pick(p, Output, [x, y]) == [x] && Pick(p, Function, [x, y]) == [y] && Pick(p, Unknown, [x, y]) == []
  {
    assert [x, y][..1] == [x] && [x][..0] == [];
    assert forall kind :: Pick(p, kind, [x][..0]) == [];
    assert Pick(p, Output, [x]) == [x];
    assert Pick(p, Function, [x]) == [];
    assert Pick(p, Unknown, [x]) == [];
  }

  lemma OneGoodOutput(p: Policy, h: seq<Message>, o: Oracle, x: Call, start: Outputs)
    requires p.early && start.exit.Going? && start.result.None? && o.output(0).Good?
    ensures OutputLoop(p, h, o, [x], start).exit.Early? && OutputLoop(p, h, o, [x], start).result.Some?
  {
    assert [x][..0] == [];
  }
}
