/** Whole runs of a stream with a steer queue (core/stream.go 589-802, 846-868): after a
    turn that is dropped, continues or has an accepted output, messages taken from the queue
    become a request of their own and the run goes on. */
module SteeredRuns {
  import opened Transcript
  import opened Responses
  import opened Compaction
  import opened Engines
  import opened RunProperties

  /** A turn, and the parts of the messages taken after it; none if the queue was empty. */
  datatype SteeredTurn = SteeredTurn(turn: Turn, steers: seq<RequestPart>)

  /** The turn as the engine runs it: with messages at hand, an accepted output is not
      offered to the knowledge base. */
  function Unsteered(n: SteeredTurn): Turn {
    if n.steers == [] then n.turn else n.turn.(storeFails := false)
  }

  /** Messages are taken behind this turn: not when it failed, waits, or was stopped by a
      run condition. */
  predicate Takes(t: Turn, sig: Signal) {
    sig.Dropped? || sig.Onward? || (sig.Finished? && !t.stop.StopWith?)
  }

  function Steer(a: Agent, e: Engine, n: SteeredTurn): (Engine, Signal)
    requires Configured(a)
  {
    var (e', sig) := StepTurn(a, e, Unsteered(n));
    if n.steers == [] || !Takes(n.turn, sig) then (e', sig)
    else (e'.(run := e'.run.(messages := e'.run.messages + [Request(n.steers)])), if sig.Finished? then Onward else sig)
  }

  function SteeredLoop(a: Agent, e: Engine, script: seq<SteeredTurn>): (Engine, Option<Signal>)
    requires Configured(a)
    decreases |script|
  {
    if script == [] then (e, None)
    else
      var (e', sig) := Steer(a, e, script[0]);
      if Ends(sig) then (e', Some(sig)) else SteeredLoop(a, e', script[1..])
  }

  /** The turn accepted an output early, left calls over, and was steered on. */
  predicate Breaks(a: Agent, e: Engine, n: SteeredTurn)
    requires Configured(a)
  {
    var t := Unsteered(n);
    && n.steers != [] && StepTurn(a, e, t).1.Finished? && !t.stop.StopWith? && t.reply.Reply?
    && a.policy.early && Leftover(a.policy, t.oracle, Calls(t.reply.parts)) != []
  }

  /** Some turn before request i broke the history. */
  predicate BrokenBefore(a: Agent, e: Engine, script: seq<SteeredTurn>, i: nat)
    requires Configured(a)
    decreases |script|
  {
    i > |e.run.sent| && script != [] &&
    (Breaks(a, e, script[0]) ||
     (!Ends(Steer(a, e, script[0]).1) && BrokenBefore(a, Steer(a, e, script[0]).0, script[1..], i)))
  }

  /** Some response's calls are not answered by the message behind it. */
  ghost predicate Dangling(h: seq<Message>) {
    exists j :: UnansweredAt(h, j)
  }

  ghost predicate UnansweredAt(h: seq<Message>, j: int) {
    0 <= j < |h| - 1 && h[j].Response? && Calls(h[j].parts) != [] && !Answered(h[j].parts, h[j + 1])
  }

  lemma DanglingGrows(h: seq<Message>, h': seq<Message>)
    requires Dangling(h) && h <= h'
    ensures Dangling(h') && !Sendable(h')
  {
    var j :| UnansweredAt(h, j);
    assert UnansweredAt(h', j);
  }

  /* ----- one turn ----- */

  ghost predicate PlainSteers(n: SteeredTurn) {
    forall k :: Given(n.steers, k) == 0
  }

  /** Messages at hand enter the history behind every turn that did not fail, wait or meet a
      run condition, and the run goes on, an accepted output notwithstanding; behind the
      others they do not. */
  lemma MessagesEnter(a: Agent, e: Engine, n: SteeredTurn)
    requires Configured(a) && n.steers != []
    ensures var (e1, sig) := StepTurn(a, e, n.turn.(storeFails := false)); var (e', sig') := Steer(a, e, n);
      if sig.Failed? || sig.Waiting? || (sig.Finished? && n.turn.stop.StopWith?) then (e', sig') == (e1, sig)
      else e' == e1.(run := e1.run.(messages := e1.run.messages + [Request(n.steers)])) && !Ends(sig')
  {
  }

  /** So the next request, unless something was compacted, ends with them. */
  lemma MessagesAreSent(a: Agent, e: Engine, n: SteeredTurn, e1: Engine, sig: Signal, next: SteeredTurn, e2: Engine)
    requires Configured(a) && a.autoContext.None? && n.steers != []
    requires Steer(a, e, n) == (e1, sig) && !Ends(sig)
    requires Steer(a, e1, next).0 == e2 && |e2.run.sent| > |e1.run.sent|
    ensures var h := e2.run.sent[|e2.run.sent| - 1].history; h != [] && h[|h| - 1] == Request(n.steers)
  {
    MessagesEnter(a, e, n);
    SteerSends(a, e1, next);
    TurnOnlyAppends(a, e1, next);
  }

  lemma SteerSends(a: Agent, e: Engine, n: SteeredTurn)
    requires Configured(a)
    ensures var o := StepOpen(a, e, Unsteered(n)); var sent := Steer(a, e, n).0.run.sent;
      sent == e.run.sent || exists choice :: sent == e.run.sent + [Sent(o.run.messages, choice)]
  {
    OpenSendsOnce(a, e, Unsteered(n));
    SentGrowsByTurn(a, e, Unsteered(n));
  }

  lemma GoingOnSends(a: Agent, e: Engine, n: SteeredTurn)
    requires Configured(a) && !Ends(Steer(a, e, n).1)
    ensures |Steer(a, e, n).0.run.sent| == |e.run.sent| + 1
  {
    OpenSends(a, e, Unsteered(n));
    SentGrowsByTurn(a, e, Unsteered(n));
  }

  lemma OpenSends(a: Agent, e: Engine, t: Turn)
    requires Configured(a)
    ensures StepOpen(a, e, t).err.None? ==> |StepOpen(a, e, t).run.sent| == |e.run.sent| + 1
  {
  }

  lemma GoodTurnKeepsSendable(a: Agent, e: Engine, n: SteeredTurn)
    requires Handles(a) && Configured(a) && Sendable(e.run.messages) && PlainSteers(n)
    requires !Ends(Steer(a, e, n).1) && !Breaks(a, e, n)
    ensures Sendable(Steer(a, e, n).0.run.messages)
  {
    var t := Unsteered(n);
    var (e', sig) := StepTurn(a, e, t);
    if sig.Finished? {
      TurnContinues(a, e, t, n.steers);
      TurnReplied(a, e, t);
    } else {
      OpenKeepsSendable(a, e, t);
      CloseKeepsSendable(a, StepOpen(a, e, t), t);
      if n.steers != [] {
        PromptIsSendable(e'.run.messages, n.steers);
      }
    }
  }

  lemma TurnReplied(a: Agent, e: Engine, t: Turn)
    requires Configured(a) && StepTurn(a, e, t).1.Finished?
    ensures t.reply.Reply? && StepOpen(a, e, t).err.None?
  {
  }

  lemma BadTurnDangles(a: Agent, e: Engine, n: SteeredTurn)
    requires Handles(a) && Configured(a) && Breaks(a, e, n)
    ensures Dangling(Steer(a, e, n).0.run.messages)
  {
    var t := Unsteered(n);
    var o := StepOpen(a, e, t);
    TurnReplied(a, e, t);
    FinishedHistory(a, o, t);
    var h, resp := o.run.messages, Answer(t);
    var c := CountersOf(CountRequest(o.run, t.reply.usage));
    EarlyAnswersSomething(a.policy, h + [resp], c, resp.parts, resp.finish, t.oracle);
    EarlyUnanswered(a.policy, h + [resp], c, resp, t.oracle);
    assert UnansweredAt(Steer(a, e, n).0.run.messages, |h|);
  }

  lemma TurnOnlyAppends(a: Agent, e: Engine, n: SteeredTurn)
    requires Configured(a) && a.autoContext.None?
    ensures StepOpen(a, e, Unsteered(n)).run.messages == e.run.messages
    ensures e.run.messages <= Steer(a, e, n).0.run.messages
  {
    var t := Unsteered(n);
    var o := StepOpen(a, e, t);
    if o.err.None? {
      CloseOnlyAppends(a, o, t);
    }
  }

  lemma CloseOnlyAppends(a: Agent, o: Opened, t: Turn)
    requires t.reply.Reply?
    ensures o.run.messages <= StepClose(a, o, t).0.run.messages
  {
  }

  lemma {:induction false} SteeredSentGrows(a: Agent, e: Engine, script: seq<SteeredTurn>)
    requires Configured(a)
    ensures e.run.sent <= SteeredLoop(a, e, script).0.run.sent
    decreases |script|
  {
    if script != [] {
      SteerSends(a, e, script[0]);
      var (e', sig) := Steer(a, e, script[0]);
      if !Ends(sig) {
        SteeredSentGrows(a, e', script[1..]);
      }
    }
  }

  /* ----- whole runs ----- */

  /** A history that dangles is sent on with every later request. */
  lemma {:induction false} DanglingIsSent(a: Agent, e: Engine, script: seq<SteeredTurn>, i: nat)
    requires Configured(a) && a.autoContext.None? && Dangling(e.run.messages)
    requires |e.run.sent| <= i < |SteeredLoop(a, e, script).0.run.sent|
    ensures !Sendable(SteeredLoop(a, e, script).0.run.sent[i].history)
    decreases |script|
  {
    var n := script[0];
    SteerSends(a, e, n);
    TurnOnlyAppends(a, e, n);
    DanglingGrows(e.run.messages, e.run.messages);
    var (e', sig) := Steer(a, e, n);
    if !Ends(sig) {
      SteeredSentGrows(a, e', script[1..]);
      DanglingGrows(e.run.messages, e'.run.messages);
      if i >= |e'.run.sent| {
        DanglingIsSent(a, e', script[1..], i);
      }
    }
  }

  /** Every history a steered run sends may be sent unless an earlier turn accepted an output
      early with calls left over and was steered on; and then, as long as nothing is
      compacted away, no later one may. */
  lemma {:induction false} SteeredRequests(a: Agent, e: Engine, script: seq<SteeredTurn>, i: nat)
    requires Handles(a) && Configured(a) && Sendable(e.run.messages)
    requires forall j :: 0 <= j < |script| ==> PlainSteers(script[j])
    requires |e.run.sent| <= i < |SteeredLoop(a, e, script).0.run.sent|
    ensures !BrokenBefore(a, e, script, i) ==> Sendable(SteeredLoop(a, e, script).0.run.sent[i].history)
    ensures a.autoContext.None? && BrokenBefore(a, e, script, i) ==>
              !Sendable(SteeredLoop(a, e, script).0.run.sent[i].history)
    decreases |script|
  {
    var n := script[0];
    SteerSends(a, e, n);
    OpenKeepsSendable(a, e, Unsteered(n));
    var (e', sig) := Steer(a, e, n);
    if !Ends(sig) {
      SteeredSentGrows(a, e', script[1..]);
      GoingOnSends(a, e, n);
      if i >= |e'.run.sent| {
        if Breaks(a, e, n) {
          BadTurnDangles(a, e, n);
          if a.autoContext.None? {
            DanglingIsSent(a, e', script[1..], i);
          }
        } else {
          GoodTurnKeepsSendable(a, e, n);
          SteeredRequests(a, e', script[1..], i);
        }
      }
    }
  }

  function Turns(script: seq<SteeredTurn>): seq<Turn> {
    if script == [] then [] else [script[0].turn] + Turns(script[1..])
  }

  /** Without messages this is the run that both engines agree on. */
  lemma {:induction false} UnsteeredRunIsRun(a: Agent, e: Engine, script: seq<SteeredTurn>)
    requires Configured(a) && forall j :: 0 <= j < |script| ==> script[j].steers == []
    ensures SteeredLoop(a, e, script) == RunLoop(a, e, Turns(script))
    decreases |script|
  {
    if script != [] {
      var (e', sig) := Steer(a, e, script[0]);
      assert Turns(script)[1..] == Turns(script[1..]);
      if !Ends(sig) {
        UnsteeredRunIsRun(a, e', script[1..]);
      }
    }
  }
}
