/** Approval requests (appserver/approval.go): any number of callers wait, each on a
    channel of capacity one, for a client's response or for their context to end. Every
    mutex section and every channel operation is one atomic step. */
module Approvals {
  import opened Transcript

  type Caller = nat
  type Responder = nat
  type Path = string

  datatype Kind = FileChange | Command | Permissions

  /** A client's answer: a direct verdict (Respond), or a decoded reply (RespondResponse).
      Bad stands for an error reply, an oversized one, and one that does not decode. */
  datatype Answer = Direct(approved: bool) | Accept | AcceptForSession | Decline | CancelTurn | Bad

  /** Where a caller is. Leaving: it saw its context end and has yet to withdraw. */
  datatype Phase = Named | Waiting | Leaving | Resolved(approved: bool) | Cancelled

  /** `decision` and `sends` record what responders did with this request. */
  datatype Prompt = Prompt(id: nat, kind: Kind, targets: seq<Path>, offered: set<Answer>, phase: Phase,
                       channel: Option<bool>, decision: Option<bool>, sends: nat)

  /** A responder that took a request out of the pending map and has yet to send. */
  datatype Sender = Sender(caller: Caller, approved: bool)

  /** `sessionPaths` need no further approval (fileChangeSessionPaths). */
  datatype State = State(
    counter: nat, calls: map<Caller, Prompt>, pending: map<nat, Caller>, senders: map<Responder, Sender>,
    sessionPaths: set<Path>)

  const Fresh := State(0, map[], map[], map[], {})

  datatype Step =
    | Skip(skipped: seq<Path>)
    | Name(caller: Caller, kind: Kind, targets: seq<Path>, offered: set<Answer>)
    | Register(caller: Caller)
    | Take(responder: Responder, id: nat, answer: Answer)
    | Send(responder: Responder)
    | Receive(caller: Caller)
    | Leave(caller: Caller)
    | Withdraw(caller: Caller)

  /** The verdict a response carries for this request. */
  function Verdict(call: Prompt, answer: Answer): (approved: bool) {
    match answer
    case Direct(a) => a
    case Accept => call.kind == FileChange || (call.kind == Command && Accept in call.offered)
    case AcceptForSession => call.kind == FileChange
    case _ => false
  }

  function Range(targets: seq<Path>): (ps: set<Path>) {
    set p | p in targets
  }

  /** Phase of a caller, if it has come so far. */
  predicate At(s: State, c: Caller, phase: Phase) {
    c in s.calls && s.calls[c].phase == phase
  }

  predicate Enabled(s: State, step: Step) {
    match step
    case Skip(targets) => targets != [] && Range(targets) <= s.sessionPaths
    case Name(c, _, _, _) => c !in s.calls
    case Register(c) => At(s, c, Named)
    case Take(r, id, _) => r !in s.senders && id in s.pending && s.pending[id] in s.calls
    case Send(r) => r in s.senders && s.senders[r].caller in s.calls && s.calls[s.senders[r].caller].channel.None?
    case Receive(c) => At(s, c, Waiting) && s.calls[c].channel.Some?
    case Leave(c) => At(s, c, Waiting)
    case Withdraw(c) => At(s, c, Leaving)
  }

  function Next(s: State, step: Step): (s': State)
    requires Enabled(s, step)
  {
    match step
    case Skip(_) => s
    case Name(c, kind, targets, offered) =>
      s.(counter := s.counter + 1,
        calls := s.calls[c := Prompt(s.counter + 1, kind, targets, offered, Named, None, None, 0)])
    case Register(c) =>
      s.(calls := s.calls[c := s.calls[c].(phase := Waiting)], pending := s.pending[s.calls[c].id := c])
    case Take(r, id, answer) =>
      var c := s.pending[id];
      var approved := Verdict(s.calls[c], answer);
      var t := s.(pending := s.pending - {id}, senders := s.senders[r := Sender(c, approved)],
                  calls := s.calls[c := s.calls[c].(decision := Some(approved))]);
      if answer == AcceptForSession && s.calls[c].kind == FileChange
      then t.(sessionPaths := s.sessionPaths + Range(s.calls[c].targets)) else t
    case Send(r) =>
      var c := s.senders[r].caller;
      s.(senders := s.senders - {r},
        calls := s.calls[c := s.calls[c].(channel := Some(s.senders[r].approved), sends := s.calls[c].sends + 1)])
    case Receive(c) =>
      s.(calls := s.calls[c := s.calls[c].(phase := Resolved(s.calls[c].channel.value), channel := None)])
    case Leave(c) => s.(calls := s.calls[c := s.calls[c].(phase := Leaving)])
    case Withdraw(c) =>
      s.(calls := s.calls[c := s.calls[c].(phase := Cancelled)], pending := s.pending - {s.calls[c].id})
  }

  ghost predicate Reachable(s: State, steps: seq<Step>, s': State)
    decreases |steps|
  {
    if steps == [] then s == s'
    else Enabled(s, steps[0]) && Reachable(Next(s, steps[0]), steps[1..], s')
  }

  /* ----- invariant ----- */

  /** Ids are never reused, and the map and the senders speak of known callers. */
  ghost predicate Ids(s: State) {
    && Distinct(s.calls, s.counter)
    && (forall id :: id in s.pending ==> HasId(s.calls, s.pending[id], id))
    && (forall r :: r in s.senders ==> s.senders[r].caller in s.calls)
  }

  predicate HasId(calls: map<Caller, Prompt>, c: Caller, id: nat) {
    c in calls && calls[c].id == id
  }

  ghost predicate Distinct(calls: map<Caller, Prompt>, counter: nat) {
    && (forall c :: c in calls ==> calls[c].id <= counter)
    && (forall c, d, id :: HasId(calls, c, id) && HasId(calls, d, id) ==> c == d)
  }

  predicate SendsTo(s: State, r: Responder, c: Caller) {
    r in s.senders && s.senders[r].caller == c
  }

  ghost predicate Unsent(s: State, c: Caller) {
    forall r :: !SendsTo(s, r, c)
  }

  /** Nobody has decided: the request is in the map exactly while its caller waits. */
  ghost predicate Open(s: State, c: Caller)
    requires c in s.calls
  {
    var call := s.calls[c];
    && call.decision.None? && call.sends == 0 && call.channel.None? && Unsent(s, c)
    && (call.id in s.pending <==> call.phase in {Waiting, Leaving})
    && !call.phase.Resolved?
  }

  /** One responder has taken the request and not sent yet. */
  ghost predicate Sending(s: State, c: Caller)
    requires c in s.calls
  {
    var call := s.calls[c];
    && call.decision.Some? && call.sends == 0 && call.channel.None? && call.id !in s.pending
    && call.phase in {Waiting, Leaving, Cancelled}
    && (exists r :: SendsTo(s, r, c))
    && (forall r, q :: SendsTo(s, r, c) && SendsTo(s, q, c) ==> r == q)
    && (forall r :: SendsTo(s, r, c) ==> call.decision == Some(s.senders[r].approved))
  }

  /** The verdict was sent once: it is in the channel, or the caller returned it. */
  ghost predicate Sent(s: State, c: Caller)
    requires c in s.calls
  {
    var call := s.calls[c];
    && call.decision.Some? && call.sends == 1 && call.id !in s.pending && Unsent(s, c)
    && (if call.phase.Resolved? then call.phase == Resolved(call.decision.value) && call.channel.None?
        else call.phase in {Waiting, Leaving, Cancelled} && call.channel == call.decision)
  }

  ghost predicate Fine(s: State, c: Caller)
    requires c in s.calls
  {
    Open(s, c) || Sending(s, c) || Sent(s, c)
  }

  ghost predicate Safe(s: State) {
    Ids(s) && forall c :: c in s.calls ==> Fine(s, c)
  }

  /** The caller a step is about, if any. */
  function Subject(s: State, step: Step): (c: Option<Caller>)
    requires Enabled(s, step)
  {
    match step
    case Skip(_) => None
    case Take(_, id, _) => Some(s.pending[id])
    case Send(r) => Some(s.senders[r].caller)
    case _ => Some(step.caller)
  }

  /** A request keeps its id, and a new one gets the next number. */
  lemma {:induction false} StepKeepsIds(s: State, step: Step, c: Caller)
    requires Enabled(s, step)
    ensures c in s.calls ==> HasId(Next(s, step).calls, c, s.calls[c].id)
    ensures c in Next(s, step).calls && c !in s.calls ==>
              step.Name? && step.caller == c && HasId(Next(s, step).calls, c, s.counter + 1)
    ensures Next(s, step).counter == if step.Name? then s.counter + 1 else s.counter
  {
  }

  lemma {:induction false} StepDistinct(s: State, step: Step)
    requires Distinct(s.calls, s.counter) && Enabled(s, step)
    ensures Distinct(Next(s, step).calls, Next(s, step).counter)
  {
    var s' := Next(s, step);
    forall c | c in s'.calls
      ensures s'.calls[c].id <= s'.counter
      ensures c in s.calls ==> HasId(s.calls, c, s'.calls[c].id)
      ensures c !in s.calls ==> step.Name? && step.caller == c && s'.calls[c].id == s.counter + 1
    {
      StepKeepsIds(s, step, c);
    }
  }

  lemma {:induction false} StepIds(s: State, step: Step)
    requires Ids(s) && Enabled(s, step)
    ensures Ids(Next(s, step))
  {
    StepDistinct(s, step);
    var s' := Next(s, step);
    forall id | id in s'.pending ensures HasId(s'.calls, s'.pending[id], id) {
      StepKeepsIds(s, step, s'.pending[id]);
    }
    forall r | r in s'.senders ensures s'.senders[r].caller in s'.calls {
      StepKeepsIds(s, step, s'.senders[r].caller);
    }
  }

  /** Same request, same place in the map, same senders. */
  ghost predicate Untouched(s: State, s': State, c: Caller)
    requires c in s.calls
  {
    && c in s'.calls && s'.calls[c] == s.calls[c]
    && (s.calls[c].id in s'.pending <==> s.calls[c].id in s.pending)
    && (forall r :: SendsTo(s', r, c) <==> SendsTo(s, r, c))
    && (forall r :: SendsTo(s, r, c) ==> s'.senders[r] == s.senders[r])
  }

  lemma {:induction false} OthersUntouched(s: State, step: Step, c: Caller)
    requires Ids(s) && Enabled(s, step) && c in s.calls && Subject(s, step) != Some(c)
    ensures Untouched(s, Next(s, step), c)
  {
    assert HasId(s.calls, c, s.calls[c].id);
    match step
    case Register(d) => assert HasId(s.calls, d, s.calls[d].id);
    case Take(_, id, _) => assert HasId(s.calls, s.pending[id], id);
    case Withdraw(d) => assert HasId(s.calls, d, s.calls[d].id);
    case _ =>
  }

  lemma {:induction false} UntouchedStaysFine(s: State, s': State, c: Caller)
    requires c in s.calls && Untouched(s, s', c) && Fine(s, c)
    ensures Fine(s', c)
  {
    if Sending(s, c) {
      var r :| SendsTo(s, r, c);
      assert SendsTo(s', r, c);
    }
  }

  lemma {:induction false} NewIsOpen(s: State, step: Step)
    requires Ids(s) && step.Name? && Enabled(s, step)
    ensures Open(Next(s, step), step.caller)
  {
    var s' := Next(s, step);
    forall r ensures !SendsTo(s', r, step.caller) {
    }
    assert forall id :: id in s.pending ==> id <= s.counter;
  }

  lemma {:induction false} TakeDecides(s: State, step: Step)
    requires Ids(s) && step.Take? && Enabled(s, step) && Fine(s, s.pending[step.id])
    ensures Sending(Next(s, step), s.pending[step.id])
  {
    var s', c := Next(s, step), s.pending[step.id];
    assert HasId(s.calls, c, step.id);
    assert Open(s, c);
    assert SendsTo(s', step.responder, c);
    forall r | SendsTo(s', r, c) ensures r == step.responder {
      assert !SendsTo(s, r, c);
    }
  }

  lemma {:induction false} SendDelivers(s: State, step: Step)
    requires Ids(s) && step.Send? && Enabled(s, step) && Fine(s, s.senders[step.responder].caller)
    ensures Sent(Next(s, step), s.senders[step.responder].caller)
  {
    var s', c := Next(s, step), s.senders[step.responder].caller;
    assert SendsTo(s, step.responder, c);
    assert Sending(s, c);
    forall r ensures !SendsTo(s', r, c) {
      assert SendsTo(s', r, c) ==> SendsTo(s, r, c);
    }
  }

  lemma {:induction false} CallerStaysFine(s: State, step: Step)
    requires Ids(s) && Enabled(s, step) && (step.Register? || step.Receive? || step.Leave? || step.Withdraw?) &&
      Fine(s, step.caller)
    ensures Fine(Next(s, step), step.caller)
  {
    var s', c := Next(s, step), step.caller;
    assert forall r :: SendsTo(s', r, c) <==> SendsTo(s, r, c);
    if Sending(s, c) {
      var r :| SendsTo(s, r, c);
      assert SendsTo(s', r, c);
    }
  }

  lemma {:induction false} StepSafe(s: State, step: Step)
    requires Safe(s) && Enabled(s, step)
    ensures Safe(Next(s, step))
  {
    var s' := Next(s, step);
    StepIds(s, step);
    if step.Take? {
      TakeDecides(s, step);
      assert HasId(s.calls, s.pending[step.id], step.id);
    }
    forall c | c in s'.calls ensures Fine(s', c) {
      if Subject(s, step) != Some(c) {
        OthersUntouched(s, step, c);
        UntouchedStaysFine(s, s', c);
      } else {
        match step
        case Name(_, _, _, _) => NewIsOpen(s, step);
        case Take(_, _, _) =>
        case Send(_) => SendDelivers(s, step);
        case _ => CallerStaysFine(s, step);
      }
    }
  }

  /* ----- results ----- */

  /** Over every interleaving from a fresh service: a request is decided at most once and
      its verdict sent at most once, and a caller that returns a verdict returns that one. */
  lemma {:induction false} ApprovalsAreSafe(s: State, steps: seq<Step>, s': State)
    requires Safe(s) && Reachable(s, steps, s')
    ensures Safe(s')
    decreases |steps|
  {
    if steps != [] {
      StepSafe(s, steps[0]);
      ApprovalsAreSafe(Next(s, steps[0]), steps[1..], s');
    }
  }

  lemma FreshIsSafe()
    ensures Safe(Fresh)
  {
  }

  lemma {:induction false} StepKeepsDecision(s: State, step: Step, c: Caller)
    requires Safe(s) && Enabled(s, step) && c in s.calls && s.calls[c].decision.Some?
    ensures c in Next(s, step).calls && Next(s, step).calls[c].decision == s.calls[c].decision
  {
    if step.Take? {
      assert HasId(s.calls, s.pending[step.id], step.id) && Fine(s, s.pending[step.id]);
    }
  }

  /** A decision, once taken, stands through the rest of the run. */
  lemma {:induction false} DecidedOnce(s: State, steps: seq<Step>, s': State, c: Caller)
    requires Safe(s) && Reachable(s, steps, s') && c in s.calls && s.calls[c].decision.Some?
    ensures c in s'.calls && s'.calls[c].decision == s.calls[c].decision && s'.calls[c].sends <= 1
    ensures s'.calls[c].phase.Resolved? ==> Some(s'.calls[c].phase.approved) == s.calls[c].decision
    decreases |steps|
  {
    assert Fine(s, c);
    if steps != [] {
      StepSafe(s, steps[0]);
      StepKeepsDecision(s, steps[0], c);
      DecidedOnce(Next(s, steps[0]), steps[1..], s', c);
    }
  }

  /** An answer that approves this request: of a command's decisions only one that was
      offered counts, and nothing but a direct verdict approves permissions. */
  predicate Approves(call: Prompt, answer: Answer) {
    || answer == Direct(true)
    || (call.kind == FileChange && answer in {Accept, AcceptForSession})
    || (call.kind == Command && answer == Accept && answer in call.offered)
  }

  predicate AnsweredBy(s: State, c: Caller, step: Step) {
    c in s.calls && step.Take? && step.id == s.calls[c].id && Approves(s.calls[c], step.answer)
  }

  /** Nobody is approved without having been asked: a caller returns with approval only if
      a client gave an approving answer to its very request during the run. */
  lemma {:induction false} ApprovedWasAnswered(steps: seq<Step>, s: State, c: Caller)
    requires Reachable(Fresh, steps, s) && c in s.calls && s.calls[c].phase == Resolved(true)
    ensures exists i :: 0 <= i < |steps| && AnsweredBy(s, c, steps[i])
  {
    FreshIsSafe();
    ApprovalsAreSafe(Fresh, steps, s);
    assert Fine(s, c);
    DecisionWasTaken(Fresh, steps, s, c);
  }

  lemma {:induction false} DecisionWasTaken(s: State, steps: seq<Step>, s': State, c: Caller)
    requires Safe(s) && Reachable(s, steps, s') && c in s'.calls && s'.calls[c].decision == Some(true)
    requires c in s.calls ==> s.calls[c].decision.None?
    ensures exists i :: 0 <= i < |steps| && AnsweredBy(s', c, steps[i])
    decreases |steps|
  {
    var t := Next(s, steps[0]);
    StepSafe(s, steps[0]);
    if c in t.calls && t.calls[c].decision.Some? {
      TakenFirst(s, steps, s', c);
    } else {
      DecisionWasTaken(t, steps[1..], s', c);
      var i :| 0 <= i < |steps| - 1 && AnsweredBy(s', c, steps[1..][i]);
      assert AnsweredBy(s', c, steps[i + 1]);
    }
  }

  lemma {:induction false} TakenFirst(s: State, steps: seq<Step>, s': State, c: Caller)
    requires Safe(s) && steps != [] && Reachable(s, steps, s') && (c in s.calls ==> s.calls[c].decision.None?)
    requires c in s'.calls && s'.calls[c].decision == Some(true)
    requires c in Next(s, steps[0]).calls && Next(s, steps[0]).calls[c].decision.Some?
    ensures AnsweredBy(s', c, steps[0])
  {
    StepSafe(s, steps[0]);
    DecidedHere(s, steps[0], c);
    DecidedOnce(Next(s, steps[0]), steps[1..], s', c);
    RequestStays(s, steps, s', c);
  }

  lemma {:induction false} DecidedHere(s: State, step: Step, c: Caller)
    requires Safe(s) && Enabled(s, step) && c in Next(s, step).calls && Next(s, step).calls[c].decision.Some?
    requires c in s.calls ==> s.calls[c].decision.None?
    ensures step.Take? && c in s.calls && step.id == s.calls[c].id
    ensures Next(s, step).calls[c].decision == Some(Approves(s.calls[c], step.answer))
  {
    if step.Take? {
      assert HasId(s.calls, s.pending[step.id], step.id);
    }
  }

  /** What a request asked for never changes. */
  predicate SameRequest(a: Prompt, b: Prompt) {
    a.id == b.id && a.kind == b.kind && a.targets == b.targets && a.offered == b.offered
  }

  lemma {:induction false} RequestStays(s: State, steps: seq<Step>, s': State, c: Caller)
    requires Reachable(s, steps, s') && c in s.calls
    ensures c in s'.calls && SameRequest(s.calls[c], s'.calls[c])
    decreases |steps|
  {
    if steps != [] {
      assert c in Next(s, steps[0]).calls && SameRequest(s.calls[c], Next(s, steps[0]).calls[c]);
      RequestStays(Next(s, steps[0]), steps[1..], s', c);
    }
  }

  /** The send that resolves a request never blocks, even if its caller has gone. */
  lemma {:induction false} SendNeverBlocks(s: State, r: Responder)
    requires Safe(s) && r in s.senders
    ensures Enabled(s, Send(r))
  {
    var c := s.senders[r].caller;
    assert Fine(s, c) && SendsTo(s, r, c);
  }

  /** A waiting caller can still be answered, is about to be, or can return: no response
      is lost. */
  lemma {:induction false} NoLostResponse(s: State, c: Caller)
    requires Safe(s) && At(s, c, Waiting)
    ensures s.calls[c].id in s.pending || (exists r :: SendsTo(s, r, c) && Enabled(s, Send(r))) ||
      Enabled(s, Receive(c))
  {
    assert Fine(s, c);
    if Sending(s, c) {
      var r :| SendsTo(s, r, c);
      SendNeverBlocks(s, r);
    }
  }

  /** The step accepts caller c's file change for the session, and p is one of its targets. */
  predicate Grants(s: State, step: Step, c: Caller, p: Path) {
    && c in s.calls && step.Take? && step.id == s.calls[c].id && step.answer == AcceptForSession
    && s.calls[c].kind == FileChange && p in s.calls[c].targets
  }

  /** Some step of the run accepts a file change with target p for the session. */
  ghost predicate GrantedIn(steps: seq<Step>, s: State, p: Path) {
    exists i, c :: 0 <= i < |steps| && Grants(s, steps[i], c, p)
  }

  lemma {:induction false} TakeGrants(s: State, step: Step, p: Path)
    requires Ids(s) && Enabled(s, step)
    ensures p in Next(s, step).sessionPaths <==> p in s.sessionPaths || exists c :: Grants(s, step, c, p)
  {
    if step.Take? {
      var c := s.pending[step.id];
      assert HasId(s.calls, c, step.id);
      forall d | Grants(s, step, d, p) ensures d == c {
        assert HasId(s.calls, d, step.id);
      }
      assert p in Range(s.calls[c].targets) <==> p in s.calls[c].targets;
      if p in Next(s, step).sessionPaths && p !in s.sessionPaths {
        assert Grants(s, step, c, p);
      }
    }
  }

  /** Who the step was about is settled when it is taken. */
  lemma {:induction false} GrantsStays(s: State, step: Step, steps: seq<Step>, s': State, c: Caller, p: Path)
    requires Ids(s) && Enabled(s, step) && Reachable(s, steps, s') && Ids(s')
    ensures Grants(s, step, c, p) <==> Grants(s', step, c, p)
  {
    if c in s.calls {
      RequestStays(s, steps, s', c);
    } else if Grants(s', step, c, p) {
      var d := s.pending[step.id];
      assert HasId(s.calls, d, step.id);
      RequestStays(s, steps, s', d);
      assert HasId(s'.calls, d, step.id) && HasId(s'.calls, c, step.id);
    }
  }

  lemma {:induction false} PathsAreGranted(s: State, steps: seq<Step>, s': State, p: Path)
    requires Safe(s) && Reachable(s, steps, s')
    ensures p in s'.sessionPaths <==> p in s.sessionPaths || GrantedIn(steps, s', p)
    decreases |steps|
  {
    ApprovalsAreSafe(s, steps, s');
    if steps != [] {
      StepSafe(s, steps[0]);
      TakeGrants(s, steps[0], p);
      PathsAreGranted(Next(s, steps[0]), steps[1..], s', p);
      forall c ensures Grants(s, steps[0], c, p) <==> Grants(s', steps[0], c, p) {
        GrantsStays(s, steps[0], steps, s', c, p);
      }
      assert forall i :: 1 <= i < |steps| ==> steps[i] == steps[1..][i - 1];
      assert forall i :: 0 <= i < |steps| - 1 ==> steps[1..][i] == steps[i + 1];
    }
  }

  /** After any run, a file change skips the prompt if and only if it has targets and during
      the run each of them was the target of a file change that a client accepted for the
      session. */
  lemma {:induction false} SkipsOnlyGranted(steps: seq<Step>, s: State, targets: seq<Path>)
    requires Reachable(Fresh, steps, s)
    ensures Enabled(s, Skip(targets)) <==>
      targets != [] && forall k :: 0 <= k < |targets| ==> GrantedIn(steps, s, targets[k])
  {
    FreshIsSafe();
    forall k | 0 <= k < |targets|
      ensures targets[k] in s.sessionPaths <==> GrantedIn(steps, s, targets[k])
      ensures targets[k] in Range(targets)
    {
      PathsAreGranted(Fresh, steps, s, targets[k]);
    }
    assert Range(targets) <= s.sessionPaths <==> forall k :: 0 <= k < |targets| ==> targets[k] in s.sessionPaths;
  }
}
