/** Steering of a streaming run (core/steer.go, core/stream.go): any number of producers
    enqueue messages while one stream takes, prepares, injects, acknowledges or rejects
    them and closes the queue at the end. */
module Steering {
  import opened Transcript
  import opened Trimming

  const MAX_PENDING := 64

  datatype Steer = Steer(id: string, text: string)

  datatype EnqueueError = Closed | Full | Empty

  /** The queue's state, and its three critical sections. */
  datatype Queue<M> = Queue(pending: seq<M>, closed: bool) {
    function Put(m: M): (Queue<M>, Option<EnqueueError>) {
      if closed then (this, Some(Closed))
      else if |pending| >= MAX_PENDING then (this, Some(Full))
      else (Queue(pending + [m], false), None)
    }

    function Take(terminal: bool): (Queue<M>, seq<M>) {
      if closed then (this, [])
      else if pending == [] then (Queue([], terminal), [])
      else (Queue([], false), pending)
    }

    function Shut(): (Queue<M>, seq<M>) {
      if closed then (this, []) else (Queue([], true), pending)
    }
  }

  /** core/steer.go SteerQueue. Each method is one critical section. */
  class SteerQueue {
    var pending: seq<Steer>
    var closed: bool

    constructor ()
      ensures View() == Queue([], false)
    {
      pending, closed := [], false;
    }

    function View(): Queue<Steer>
      reads this
    {
      Queue(pending, closed)
    }

    method Enqueue(message: Steer) returns (err: Option<EnqueueError>)
      modifies this
      ensures var m := message.(text := TrimSpace(message.text));
        if m.text == "" then err == Some(Empty) && View() == old(View())
        else (View(), err) == old(View()).Put(m)
      ensures err.None? ==> |pending| <= MAX_PENDING || |old(pending)| > MAX_PENDING
    {
      var m := message.(text := TrimSpace(message.text));
      if m.text == "" {
        return Some(Empty);
      }
      if closed {
        return Some(Closed);
      }
      if |pending| >= MAX_PENDING {
        return Some(Full);
      }
      pending := pending + [m];
      return None;
    }

    method Take(terminal: bool) returns (messages: seq<Steer>)
      modifies this
      ensures (View(), messages) == old(View()).Take(terminal)
    {
      if closed {
        return [];
      }
      if pending == [] {
        if terminal {
          closed := true;
        }
        return [];
      }
      messages := pending;
      pending := [];
    }

    method Shut() returns (messages: seq<Steer>)
      modifies this
      ensures (View(), messages) == old(View()).Shut() && closed
    {
      if closed {
        return [];
      }
      closed := true;
      messages := pending;
      pending := [];
    }
  }

  /* ----- the protocol ----- */

  /** An accepted message is named by its place in the order of acceptance. */
  type Tag = nat

  datatype Outcome = Acknowledged | Rejected

  /** Where the stream stands. `Rejecting` drains a batch of rejections and then goes on;
      `Taking` is the point between a completed turn and the critical section of take. */
  datatype Pc =
    | Setup | Ready | Acking | Streaming | Taking(terminal: bool) | Preparing
    | Rejecting(next: Pc) | Finishing | Closing | Done

  datatype System = System(
    queue: Queue<Tag>, accepted: nat,
    taken: seq<Tag>, injected: seq<Tag>, acking: seq<Tag>, rejecting: seq<Tag>,
    history: seq<Tag>, outcomes: seq<(Tag, Outcome)>, pc: Pc)

  const INIT := System(Queue([], false), 0, [], [], [], [], [], [], Setup)

  datatype Step =
    | Produce                       // some producer enqueues a non-empty message
    | SetupFails | StreamBegins     // RunStream fails before, or reaches, the first turn
    | TurnFails                     // startTurn fails before the request, or Close
    | RequestFails | RequestSucceeds
    | Consume(ok: bool)             // OnConsumed for the next message
    | EndStream                     // mid-stream failure, Close, limit, condition, tool or output error
    | Defers                        // the turn waits for deferred input
    | TurnCompletes(terminal: bool) // dropped or continuing turn, or an accepted output
    | TakeQueue
    | Prepare(ok: bool)             // OnPrepared for the batch
    | RejectOne | RejectedAll       // OnRejected for the next message; the batch is done
    | RejectInjected                // finish: reject what was injected but never sent
    | ShutQueue                     // finish: close the queue

  /** One atomic step; none if it cannot happen now. */
  function Next(s: System, step: Step): Option<System> {
    match step
    case Produce =>
      var (q, err) := s.queue.Put(s.accepted);
      Some(if err.None? then s.(queue := q, accepted := s.accepted + 1) else s)
    case SetupFails => if s.pc.Setup? then Some(s.(pc := Finishing)) else None
    case StreamBegins => if s.pc.Setup? then Some(s.(pc := Ready)) else None
    case TurnFails => if s.pc.Ready? then Some(s.(pc := Finishing)) else None
    case RequestFails =>
      if s.pc.Ready? then Some(s.(rejecting := s.injected, injected := [], pc := Rejecting(Finishing))) else None
    case RequestSucceeds =>
      if s.pc.Ready? then Some(s.(acking := s.injected, injected := [], pc := Acking)) else None
    case Consume(ok) =>
      if !s.pc.Acking? then None
      else if s.acking == [] then Some(s.(pc := Streaming))
      else if ok then Some(s.(acking := s.acking[1..], outcomes := s.outcomes + [(s.acking[0], Acknowledged)]))
      else Some(s.(rejecting := s.acking, acking := [], pc := Rejecting(Finishing)))
    case EndStream => if s.pc.Streaming? then Some(s.(pc := Finishing)) else None
    case Defers =>
      if !s.pc.Streaming? then None
      else
        var (q, rest) := s.queue.Shut();
        Some(s.(queue := q, rejecting := rest, pc := Rejecting(Finishing)))
    case TurnCompletes(terminal) => if s.pc.Streaming? then Some(s.(pc := Taking(terminal))) else None
    case TakeQueue =>
      if !s.pc.Taking? then None
      else
        var (q, batch) := s.queue.Take(s.pc.terminal);
        Some(s.(queue := q, taken := batch,
                pc := if batch != [] then Preparing else if s.pc.terminal then Finishing else Ready))
    case Prepare(ok) =>
      if !s.pc.Preparing? then None
      else if ok then Some(s.(history := s.history + s.taken, injected := s.injected + s.taken, taken := [],
        pc := Ready))
      else Some(s.(rejecting := s.taken, taken := [], pc := Rejecting(Finishing)))
    case RejectOne =>
      if !s.pc.Rejecting? || s.rejecting == [] then None
      else Some(s.(rejecting := s.rejecting[1..], outcomes := s.outcomes + [(s.rejecting[0], Rejected)]))
    case RejectedAll =>
      if !s.pc.Rejecting? || s.rejecting != [] then None else Some(s.(pc := s.pc.next))
    case RejectInjected =>
      if !s.pc.Finishing? then None else Some(s.(rejecting := s.injected, injected := [], pc := Rejecting(Closing)))
    case ShutQueue =>
      if !s.pc.Closing? then None
      else
        var (q, rest) := s.queue.Shut();
        Some(s.(queue := q, rejecting := rest, pc := Rejecting(Done)))
  }

  /* ----- invariants ----- */

  function Tags(os: seq<(Tag, Outcome)>): seq<Tag> {
    if os == [] then [] else Tags(os[..|os| - 1]) + [os[|os| - 1].0]
  }

  function Count(xs: seq<Tag>, t: Tag): nat {
    if xs == [] then 0 else Count(xs[..|xs| - 1], t) + if xs[|xs| - 1] == t then 1 else 0
  }

  lemma {:induction false} CountAppend(a: seq<Tag>, b: seq<Tag>, t: Tag)
    ensures Count(a + b, t) == Count(a, t) + Count(b, t)
  {
    if b == [] {
      assert a + b == a;
    } else {
      assert (a + b)[..|a + b| - 1] == a + b[..|b| - 1];
      CountAppend(a, b[..|b| - 1], t);
    }
  }

  lemma CountHead(a: seq<Tag>, t: Tag)
    requires a != []
    ensures Count(a, t) == Count(a[1..], t) + if a[0] == t then 1 else 0
  {
    assert a == [a[0]] + a[1..] && [a[0]][..0] == [];
    CountAppend([a[0]], a[1..], t);
  }

  /** In how many places message `t` is: waiting somewhere, or resolved. */
  function Places(s: System, t: Tag): nat {
    Count(s.queue.pending, t) + Count(s.taken, t) + Count(s.injected, t) + Count(s.acking, t) + Count(s.rejecting, t) +
    Count(Tags(s.outcomes), t)
  }

  ghost predicate Conserved(s: System, t: Tag) {
    Places(s, t) == if t < s.accepted then 1 else 0
  }

  ghost predicate Ascending(xs: seq<Tag>) {
    forall i, j :: 0 <= i < j < |xs| ==> xs[i] < xs[j]
  }

  /** Everything a stream has put or may yet put into the history, in order. */
  function Line(s: System): seq<Tag> {
    s.history + s.taken + s.queue.pending
  }

  /** History, then what was just taken, then the queue: all in order of acceptance. */
  ghost predicate Ordered(s: System) {
    Ascending(Line(s)) && forall t :: t in Line(s) ==> t < s.accepted
  }

  /** The local variables in use at each point of the stream. */
  ghost predicate Tidy(s: System) {
    && (s.queue.closed ==> s.queue.pending == [])
    && (s.acking != [] ==> s.pc.Acking?)
    && (s.rejecting != [] ==> s.pc.Rejecting?)
    && (s.taken != [] ==> s.pc.Preparing?)
    && (s.injected != [] ==> s.pc.Ready? || s.pc.Finishing?)
    && (s.pc.Rejecting? ==> s.pc.next in [Finishing, Closing, Done])
    && (s.pc.Done? || s.pc == Rejecting(Done) ==> s.queue.closed)
  }

  ghost predicate Inv(s: System) {
    Tidy(s) && Ordered(s) && forall t :: Conserved(s, t)
  }

  lemma TagsSnoc(os: seq<(Tag, Outcome)>, o: (Tag, Outcome))
    ensures Tags(os + [o]) == Tags(os) + [o.0]
  {
    assert (os + [o])[..|os|] == os;
  }

  /** Resolving the first waiting message moves it, and no other. */
  lemma OutcomeMoves(os: seq<(Tag, Outcome)>, waiting: seq<Tag>, o: Outcome, t: Tag)
    requires waiting != []
    ensures Count(Tags(os + [(waiting[0], o)]), t) + Count(waiting[1..], t) == Count(Tags(os), t) + Count(waiting, t)
  {
    TagsSnoc(os, (waiting[0], o));
    CountAppend(Tags(os), [waiting[0]], t);
    CountHead(waiting, t);
    assert [waiting[0]][..0] == [];
  }

  /** Steps that put a message somewhere new, or resolve one. */
  predicate Splits(step: Step) {
    step.Produce? || step.Consume? || step.RejectOne? || step.Prepare?
  }

  lemma MessageStepConserves(s: System, step: Step, s': System, t: Tag)
    requires Tidy(s) && Conserved(s, t) && Next(s, step) == Some(s') && Splits(step)
    ensures Conserved(s', t)
  {
    match step
    case Produce =>
      CountAppend(s.queue.pending, [s.accepted], t);
      assert [s.accepted][..0] == [];
    case Consume(ok) =>
      if s.acking != [] && ok {
        OutcomeMoves(s.outcomes, s.acking, Acknowledged, t);
      }
    case RejectOne => OutcomeMoves(s.outcomes, s.rejecting, Rejected, t);
    case Prepare(ok) => CountAppend(s.injected, s.taken, t);
  }

  /** The other steps move whole batches, if anything. */
  lemma BatchStepConserves(s: System, step: Step, s': System, t: Tag)
    requires Tidy(s) && Conserved(s, t) && Next(s, step) == Some(s') && !Splits(step)
    ensures Conserved(s', t)
  {
  }

  lemma StepConserves(s: System, step: Step, s': System, t: Tag)
    requires Tidy(s) && Conserved(s, t) && Next(s, step) == Some(s')
    ensures Conserved(s', t)
  {
    if Splits(step) {
      MessageStepConserves(s, step, s', t);
    } else {
      BatchStepConserves(s, step, s', t);
    }
  }

  lemma StepKeepsTidy(s: System, step: Step, s': System)
    requires Tidy(s) && Next(s, step) == Some(s')
    ensures Tidy(s')
  {
  }

  lemma ShutKeepsOrder(s: System, s': System)
    requires Tidy(s) && Ordered(s) && s.taken == []
    requires s'.history == s.history && s'.taken == [] && s'.queue.pending == [] && s'.accepted == s.accepted
    ensures Ordered(s')
  {
    assert Line(s) == s.history + s.queue.pending + [] && Line(s') == s.history + [];
    WithoutMiddle(s.history, s.queue.pending, []);
  }

  lemma StepKeepsOrder(s: System, step: Step, s': System)
    requires Tidy(s) && Ordered(s) && Next(s, step) == Some(s')
    ensures Ordered(s')
  {
    match step
    case Produce =>
      assert Line(s') == if s'.accepted == s.accepted then Line(s) else Line(s) + [s.accepted];
      assert forall i :: 0 <= i < |Line(s)| ==> Line(s)[i] in Line(s);
    case TakeQueue =>
      assert Line(s') == Line(s);
    case Prepare(ok) =>
      WithoutMiddle(s.history, s.taken, s.queue.pending);
      assert Line(s') == if ok then Line(s) else s.history + s.queue.pending;
    case Defers => ShutKeepsOrder(s, s');
    case ShutQueue => ShutKeepsOrder(s, s');
    case _ => assert Line(s') == Line(s);
  }

  lemma WithoutMiddle(a: seq<Tag>, b: seq<Tag>, c: seq<Tag>)
    requires Ascending(a + b + c)
    ensures Ascending(a + c) && forall t :: t in a + c ==> t in a + b + c
  {
    var u, v := a + b + c, a + c;
    assert forall i :: 0 <= i < |v| ==> v[i] == u[if i < |a| then i else i + |b|];
  }

  ghost predicate IsRun(run: seq<System>, steps: seq<Step>) {
    |run| == |steps| + 1 && run[0] == INIT &&
      forall k :: 0 <= k < |steps| ==> Next(run[k], steps[k]) == Some(run[k + 1])
  }

  lemma {:induction false} RunKeepsInv(run: seq<System>, steps: seq<Step>, k: nat)
    requires IsRun(run, steps) && k < |run|
    ensures Inv(run[k])
  {
    if k > 0 {
      RunKeepsInv(run, steps, k - 1);
      StepKeepsTidy(run[k - 1], steps[k - 1], run[k]);
      StepKeepsOrder(run[k - 1], steps[k - 1], run[k]);
      forall t ensures Conserved(run[k], t) {
        StepConserves(run[k - 1], steps[k - 1], run[k], t);
      }
    }
  }

  /** Over every interleaving: each accepted message has at most one outcome, and exactly
      one once the stream is done; messages entered the history in the order in which they
      were accepted; a closed queue is empty. */
  lemma SteerProtocol(run: seq<System>, steps: seq<Step>, k: nat, t: Tag)
    requires IsRun(run, steps) && k < |run|
    ensures var s := run[k];
      && Count(Tags(s.outcomes), t) <= 1
      && (s.pc.Done? ==> Count(Tags(s.outcomes), t) == if t < s.accepted then 1 else 0)
      && Ascending(s.history)
      && (s.queue.closed ==> s.queue.pending == [])
      && (s.pc.Done? ==> s.queue.closed)
  {
    RunKeepsInv(run, steps, k);
    var s := run[k];
    assert Conserved(s, t);
    assert forall i :: 0 <= i < |s.history| ==> Line(s)[i] == s.history[i];
  }

  /** Nothing is accepted after the queue has closed, so nothing is lost between the
      terminal take and the end. */
  lemma {:induction false} ClosedIsFinal(run: seq<System>, steps: seq<Step>, j: nat, k: nat)
    requires IsRun(run, steps) && j <= k < |run| && run[j].queue.closed
    ensures run[k].queue.closed && run[k].accepted == run[j].accepted
    decreases k
  {
    if j < k {
      ClosedIsFinal(run, steps, j, k - 1);
      var s := run[k - 1];
      assert Next(s, steps[k - 1]) == Some(run[k]);
    }
  }

  ghost predicate Entered(s: System, t: Tag) {
    (t, Acknowledged) in s.outcomes || t in s.injected || t in s.acking ==> t in s.history
  }

  lemma StepKeepsEntered(s: System, step: Step, s': System, t: Tag)
    requires Entered(s, t) && Next(s, step) == Some(s')
    ensures Entered(s', t)
  {
    if step.Consume? && s.acking != [] && step.ok {
      assert s'.outcomes == s.outcomes + [(s.acking[0], Acknowledged)];
      assert s.acking[0] in s.acking;
    }
  }

  /** An acknowledged message is in the history, and so is one that was injected or is
      about to be acknowledged. */
  lemma {:induction false} AcknowledgedEntered(run: seq<System>, steps: seq<Step>, k: nat, t: Tag)
    requires IsRun(run, steps) && k < |run|
    ensures Entered(run[k], t)
  {
    if k > 0 {
      AcknowledgedEntered(run, steps, k - 1, t);
      StepKeepsEntered(run[k - 1], steps[k - 1], run[k], t);
    }
  }

  /** The step at which the model's request with message t was made and did not fail. */
  predicate Delivers(s: System, step: Step, t: Tag) {
    step.RequestSucceeds? && t in s.injected
  }

  /** The step at which message t is acknowledged. */
  predicate Acknowledges(s: System, step: Step, t: Tag) {
    step == Consume(true) && s.pc.Acking? && s.acking != [] && s.acking[0] == t
  }

  /** An acknowledgement is pending or given only if a request carried the message. */
  lemma {:induction false} AckingWasDelivered(run: seq<System>, steps: seq<Step>, k: nat, t: Tag)
    requires IsRun(run, steps) && k < |run| && (t in run[k].acking || (t, Acknowledged) in run[k].outcomes)
    ensures exists j :: 0 <= j < k && Delivers(run[j], steps[j], t)
  {
    var s := run[k - 1];
    assert Next(s, steps[k - 1]) == Some(run[k]);
    if t in s.acking || (t, Acknowledged) in s.outcomes {
      AckingWasDelivered(run, steps, k - 1, t);
    } else {
      assert Delivers(run[k - 1], steps[k - 1], t);
    }
  }

  lemma {:induction false} AcknowledgedByConsume(run: seq<System>, steps: seq<Step>, k: nat, t: Tag)
    requires IsRun(run, steps) && k < |run|
    ensures (t, Acknowledged) in run[k].outcomes <==> exists j :: 0 <= j < k && Acknowledges(run[j], steps[j], t)
  {
    if k > 0 {
      AcknowledgedByConsume(run, steps, k - 1, t);
      OutcomeAdded(run[k - 1], steps[k - 1], run[k], t);
      assert Acknowledges(run[k - 1], steps[k - 1], t) ==> exists j :: 0 <= j < k && Acknowledges(run[j], steps[j], t);
    }
  }

  lemma OutcomeAdded(s: System, step: Step, s': System, t: Tag)
    requires Next(s, step) == Some(s')
    ensures (t, Acknowledged) in s'.outcomes <==> (t, Acknowledged) in s.outcomes || Acknowledges(s, step, t)
  {
  }

  /** A message is acknowledged if and only if its hook accepted it, and only after a model
      request that carried it was made. */
  lemma AcknowledgedWasSent(run: seq<System>, steps: seq<Step>, k: nat, t: Tag)
    requires IsRun(run, steps) && k < |run|
    ensures (t, Acknowledged) in run[k].outcomes <==> exists j :: 0 <= j < k && Acknowledges(run[j], steps[j], t)
    ensures (t, Acknowledged) in run[k].outcomes ==> exists j :: 0 <= j < k && Delivers(run[j], steps[j], t)
  {
    AcknowledgedByConsume(run, steps, k, t);
    if (t, Acknowledged) in run[k].outcomes {
      AckingWasDelivered(run, steps, k, t);
    }
  }

  /** What is about to be rejected is rejected. */
  lemma {:induction false} RejectingIsRejected(run: seq<System>, steps: seq<Step>, j: nat, k: nat, t: Tag)
    requires IsRun(run, steps) && j <= k < |run| && t in run[j].rejecting
    ensures t in run[k].rejecting || (t, Rejected) in run[k].outcomes
    ensures run[k].pc.Done? ==> (t, Rejected) in run[k].outcomes
    decreases k
  {
    RunKeepsInv(run, steps, k);
    if j < k {
      RejectingIsRejected(run, steps, j, k - 1, t);
      RunKeepsInv(run, steps, k - 1);
      RejectionGoesOn(run[k - 1], steps[k - 1], run[k], t);
    }
  }

  lemma RejectionGoesOn(s: System, step: Step, s': System, t: Tag)
    requires Tidy(s) && Next(s, step) == Some(s') && (t in s.rejecting || (t, Rejected) in s.outcomes)
    ensures t in s'.rejecting || (t, Rejected) in s'.outcomes
  {
    if t in s.rejecting && step.RejectOne? && s.rejecting[0] != t {
      assert t in s.rejecting[1..];
    }
  }

  /** The messages a failing step gives up: those of a request that failed or was never
      made, of a batch that was not prepared or not accepted by a hook, and those that a
      closing queue still holds. */
  function GivenUp(s: System, step: Step): (ts: seq<Tag>) {
    match step
    case RequestFails => s.injected
    case RejectInjected => s.injected
    case Consume(ok) => if ok then [] else s.acking
    case Prepare(ok) => if ok then [] else s.taken
    case Defers => s.queue.pending
    case ShutQueue => s.queue.pending
    case _ => []
  }

  /** Whatever such a step gives up is rejected by the end, and never acknowledged. */
  lemma GivenUpIsRejected(run: seq<System>, steps: seq<Step>, j: nat, k: nat, t: Tag)
    requires IsRun(run, steps) && j < k < |run| && t in GivenUp(run[j], steps[j])
    ensures (t, Acknowledged) !in run[k].outcomes
    ensures run[k].pc.Done? ==> (t, Rejected) in run[k].outcomes
  {
    RunKeepsInv(run, steps, j);
    RunKeepsInv(run, steps, k);
    assert Next(run[j], steps[j]) == Some(run[j + 1]);
    assert t in run[j + 1].rejecting;
    RejectingIsRejected(run, steps, j + 1, k, t);
    assert Conserved(run[k], t);
    OneOutcome(run[k], t);
  }

  /** Nobody has both outcomes, or one while still to be rejected. */
  lemma OneOutcome(s: System, t: Tag)
    requires Conserved(s, t) && (t in s.rejecting || (t, Rejected) in s.outcomes)
    ensures (t, Acknowledged) !in s.outcomes
  {
    if (t, Acknowledged) in s.outcomes {
      CountsOutcomes(s.outcomes, t);
      if t in s.rejecting {
        CountsMember(s.rejecting, t);
      }
    }
  }

  lemma {:induction false} CountsMember(xs: seq<Tag>, t: Tag)
    requires t in xs
    ensures Count(xs, t) >= 1
  {
    var n := |xs| - 1;
    if xs[n] != t {
      CountsMember(xs[..n], t);
    }
  }

  lemma {:induction false} CountsOutcomes(os: seq<(Tag, Outcome)>, t: Tag)
    ensures (t, Acknowledged) in os || (t, Rejected) in os ==> Count(Tags(os), t) >= 1
    ensures (t, Acknowledged) in os && (t, Rejected) in os ==> Count(Tags(os), t) >= 2
  {
    if os != [] {
      var n := |os| - 1;
      CountsOutcomes(os[..n], t);
      assert os == os[..n] + [os[n]];
      CountAppend(Tags(os[..n]), [os[n].0], t);
      assert [os[n].0][..0] == [];
    }
  }

  /** Only what was given up is rejected. */
  lemma {:induction false} RejectedWasGivenUp(run: seq<System>, steps: seq<Step>, k: nat, t: Tag)
    requires IsRun(run, steps) && k < |run| && (t in run[k].rejecting || (t, Rejected) in run[k].outcomes)
    ensures exists j :: 0 <= j < k && t in GivenUp(run[j], steps[j])
  {
    if t in run[k - 1].rejecting || (t, Rejected) in run[k - 1].outcomes {
      RejectedWasGivenUp(run, steps, k - 1, t);
    } else {
      RejectionStarts(run[k - 1], steps[k - 1], run[k], t);
    }
  }

  lemma RejectionStarts(s: System, step: Step, s': System, t: Tag)
    requires Next(s, step) == Some(s') && t !in s.rejecting && (t, Rejected) !in s.outcomes
    requires t in s'.rejecting || (t, Rejected) in s'.outcomes
    ensures t in GivenUp(s, step)
  {
    if step.Consume? {
      assert (t, Rejected) in s'.outcomes ==> (t, Rejected) in s.outcomes;
    }
  }

  /** The step at which the prepared message t enters the history. */
  predicate Injects(s: System, step: Step, t: Tag) {
    step == Prepare(true) && t in s.taken
  }

  /** A message is in the history if and only if its batch was prepared. */
  lemma {:induction false} HistoryWasPrepared(run: seq<System>, steps: seq<Step>, k: nat, t: Tag)
    requires IsRun(run, steps) && k < |run|
    ensures t in run[k].history <==> exists j :: 0 <= j < k && Injects(run[j], steps[j], t)
  {
    if k > 0 {
      HistoryWasPrepared(run, steps, k - 1, t);
      assert Next(run[k - 1], steps[k - 1]) == Some(run[k]);
      RunKeepsInv(run, steps, k - 1);
      assert t in run[k].history <==> t in run[k - 1].history || Injects(run[k - 1], steps[k - 1], t);
    }
  }

  predicate Requests(step: Step) {
    step.RequestSucceeds? || step.RequestFails?
  }

  predicate Ending(pc: Pc) {
    pc.Rejecting? || pc.Finishing? || pc.Closing? || pc.Done?
  }

  lemma {:induction false} EndingStays(run: seq<System>, steps: seq<Step>, j: nat, k: nat)
    requires IsRun(run, steps) && j <= k < |run| && Ending(run[j].pc)
    ensures Ending(run[k].pc)
    decreases k
  {
    if j < k {
      EndingStays(run, steps, j, k - 1);
      RunKeepsInv(run, steps, k - 1);
      assert Next(run[k - 1], steps[k - 1]) == Some(run[k]);
    }
  }

  /** Once a turn waits for deferred input, nothing is accepted and no request is made. */
  lemma DeferralIsFinal(run: seq<System>, steps: seq<Step>, j: nat, k: nat)
    requires IsRun(run, steps) && j < k < |run| && steps[j].Defers?
    ensures run[k].queue.closed && run[k].accepted == run[j].accepted
    ensures k < |steps| ==> !Requests(steps[k])
  {
    assert Next(run[j], steps[j]) == Some(run[j + 1]);
    ClosedIsFinal(run, steps, j + 1, k);
    EndingStays(run, steps, j + 1, k);
    if k < |steps| {
      assert Next(run[k], steps[k]) == Some(run[k + 1]);
    }
  }

  /** Where a stream may stand between an accepted output and the end of the next turn. */
  ghost predicate Steered(s: System) {
    || s.pc == Taking(true)
    || (s.pc.Preparing? && s.taken != [])
    || (s.pc.Ready? && s.injected != [])
    || s.pc.Acking? || s.pc.Streaming? || Ending(s.pc)
  }

  lemma {:induction false} StaysSteered(run: seq<System>, steps: seq<Step>, j: nat, k: nat)
    requires IsRun(run, steps) && j < k < |run| && steps[j] == TurnCompletes(true)
    requires forall i :: j < i < k ==> !steps[i].TurnCompletes?
    ensures Steered(run[k])
    decreases k
  {
    assert Next(run[k - 1], steps[k - 1]) == Some(run[k]);
    if j + 1 < k {
      StaysSteered(run, steps, j, k - 1);
      RunKeepsInv(run, steps, k - 1);
    }
  }

  /** An accepted output is the run's last word unless a message arrived: the request that
      follows it carries one. */
  lemma AcceptedOutputIsFinal(run: seq<System>, steps: seq<Step>, j: nat, k: nat)
    requires IsRun(run, steps) && j < k < |steps| && steps[j] == TurnCompletes(true) && Requests(steps[k])
    requires forall i :: j < i < k ==> !steps[i].TurnCompletes?
    ensures run[k].injected != []
  {
    StaysSteered(run, steps, j, k);
    assert Next(run[k], steps[k]) == Some(run[k + 1]);
  }

  /** How far the stream is from its end, if it gives up as soon as it can. */
  function Distance(pc: Pc): (n: nat) {
    match pc
    case Taking(_) => 10
    case Setup | Ready | Acking | Preparing => 9
    case Streaming => 8
    case Rejecting(next) => (match next case Finishing => 7 case Closing => 5 case _ => 3)
    case Finishing => 6
    case Closing => 4
    case Done => 0
  }

  /** The step that ends things soonest; messages being acknowledged are still served. */
  function WayOut(s: System): (step: Step) {
    match s.pc
    case Setup => SetupFails
    case Ready => TurnFails
    case Acking => Consume(true)
    case Streaming => EndStream
    case Taking(_) => TakeQueue
    case Preparing => Prepare(false)
    case Rejecting(_) => if s.rejecting == [] then RejectedAll else RejectOne
    case Finishing => RejectInjected
    case Closing => ShutQueue
    case Done => RejectedAll
  }

  lemma WayOutLeads(s: System)
    requires Tidy(s) && !s.pc.Done?
    ensures Next(s, WayOut(s)).Some?
    ensures var s' := Next(s, WayOut(s)).value;
      || Distance(s'.pc) < Distance(s.pc)
      || (s'.pc == s.pc && |s'.acking| + |s'.rejecting| < |s.acking| + |s.rejecting|)
  {
  }

  /** Every run can be continued, without any further producer, until the stream is done,
      where SteerProtocol gives each accepted message its one outcome. */
  lemma {:induction false} CanFinish(run: seq<System>, steps: seq<Step>) returns (run': seq<System>, steps': seq<Step>)
    requires IsRun(run, steps)
    ensures IsRun(run', steps') && run <= run' && run'[|run'| - 1].pc.Done?
    ensures run'[|run'| - 1].accepted == run[|run| - 1].accepted
    decreases Distance(run[|run| - 1].pc), |run[|run| - 1].acking| + |run[|run| - 1].rejecting|
  {
    var s := run[|run| - 1];
    if s.pc.Done? {
      run', steps' := run, steps;
    } else {
      RunKeepsInv(run, steps, |run| - 1);
      WayOutLeads(s);
      var next := Next(s, WayOut(s)).value;
      RunGrows(run, steps, WayOut(s));
      run', steps' := CanFinish(run + [next], steps + [WayOut(s)]);
    }
  }

  lemma RunGrows(run: seq<System>, steps: seq<Step>, step: Step)
    requires IsRun(run, steps) && Next(run[|run| - 1], step).Some?
    ensures IsRun(run + [Next(run[|run| - 1], step).value], steps + [step])
  {
    var run', steps' := run + [Next(run[|run| - 1], step).value], steps + [step];
    forall k | 0 <= k < |steps'| ensures Next(run'[k], steps'[k]) == Some(run'[k + 1]) {
      if k < |steps| {
        assert run'[k] == run[k] && run'[k + 1] == run[k + 1] && steps'[k] == steps[k];
      }
    }
  }
}
