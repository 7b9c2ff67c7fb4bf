/** The counters that concurrently running tools share (core/agent.go executeSingleTool):
    each start adds to the run's tool calls and each end updates its tool's retry counter,
    one mutex section each, in the order the schedule happens to take. */
module ToolCounters {
  import opened Transcript
  import opened ToolBatches
  import opened Responses

  /** A tool that succeeds is forgiven; one that asks for a retry is counted. */
  function Recount(t: map<string, int>, tool: string, out: ToolOut): map<string, int> {
    if out.Success? then t - {tool}
    else if out.Retry? then t[tool := 1 + if tool in t then t[tool] else 0]
    else t
  }

  function Count(c: Counters, calls: seq<Call>, outs: seq<ToolOut>, m: Move): Counters
    requires |calls| == |outs|
  {
    match m
    case Launch(_) => c.(toolCalls := c.toolCalls + 1)
    case Land(i) => if i < |calls| then c.(toolRetries := Recount(c.toolRetries, calls[i].tool, outs[i])) else c
    case _ => c
  }

  /** The shared counters after these moves of a schedule. */
  function Shared(c: Counters, calls: seq<Call>, outs: seq<ToolOut>, moves: seq<Move>): Counters
    requires |calls| == |outs|
  {
    if moves == [] then c
    else Count(Shared(c, calls, outs, moves[..|moves| - 1]), calls, outs, moves[|moves| - 1])
  }

  /** The order in which calls end. */
  function Landed(moves: seq<Move>): seq<nat> {
    if moves == [] then []
    else
      var front, m := Landed(moves[..|moves| - 1]), moves[|moves| - 1];
      if m.Land? then front + [m.i] else front
  }

  function Launches(moves: seq<Move>): nat {
    if moves == [] then 0 else Launches(moves[..|moves| - 1]) + if moves[|moves| - 1].Launch? then 1 else 0
  }

  function Landings(moves: seq<Move>, i: nat): nat {
    if moves == [] then 0 else Landings(moves[..|moves| - 1], i) + if moves[|moves| - 1] == Land(i) then 1 else 0
  }

  /** How many of the first n calls have been started. */
  function Begun(outs: seq<ToolOut>, phase: seq<Phase>, n: nat): (c: nat)
    requires n <= |outs| && n <= |phase|
    ensures c <= n
  {
    if n == 0 then 0 else Begun(outs, phase, n - 1) + if phase[n - 1].Waiting? || outs[n - 1].Cancelled? then 0 else 1
  }

  lemma {:induction false} BegunUpdate(outs: seq<ToolOut>, phase: seq<Phase>, n: nat, i: nat, x: Phase)
    requires n <= |outs| && n <= |phase| && i < |phase| && i < |outs|
    ensures Begun(outs, phase[i := x], n) ==
      Begun(outs, phase, n) + if i < n && !outs[i].Cancelled? && phase[i].Waiting? && !x.Waiting? then 1
                              else if i < n && !outs[i].Cancelled? && !phase[i].Waiting? && x.Waiting? then -1 else 0
  {
    if n > 0 {
      BegunUpdate(outs, phase, n - 1, i, x);
    }
  }

  lemma {:induction false} BegunIsLive(outs: seq<ToolOut>, phase: seq<Phase>, n: nat, reach: nat)
    requires n <= |outs| && n <= |phase| && reach <= |outs|
    requires forall i :: 0 <= i < n ==> (phase[i].Waiting? <==> i >= reach)
    ensures Begun(outs, phase, n) == CountLive(outs, if n < reach then n else reach)
  {
    if n > 0 {
      BegunIsLive(outs, phase, n - 1, reach);
    }
  }

  lemma MoveCounts(j: Job, s: Sched, m: Move, s': Sched)
    requires Bounded(j) && PhasesInv(j, s) && Step(j, s, m, s')
    ensures |s'.phase| == |j.outs|
    ensures Begun(j.outs, s'.phase, |j.outs|) == Begun(j.outs, s.phase, |j.outs|) + if m.Launch? then 1 else 0
    ensures forall i :: 0 <= i < |j.outs| ==>
      (s'.phase[i].Ended? && !j.outs[i].Cancelled? <==> (s.phase[i].Ended? && !j.outs[i].Cancelled?) || m == Land(i))
    ensures m.Land? ==> m.i < |j.outs| && !s.phase[m.i].Ended?
  {
    if m.Launch? {
      BegunUpdate(j.outs, s.phase, |j.outs|, m.i, Running);
    } else if m.GiveUp? || m.Land? {
      BegunUpdate(j.outs, s.phase, |j.outs|, m.i, Ended);
    }
  }

  /** The starts so far are the calls begun, and each call that ended after it was started
      has ended once. */
  ghost predicate Matches(j: Job, s: Sched, moves: seq<Move>) {
    && |s.phase| == |j.outs| && Launches(moves) == Begun(j.outs, s.phase, |j.outs|)
    && (forall i :: 0 <= i < |j.outs| ==>
          Landings(moves, i) == if s.phase[i].Ended? && !j.outs[i].Cancelled? then 1 else 0)
    && (forall i :: 0 <= i < |Landed(moves)| ==> Landed(moves)[i] < |j.outs| && s.phase[Landed(moves)[i]].Ended?)
  }

  /** What one more move adds to the counts. */
  lemma OneMoreMove(moves: seq<Move>, m: Move)
    ensures Launches(moves + [m]) == Launches(moves) + if m.Launch? then 1 else 0
    ensures forall i :: Landings(moves + [m], i) == Landings(moves, i) + if m == Land(i) then 1 else 0
    ensures Landed(moves + [m]) == Landed(moves) + if m.Land? then [m.i] else []
  {
    assert (moves + [m])[..|moves|] == moves;
  }

  lemma EndedStays(j: Job, s: Sched, m: Move, s': Sched, i: nat)
    requires Bounded(j) && PhasesInv(j, s) && Step(j, s, m, s') && i < |s.phase| && s.phase[i].Ended?
    ensures i < |s'.phase| && s'.phase[i].Ended?
  {
  }

  lemma MoveMatches(j: Job, s: Sched, moves: seq<Move>, m: Move, s': Sched)
    requires Bounded(j) && PhasesInv(j, s) && Step(j, s, m, s') && Matches(j, s, moves)
    ensures Matches(j, s', moves + [m])
  {
    OneMoreMove(moves, m);
    MoveCounts(j, s, m, s');
    var landed := Landed(moves + [m]);
    forall i | 0 <= i < |landed| ensures landed[i] < |j.outs| && s'.phase[landed[i]].Ended? {
      if i < |Landed(moves)| {
        EndedStays(j, s, m, s', landed[i]);
      }
    }
  }

  /** So it is at every moment of every schedule. */
  lemma {:induction false} ScheduleCounts(j: Job, safe: seq<bool>, run: seq<Sched>, moves: seq<Move>, k: nat)
    requires |safe| == |j.outs| && IsBatching(safe, j.batches) && Bounded(j)
    requires IsRun(j, run, moves) && k < |run|
    ensures Matches(j, run[k], moves[..k])
  {
    if k == 0 {
      assert moves[..k] == [];
      BegunIsLive(j.outs, run[0].phase, |j.outs|, 0);
    } else {
      ScheduleCounts(j, safe, run, moves, k - 1);
      RunKeepsInv(j, safe, run, moves, k - 1);
      assert moves[..k] == moves[..k - 1] + [moves[k - 1]];
      assert StepAt(j, run, moves, k - 1);
      MoveMatches(j, run[k - 1], moves[..k - 1], moves[k - 1], run[k]);
    }
  }

  lemma {:induction false} SharedCalls(c: Counters, calls: seq<Call>, outs: seq<ToolOut>, moves: seq<Move>)
    requires |calls| == |outs|
    ensures Shared(c, calls, outs, moves).toolCalls == c.toolCalls + Launches(moves)
    ensures Shared(c, calls, outs, moves).retries == c.retries
  {
    if moves != [] {
      SharedCalls(c, calls, outs, moves[..|moves| - 1]);
    }
  }

  lemma {:induction false} SharedRetries(c: Counters, calls: seq<Call>, outs: seq<ToolOut>, reach: nat,
      moves: seq<Move>)
    requires |calls| == |outs|
    requires forall i :: 0 <= i < |Landed(moves)| ==> Landed(moves)[i] < reach && Landed(moves)[i] < |calls|
    ensures Shared(c, calls, outs, moves).toolRetries == Tally(c.toolRetries, calls, outs, reach, Landed(moves))
  {
    if moves != [] {
      var front := moves[..|moves| - 1];
      if moves[|moves| - 1].Land? {
        assert Landed(moves)[..|Landed(moves)| - 1] == Landed(front);
        assert forall i :: 0 <= i < |Landed(front)| ==> Landed(front)[i] == Landed(moves)[i];
      }
      SharedRetries(c, calls, outs, reach, front);
    }
  }

  /** The counters of a finished schedule are those of the sequential specification. */
  lemma FinishedCounters(j: Job, safe: seq<bool>, c: Counters, calls: seq<Call>, run: seq<Sched>, moves: seq<Move>)
    requires |safe| == |j.outs| == |calls| && IsBatching(safe, j.batches) && Bounded(j)
    requires IsRun(j, run, moves) && !run[|moves|].verdict.Active?
    ensures var reach := Execute(j, 0).1;
      Shared(c, calls, j.outs, moves) ==
      c.(toolCalls := c.toolCalls + CountLive(j.outs, reach),
        toolRetries := Tally(c.toolRetries, calls, j.outs, reach, Landed(moves)))
  {
    var reach := Execute(j, 0).1;
    ScheduleMatchesExecute(j, safe, run, moves);
    ScheduleCounts(j, safe, run, moves, |moves|);
    assert moves[..|moves|] == moves;
    BegunIsLive(j.outs, run[|moves|].phase, |j.outs|, reach);
    SharedCalls(c, calls, j.outs, moves);
    SharedRetries(c, calls, j.outs, reach, moves);
  }

  /** However the calls of a response interleave, when they have returned the shared
      counters and the verdict are those of the sequential specification, with the
      schedule's own order of endings; on success result i is what call i came to. */
  lemma SchedulesRefineRunJob(p: Policy, o: Oracle, c: Counters, calls: seq<Call>, result: Option<string>,
      answers: seq<RequestPart>, run: seq<Sched>, moves: seq<Move>)
    requires Runnable(p, calls) && IsRun(JobOf(p, o, calls), run, moves) && !run[|moves|].verdict.Active?
    requires o.landing == Landed(moves)
    ensures RunJob(p, o, c, calls, result, answers) ==
            ToolVerdict(Shared(c, calls, JobOf(p, o, calls).outs, moves), run[|moves|].verdict, calls,
              JobOf(p, o, calls).outs, result, answers)
    ensures run[|moves|].verdict.Done? ==>
              |run[|moves|].results| == |calls| &&
                forall i :: 0 <= i < |calls| ==> run[|moves|].results[i] == Some(o.tool(i))
  {
    var j, safe := JobOf(p, o, calls), SafeFlags(p, calls);
    ScheduleMatchesExecute(j, safe, run, moves);
    FinishedCounters(j, safe, c, calls, run, moves);
  }

  /** Since the whole response was admitted, the count never passes the limit, at any
      moment of any interleaving. */
  lemma CountStaysWithinLimit(p: Policy, o: Oracle, c: Counters, calls: seq<Call>, run: seq<Sched>, moves: seq<Move>,
      k: nat)
    requires Runnable(p, calls) && IsRun(JobOf(p, o, calls), run, moves) && k < |run|
    requires p.toolCallsLimit.Some? && c.toolCalls + |calls| <= p.toolCallsLimit.value
    ensures c.toolCalls <= Shared(c, calls, JobOf(p, o, calls).outs, moves[..k]).toolCalls <= p.toolCallsLimit.value
  {
    var j := JobOf(p, o, calls);
    ScheduleCounts(j, SafeFlags(p, calls), run, moves, k);
    SharedCalls(c, calls, j.outs, moves[..k]);
  }

  /** Each call that is reached and not cancelled while it waits ends exactly once. */
  lemma LandsOnce(j: Job, safe: seq<bool>, run: seq<Sched>, moves: seq<Move>, i: nat)
    requires |safe| == |j.outs| && IsBatching(safe, j.batches) && Bounded(j)
    requires IsRun(j, run, moves) && !run[|moves|].verdict.Active? && i < |j.outs|
    ensures Landings(moves, i) == if i < Execute(j, 0).1 && !j.outs[i].Cancelled? then 1 else 0
  {
    ScheduleMatchesExecute(j, safe, run, moves);
    ScheduleCounts(j, safe, run, moves, |moves|);
    assert moves[..|moves|] == moves;
  }

  /* ----- what a retry counter counts ----- */

  /** The q-th ending is one of this tool. */
  predicate EndsAs(calls: seq<Call>, reach: nat, landing: seq<nat>, q: nat, tool: string)
    requires q < |landing|
  {
    landing[q] < |calls| && landing[q] < reach && calls[landing[q]].tool == tool
  }

  predicate Succeeds(calls: seq<Call>, outs: seq<ToolOut>, reach: nat, landing: seq<nat>, q: nat, tool: string)
    requires |calls| == |outs| && q < |landing|
  {
    EndsAs(calls, reach, landing, q, tool) && outs[landing[q]].Success?
  }

  /** How many of the endings from place p up to n ask for a retry of this tool. */
  function CountRetries(calls: seq<Call>, outs: seq<ToolOut>, reach: nat, landing: seq<nat>, tool: string, p: nat,
      n: nat): nat
    requires |calls| == |outs| && n <= |landing|
  {
    if n <= p then 0
    else
      CountRetries(calls, outs, reach, landing, tool, p, n - 1) +
      if EndsAs(calls, reach, landing, n - 1, tool) && outs[landing[n - 1]].Retry? then 1 else 0
  }

  function Retried(t: map<string, int>, tool: string): int {
    if tool in t then t[tool] else 0
  }

  lemma TallyStep(t: map<string, int>, calls: seq<Call>, outs: seq<ToolOut>, reach: nat, landing: seq<nat>, n: nat,
      tool: string)
    requires |calls| == |outs| && n < |landing|
    ensures var before := Retried(Tally(t, calls, outs, reach, landing[..n]), tool);
      Retried(Tally(t, calls, outs, reach, landing[..n + 1]), tool) ==
        if !EndsAs(calls, reach, landing, n, tool) then before
        else if outs[landing[n]].Success? then 0
        else if outs[landing[n]].Retry? then before + 1
        else before
  {
    assert landing[..n + 1][..n] == landing[..n];
  }

  /** A tool's counter is the number of retries it asked for since it last succeeded, on top
      of what it had if it did not: unrelated failures never add up. */
  lemma {:induction false} RetriesSinceSuccess(t: map<string, int>, calls: seq<Call>, outs: seq<ToolOut>, reach: nat,
      landing: seq<nat>, tool: string, p: nat, n: nat)
    requires |calls| == |outs| && p <= n <= |landing|
    requires p > 0 ==> Succeeds(calls, outs, reach, landing, p - 1, tool)
    requires forall q :: p <= q < n ==> !Succeeds(calls, outs, reach, landing, q, tool)
    ensures Retried(Tally(t, calls, outs, reach, landing[..n]), tool) ==
      (if p == 0 then Retried(t, tool) else 0) + CountRetries(calls, outs, reach, landing, tool, p, n)
    decreases n
  {
    if n == p {
      if n > 0 {
        TallyStep(t, calls, outs, reach, landing, n - 1, tool);
      }
    } else {
      RetriesSinceSuccess(t, calls, outs, reach, landing, tool, p, n - 1);
      TallyStep(t, calls, outs, reach, landing, n - 1, tool);
      assert !Succeeds(calls, outs, reach, landing, n - 1, tool);
    }
  }
}
