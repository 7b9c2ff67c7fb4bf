/** Scheduling of one response's function-tool calls (core/agent.go
    executeFunctionTools): consecutive concurrency-safe calls form one batch,
    an exclusive call is a batch of its own, and batches run one after another. */
module ToolBatches {
  import opened Transcript

  /** What one call came to. `Cancelled` is the call whose context ended while it
      waited for a slot: it was never started. */
  datatype ToolOut =
    | Success(content: string)
    | ErrorReturn(content: string)
    | Retry(feedback: string)
    | Denied(feedback: string)
    | Deferred
    | Fatal(reason: string)
    | Cancelled(content: string)

  datatype Batch = Batch(safe: bool, lo: nat, hi: nat)

  /** The batches are the maximal safe runs and the single exclusive calls, in order. */
  ghost predicate IsBatching(safe: seq<bool>, bs: seq<Batch>) {
    IsBatchingTo(safe, |safe|, bs)
  }

  /** The same for the first n calls. */
  ghost predicate IsBatchingTo(safe: seq<bool>, n: nat, bs: seq<Batch>)
    requires n <= |safe|
  {
    Chained(bs, n) && forall p :: 0 <= p < |bs| ==> Pure(safe, bs[p])
  }

  /** The batches follow each other from 0 to n without gaps, no two safe ones in a row. */
  ghost predicate Chained(bs: seq<Batch>, n: nat) {
    && (bs == [] <==> n == 0)
    && (bs != [] ==> bs[0].lo == 0 && bs[|bs| - 1].hi == n)
    && (forall p :: 0 <= p < |bs| ==> bs[p].lo < bs[p].hi <= n)
    && (forall p, q :: 0 <= p < |bs| && q == p + 1 < |bs| ==> bs[p].hi == bs[q].lo && !(bs[p].safe && bs[q].safe))
  }

  /** All calls of a batch are of its kind, and an exclusive one is alone. */
  ghost predicate Pure(safe: seq<bool>, b: Batch) {
    && (forall i :: b.lo <= i < b.hi && i < |safe| ==> safe[i] == b.safe)
    && (!b.safe ==> b.hi == b.lo + 1)
  }

  /** The batches once call n has been added to those of the calls before it. */
  function Extend(safe: seq<bool>, n: nat, bs: seq<Batch>): (bs': seq<Batch>)
    requires n < |safe|
  {
    if safe[n] && bs != [] && bs[|bs| - 1].safe then bs[..|bs| - 1] + [Batch(true, bs[|bs| - 1].lo, n + 1)]
    else bs + [Batch(safe[n], n, n + 1)]
  }

  lemma OpenBatch(safe: seq<bool>, n: nat, bs: seq<Batch>)
    requires n < |safe| && IsBatchingTo(safe, n, bs) && !(safe[n] && bs != [] && bs[|bs| - 1].safe)
    ensures IsBatchingTo(safe, n + 1, bs + [Batch(safe[n], n, n + 1)])
  {
    var last := Batch(safe[n], n, n + 1);
    ChainOpens(bs, n, last);
    assert Pure(safe, last);
  }

  lemma ChainOpens(bs: seq<Batch>, n: nat, last: Batch)
    requires Chained(bs, n) && last.lo == n && last.hi == n + 1 && !(last.safe && bs != [] && bs[|bs| - 1].safe)
    ensures Chained(bs + [last], n + 1)
  {
    var bs' := bs + [last];
    assert forall p :: 0 <= p < |bs| ==> bs'[p] == bs[p];
  }

  lemma GrowBatch(safe: seq<bool>, n: nat, bs: seq<Batch>)
    requires n < |safe| && IsBatchingTo(safe, n, bs) && safe[n] && bs != [] && bs[|bs| - 1].safe
    ensures IsBatchingTo(safe, n + 1, bs[..|bs| - 1] + [Batch(true, bs[|bs| - 1].lo, n + 1)])
  {
    var last := bs[|bs| - 1];
    ChainGrows(bs, n);
    assert Pure(safe, last);
    assert Pure(safe, Batch(true, last.lo, n + 1));
  }

  lemma ChainGrows(bs: seq<Batch>, n: nat)
    requires Chained(bs, n) && bs != [] && bs[|bs| - 1].safe
    ensures Chained(bs[..|bs| - 1] + [Batch(true, bs[|bs| - 1].lo, n + 1)], n + 1)
  {
    var last := |bs| - 1;
    var bs' := bs[..last] + [Batch(true, bs[last].lo, n + 1)];
    assert forall p :: 0 <= p < last ==> bs'[p] == bs[p];
    assert bs'[last] == Batch(true, bs[last].lo, n + 1);
  }

  lemma ExtendsBatching(safe: seq<bool>, n: nat, bs: seq<Batch>)
    requires n < |safe| && IsBatchingTo(safe, n, bs)
    ensures IsBatchingTo(safe, n + 1, Extend(safe, n, bs))
  {
    if safe[n] && bs != [] && bs[|bs| - 1].safe {
      GrowBatch(safe, n, bs);
    } else {
      OpenBatch(safe, n, bs);
    }
  }

  function BatchingTo(safe: seq<bool>, n: nat): (bs: seq<Batch>)
    requires n <= |safe|
  {
    if n == 0 then [] else Extend(safe, n - 1, BatchingTo(safe, n - 1))
  }

  lemma {:induction false} BatchingToIsBatching(safe: seq<bool>, n: nat)
    requires n <= |safe|
    ensures IsBatchingTo(safe, n, BatchingTo(safe, n))
  {
    if n > 0 {
      var front := BatchingTo(safe, n - 1);
      BatchingToIsBatching(safe, n - 1);
      ExtendsBatching(safe, n - 1, front);
      assert BatchingTo(safe, n) == Extend(safe, n - 1, front);
    }
  }

  function Batching(safe: seq<bool>): (bs: seq<Batch>)
    ensures IsBatching(safe, bs)
  {
    BatchingToIsBatching(safe, |safe|);
    BatchingTo(safe, |safe|)
  }

  method BuildBatches(safe: seq<bool>) returns (bs: seq<Batch>)
    ensures IsBatching(safe, bs) && bs == Batching(safe)
  {
    bs := [];
    for i := 0 to |safe|
      invariant bs == BatchingTo(safe, i)
    {
      var n := |bs|;
      assert BatchingTo(safe, i + 1) == Extend(safe, i, bs);
      if safe[i] && n > 0 && bs[n - 1].safe {
        bs := bs[..n - 1] + [Batch(true, bs[n - 1].lo, i + 1)];
      } else {
        bs := bs + [Batch(safe[i], i, i + 1)];
      }
    }
    BatchingToIsBatching(safe, |safe|);
  }

  /** The batching is determined by the calls alone. */
  lemma BatchingUnique(safe: seq<bool>, a: seq<Batch>, b: seq<Batch>)
    requires IsBatching(safe, a) && IsBatching(safe, b)
    ensures a == b
  {
    BatchingUniqueFrom(safe, a, b, 0);
  }

  /** A batch begins where the one in front of it ends. */
  lemma BatchStart(safe: seq<bool>, a: seq<Batch>, p: nat)
    requires IsBatching(safe, a) && p < |a|
    ensures a[p].lo == (if p == 0 then 0 else a[p - 1].hi) && a[p].lo < a[p].hi <= |safe|
    ensures safe[a[p].lo] == a[p].safe
  {
    assert Pure(safe, a[p]);
    if p > 0 {
      var q := p - 1;
      assert a[q].hi == a[q + 1].lo;
    }
  }

  /** A maximal run cannot stop before another batching's run that starts with it. */
  lemma SameEnd(safe: seq<bool>, a: seq<Batch>, b: seq<Batch>, p: nat)
    requires IsBatching(safe, a) && IsBatching(safe, b)
    requires p < |a| && p < |b| && a[p].lo == b[p].lo
    ensures a[p].safe == b[p].safe && a[p].hi >= b[p].hi
  {
    BatchStart(safe, a, p);
    BatchStart(safe, b, p);
    assert Pure(safe, b[p]);
    if p + 1 < |a| {
      BatchStart(safe, a, p + 1);
    }
  }

  lemma {:induction false} BatchingUniqueFrom(safe: seq<bool>, a: seq<Batch>, b: seq<Batch>, p: nat)
    requires IsBatching(safe, a) && IsBatching(safe, b)
    requires p <= |a| && p <= |b| && a[..p] == b[..p]
    ensures a == b
    decreases |a| - p
  {
    SameSoFar(a, b, p);
    if p < |a| && p < |b| {
      BatchStart(safe, a, p);
      BatchStart(safe, b, p);
      SameEnd(safe, a, b, p);
      SameEnd(safe, b, a, p);
      assert a[p] == b[p];
      assert a[..p + 1] == a[..p] + [a[p]] == b[..p] + [b[p]] == b[..p + 1];
      BatchingUniqueFrom(safe, a, b, p + 1);
    } else {
      SameLength(safe, a, b, p);
      assert a[..p] == a && b[..p] == b;
    }
  }

  lemma SameSoFar(a: seq<Batch>, b: seq<Batch>, p: nat)
    requires p <= |a| && p <= |b| && a[..p] == b[..p]
    ensures p > 0 ==> a[p - 1] == b[p - 1]
  {
    if p > 0 {
      assert a[p - 1] == a[..p][p - 1] && b[p - 1] == b[..p][p - 1];
    }
  }

  /** Who has covered all calls has no further batch. */
  lemma SameLength(safe: seq<bool>, a: seq<Batch>, b: seq<Batch>, p: nat)
    requires IsBatching(safe, a) && IsBatching(safe, b) && p <= |a| && p <= |b| && (p == |a| || p == |b|)
    requires p > 0 ==> a[p - 1] == b[p - 1]
    ensures |a| == |b| == p
  {
    if p < |a| {
      BatchStart(safe, a, p);
    }
    if p < |b| {
      BatchStart(safe, b, p);
    }
  }

  /* ----- the sequential meaning ----- */

  datatype Outcome = Active | Done | ContextDone | FatalTool(reason: string)

  /** One call of executeFunctionTools: its batches, what each call would come to,
      the batch before which the context is found cancelled, and maxConcurrency. */
  datatype Job = Job(batches: seq<Batch>, outs: seq<ToolOut>, cancelAt: Option<nat>, limit: int)

  function FirstFatal(outs: seq<ToolOut>, lo: nat, hi: nat): Option<string>
    requires lo <= hi <= |outs|
    decreases hi - lo
  {
    if lo == hi then None
    else if outs[lo].Fatal? then Some(outs[lo].reason)
    else FirstFatal(outs, lo + 1, hi)
  }

  predicate Bounded(j: Job) {
    forall p :: 0 <= p < |j.batches| ==> j.batches[p].lo < j.batches[p].hi <= |j.outs|
  }

  /** Run the batches from `b` on: how it ends, and up to which call it got. */
  function Execute(j: Job, b: nat): (r: (Outcome, nat))
    requires b <= |j.batches| && Bounded(j)
    ensures !r.0.Active? && r.1 <= |j.outs|
    ensures r.0.Done? ==> r.1 == |j.outs|
    decreases |j.batches| - b
  {
    if b == |j.batches| then (Done, |j.outs|)
    else
      var batch := j.batches[b];
      if j.cancelAt == Some(b) then (ContextDone, batch.lo)
      else
        match FirstFatal(j.outs, batch.lo, batch.hi)
        case Some(reason) => (FatalTool(reason), batch.hi)
        case None => Execute(j, b + 1)
  }

  /** How many of the first `n` calls were started. */
  function CountLive(outs: seq<ToolOut>, n: nat): (c: nat)
    requires n <= |outs|
    ensures c <= n
  {
    if n == 0 then 0 else CountLive(outs, n - 1) + if outs[n - 1].Cancelled? then 0 else 1
  }

  /** A run that ends well has met no fatal call. */
  lemma {:induction false} DoneHasNoFatal(j: Job, b: nat, safe: seq<bool>, i: nat)
    requires |safe| == |j.outs| && IsBatching(safe, j.batches) && Bounded(j)
    requires b < |j.batches| && j.batches[b].lo <= i < |j.outs|
    requires Execute(j, b).0.Done?
    ensures !j.outs[i].Fatal?
    decreases |j.batches| - b
  {
    if i < j.batches[b].hi {
      NoFatalIn(j.outs, j.batches[b].lo, j.batches[b].hi, i);
    } else {
      DoneHasNoFatal(j, b + 1, safe, i);
    }
  }

  lemma {:induction false} NoFatalIn(outs: seq<ToolOut>, lo: nat, hi: nat, i: nat)
    requires lo <= i < hi <= |outs| && FirstFatal(outs, lo, hi).None?
    ensures !outs[i].Fatal?
    decreases hi - lo
  {
    if lo < i {
      NoFatalIn(outs, lo + 1, hi, i);
    }
  }

  lemma {:induction false} FirstFatalIs(outs: seq<ToolOut>, lo: nat, hi: nat) returns (i: nat)
    requires lo <= hi <= |outs| && FirstFatal(outs, lo, hi).Some?
    ensures lo <= i < hi && outs[i] == Fatal(FirstFatal(outs, lo, hi).value)
    ensures forall k :: lo <= k < i ==> !outs[k].Fatal?
    decreases hi - lo
  {
    if outs[lo].Fatal? {
      i := lo;
    } else {
      i := FirstFatalIs(outs, lo + 1, hi);
    }
  }

  /** A run that breaks off reports the first fatal call. */
  lemma {:induction false} FatalIsFirst(j: Job, b: nat, safe: seq<bool>) returns (i: nat)
    requires |safe| == |j.outs| && IsBatching(safe, j.batches) && Bounded(j) && b < |j.batches|
    requires Execute(j, b).0.FatalTool?
    ensures j.batches[b].lo <= i < Execute(j, b).1 && j.outs[i] == Fatal(Execute(j, b).0.reason)
    ensures forall k :: j.batches[b].lo <= k < i ==> !j.outs[k].Fatal?
    decreases |j.batches| - b
  {
    var lo, hi := j.batches[b].lo, j.batches[b].hi;
    if FirstFatal(j.outs, lo, hi).Some? {
      i := FirstFatalIs(j.outs, lo, hi);
    } else {
      BatchStart(safe, j.batches, b + 1);
      i := FatalIsFirst(j, b + 1, safe);
      forall k | lo <= k < hi ensures !j.outs[k].Fatal? {
        NoFatalIn(j.outs, lo, hi, k);
      }
    }
  }

  /* ----- the concurrent scheduler ----- */

  datatype Phase = Waiting | Running | Ended

  datatype Sched = Sched(batch: nat, entered: bool, phase: seq<Phase>, results: seq<Option<ToolOut>>, verdict: Outcome)

  function Start(j: Job): Sched {
    Sched(0, false, seq(|j.outs|, i => Waiting), seq(|j.outs|, i => None), Active)
  }

  ghost function RunningSet(s: Sched): set<nat> {
    set i: nat | i < |s.phase| && s.phase[i].Running?
  }

  predicate Here(j: Job, s: Sched, i: nat) {
    s.entered && s.batch < |j.batches| && j.batches[s.batch].lo <= i < j.batches[s.batch].hi && i < |s.phase| &&
      i < |s.results| && i < |j.outs|
  }

  function EndWith(j: Job, s: Sched, i: nat): Sched
    requires Here(j, s, i)
  {
    s.(phase := s.phase[i := Ended], results := s.results[i := Some(j.outs[i])])
  }

  /** The atomic steps; any goroutine may take the next one. */
  datatype Move = Enter | Launch(i: nat) | GiveUp(i: nat) | Land(i: nat) | Leave | Return

  ghost predicate Step(j: Job, s: Sched, m: Move, s': Sched)
    requires Bounded(j)
  {
    s.verdict.Active? &&
    match m
    case Enter =>
      !s.entered && s.batch < |j.batches| &&
      s' == if j.cancelAt == Some(s.batch) then s.(verdict := ContextDone) else s.(entered := true)
    case Launch(i) =>
      Here(j, s, i) && s.phase[i].Waiting? && !j.outs[i].Cancelled? &&
      (j.batches[s.batch].safe && j.limit > 0 ==> |RunningSet(s)| < j.limit) &&
      s' == s.(phase := s.phase[i := Running])
    case GiveUp(i) =>
      Here(j, s, i) && s.phase[i].Waiting? && j.outs[i].Cancelled? && s' == EndWith(j, s, i)
    case Land(i) =>
      Here(j, s, i) && s.phase[i].Running? && s' == EndWith(j, s, i)
    case Leave =>
      s.entered && s.batch < |j.batches| &&
      (forall i: nat :: Here(j, s, i) ==> s.phase[i].Ended?) &&
      var b := j.batches[s.batch];
      s' == (match FirstFatal(j.outs, b.lo, b.hi)
             case Some(reason) => s.(verdict := FatalTool(reason))
             case None => s.(batch := s.batch + 1, entered := false))
    case Return =>
      s.batch == |j.batches| && s' == s.(verdict := Done)
  }

  ghost predicate IsRun(j: Job, run: seq<Sched>, moves: seq<Move>)
    requires Bounded(j)
  {
    |run| == |moves| + 1 && run[0] == Start(j) && forall k :: 0 <= k < |moves| ==> StepAt(j, run, moves, k)
  }

  ghost predicate StepAt(j: Job, run: seq<Sched>, moves: seq<Move>, k: nat)
    requires Bounded(j) && k < |moves| && |run| == |moves| + 1
  {
    Step(j, run[k], moves[k], run[k + 1])
  }

  function Lo(j: Job, b: nat): nat {
    if b < |j.batches| then j.batches[b].lo else |j.outs|
  }

  /** First call that has not been reached yet. */
  function Frontier(j: Job, s: Sched): nat {
    if s.entered && s.batch < |j.batches| then j.batches[s.batch].hi else Lo(j, s.batch)
  }

  /** Every call before the current batch has ended, none after the frontier has begun,
      and exactly the ended calls have results, their own. */
  ghost predicate PhasesInv(j: Job, s: Sched) {
    && |s.phase| == |s.results| == |j.outs|
    && s.batch <= |j.batches|
    && (forall i :: 0 <= i < |s.phase| ==>
          && (i < Lo(j, s.batch) ==> s.phase[i].Ended?)
          && (i >= Frontier(j, s) ==> s.phase[i].Waiting?)
          && (s.phase[i].Running? ==> !j.outs[i].Cancelled?)
          && s.results[i] == if s.phase[i].Ended? then Some(j.outs[i]) else None)
  }

  ghost predicate WidthInv(j: Job, s: Sched) {
    j.limit > 0 && s.entered && s.batch < |j.batches| && j.batches[s.batch].safe ==> |RunningSet(s)| <= j.limit
  }

  /** The batches behind have gone well, and a verdict is the sequential one. */
  ghost predicate PathInv(j: Job, s: Sched)
    requires Bounded(j)
  {
    && s.batch <= |j.batches|
    && (s.entered ==> s.batch < |j.batches| && j.cancelAt != Some(s.batch))
    && Execute(j, 0) == Execute(j, s.batch)
    && (!s.verdict.Active? ==>
          && Execute(j, 0) == (s.verdict, Frontier(j, s))
          && forall i :: 0 <= i < Frontier(j, s) && i < |s.phase| ==> s.phase[i].Ended?)
  }

  ghost predicate Inv(j: Job, s: Sched)
    requires Bounded(j)
  {
    PhasesInv(j, s) && WidthInv(j, s) && PathInv(j, s)
  }

  lemma LaunchRuns(s: Sched, i: nat)
    requires i < |s.phase| && s.phase[i].Waiting?
    ensures |RunningSet(s.(phase := s.phase[i := Running]))| == |RunningSet(s)| + 1
  {
    assert RunningSet(s.(phase := s.phase[i := Running])) == RunningSet(s) + {i};
  }

  lemma EndingRunsLess(s: Sched, s': Sched, i: nat)
    requires i < |s.phase| && s'.phase == s.phase[i := Ended]
    ensures |RunningSet(s')| <= |RunningSet(s)|
  {
    assert RunningSet(s') == RunningSet(s) - {i};
  }

  lemma CallMoveKeepsWidth(j: Job, s: Sched, m: Move, s': Sched)
    requires Bounded(j) && WidthInv(j, s) && Step(j, s, m, s')
    requires m.Launch? || m.GiveUp? || m.Land?
    ensures WidthInv(j, s')
  {
    if m.Launch? {
      LaunchRuns(s, m.i);
    } else {
      EndingRunsLess(s, s', m.i);
    }
  }

  lemma CallMoveKeepsPhases(j: Job, s: Sched, m: Move, s': Sched)
    requires Bounded(j) && Inv(j, s) && Step(j, s, m, s')
    requires m.Launch? || m.GiveUp? || m.Land?
    ensures PhasesInv(j, s')
  {
  }

  lemma CallMoveKeepsInv(j: Job, s: Sched, m: Move, s': Sched)
    requires Bounded(j) && Inv(j, s) && Step(j, s, m, s')
    requires m.Launch? || m.GiveUp? || m.Land?
    ensures Inv(j, s')
  {
    CallMoveKeepsWidth(j, s, m, s');
    CallMoveKeepsPhases(j, s, m, s');
  }

  lemma BatchMoveKeepsInv(j: Job, safe: seq<bool>, s: Sched, m: Move, s': Sched)
    requires |safe| == |j.outs| && IsBatching(safe, j.batches) && Bounded(j)
    requires Inv(j, s) && Step(j, s, m, s')
    requires m.Enter? || m.Leave? || m.Return?
    ensures Inv(j, s')
  {
    if m.Leave? {
      LeaveKeepsInv(j, safe, s, s');
    } else if m.Enter? {
      assert RunningSet(s') == {};
    }
  }

  lemma LeaveKeepsInv(j: Job, safe: seq<bool>, s: Sched, s': Sched)
    requires |safe| == |j.outs| && IsBatching(safe, j.batches) && Bounded(j)
    requires Inv(j, s) && Step(j, s, Leave, s')
    ensures Inv(j, s')
  {
    var b := j.batches[s.batch];
    assert forall i: nat :: b.lo <= i < b.hi ==> Here(j, s, i);
    if s.batch + 1 < |j.batches| {
      BatchStart(safe, j.batches, s.batch + 1);
    }
    assert Lo(j, s.batch + 1) == b.hi;
  }

  lemma StepKeepsInv(j: Job, safe: seq<bool>, s: Sched, m: Move, s': Sched)
    requires |safe| == |j.outs| && IsBatching(safe, j.batches) && Bounded(j)
    requires Inv(j, s) && Step(j, s, m, s')
    ensures Inv(j, s')
  {
    if m.Launch? || m.GiveUp? || m.Land? {
      CallMoveKeepsInv(j, s, m, s');
    } else {
      BatchMoveKeepsInv(j, safe, s, m, s');
    }
  }

  lemma StartIsFine(j: Job, safe: seq<bool>)
    requires |safe| == |j.outs| && IsBatching(safe, j.batches) && Bounded(j)
    ensures Inv(j, Start(j))
  {
    assert RunningSet(Start(j)) == {};
  }

  lemma {:induction false} RunKeepsInv(j: Job, safe: seq<bool>, run: seq<Sched>, moves: seq<Move>, k: nat)
    requires |safe| == |j.outs| && IsBatching(safe, j.batches) && Bounded(j)
    requires IsRun(j, run, moves) && k < |run|
    ensures Inv(j, run[k])
  {
    if k == 0 {
      StartIsFine(j, safe);
    } else {
      RunKeepsInv(j, safe, run, moves, k - 1);
      assert StepAt(j, run, moves, k - 1);
      StepKeepsInv(j, safe, run[k - 1], moves[k - 1], run[k]);
    }
  }

  /** In every interleaving: a running exclusive call is the only running call, every
      earlier call has ended and no later one has begun; a safe batch stays within
      maxConcurrency; the i-th result is the i-th call's. */
  lemma ScheduleSafe(j: Job, safe: seq<bool>, run: seq<Sched>, moves: seq<Move>, k: nat)
    requires |safe| == |j.outs| && IsBatching(safe, j.batches) && Bounded(j)
    requires IsRun(j, run, moves) && k < |run|
    ensures |run[k].phase| == |run[k].results| == |j.outs|
    ensures forall i, i' :: 0 <= i < |safe| && 0 <= i' < |safe| && i != i' && run[k].phase[i].Running? && !safe[i] ==>
              if i' < i then run[k].phase[i'].Ended? else run[k].phase[i'].Waiting?
    ensures forall i, i' :: 0 <= i < i' < |safe| && run[k].phase[i'] != Waiting && (!safe[i] || !safe[i']) ==>
              run[k].phase[i].Ended?
    ensures j.limit > 0 && (exists i :: 0 <= i < |safe| && run[k].phase[i].Running? && safe[i]) ==>
      |RunningSet(run[k])| <= j.limit
    ensures forall i :: 0 <= i < |safe| && run[k].results[i].Some? ==> run[k].results[i].value == j.outs[i]
  {
    RunKeepsInv(j, safe, run, moves, k);
    var s := run[k];
    assert forall i :: 0 <= i < |safe| && s.phase[i].Running? ==> Here(j, s, i) && safe[i] == j.batches[s.batch].safe;
    forall i, i' | 0 <= i < i' < |safe| && s.phase[i'] != Waiting && (!safe[i] || !safe[i'])
      ensures s.phase[i].Ended?
    {
      if s.entered && s.batch < |j.batches| && i >= j.batches[s.batch].lo {
        assert false;
      }
    }
  }

  /** However the calls interleave, a finished job has the sequential outcome; it has
      started exactly the calls before that point that were not cancelled, and on
      success result i is call i's own. Nothing after a fatal batch ever starts. */
  lemma ScheduleMatchesExecute(j: Job, safe: seq<bool>, run: seq<Sched>, moves: seq<Move>)
    requires |safe| == |j.outs| && IsBatching(safe, j.batches) && Bounded(j)
    requires IsRun(j, run, moves) && !run[|moves|].verdict.Active?
    ensures var s := run[|moves|];
      && |s.phase| == |s.results| == |j.outs|
      && s.verdict == Execute(j, 0).0
      && (forall i :: 0 <= i < |j.outs| ==> s.phase[i] == if i < Execute(j, 0).1 then Ended else Waiting)
      && (s.verdict.Done? ==> forall i :: 0 <= i < |j.outs| ==> s.results[i] == Some(j.outs[i]))
  {
    RunKeepsInv(j, safe, run, moves, |moves|);
  }

  /** The scheduler never gets stuck: until it has returned, some step is possible. */
  lemma ScheduleProgress(j: Job, safe: seq<bool>, run: seq<Sched>, moves: seq<Move>)
    requires |safe| == |j.outs| && IsBatching(safe, j.batches) && Bounded(j)
    requires IsRun(j, run, moves) && run[|moves|].verdict.Active?
    ensures exists m, s' :: Step(j, run[|moves|], m, s')
  {
    var s := run[|moves|];
    RunKeepsInv(j, safe, run, moves, |moves|);
    if s.batch == |j.batches| {
      assert Step(j, s, Return, s.(verdict := Done));
    } else if !s.entered {
      assert Step(j, s, Enter, if j.cancelAt == Some(s.batch) then s.(verdict := ContextDone) else s.(entered := true));
    } else if i: nat :| Here(j, s, i) && s.phase[i].Running? {
      assert Step(j, s, Land(i), EndWith(j, s, i));
    } else if i: nat :| Here(j, s, i) && s.phase[i].Waiting? {
      assert RunningSet(s) == {} by {
        assert forall i :: 0 <= i < |s.phase| && s.phase[i].Running? ==> Here(j, s, i);
      }
      if j.outs[i].Cancelled? {
        assert Step(j, s, GiveUp(i), EndWith(j, s, i));
      } else {
        assert Step(j, s, Launch(i), s.(phase := s.phase[i := Running]));
      }
    } else {
      var b := j.batches[s.batch];
      assert Step(j, s, Leave, match FirstFatal(j.outs, b.lo, b.hi)
                               case Some(reason) => s.(verdict := FatalTool(reason))
                               case None => s.(batch := s.batch + 1, entered := false));
    }
  }

  /** Moves a call still has before it. */
  function Weight(x: Phase): nat {
    match x
    case Waiting => 2
    case Running => 1
    case Ended => 0
  }

  function CallsLeft(phase: seq<Phase>): nat {
    if phase == [] then 0 else CallsLeft(phase[..|phase| - 1]) + Weight(phase[|phase| - 1])
  }

  lemma {:induction false} CallsLeftUpdate(phase: seq<Phase>, i: nat, x: Phase)
    requires i < |phase|
    ensures CallsLeft(phase[i := x]) + Weight(phase[i]) == CallsLeft(phase) + Weight(x)
  {
    var n := |phase| - 1;
    if i < n {
      CallsLeftUpdate(phase[..n], i, x);
      assert phase[i := x][..n] == phase[..n][i := x];
    } else {
      assert phase[i := x][..n] == phase[..n];
    }
  }

  lemma {:induction false} CallsLeftAtStart(phase: seq<Phase>)
    requires forall i :: 0 <= i < |phase| ==> phase[i].Waiting?
    ensures CallsLeft(phase) == 2 * |phase|
  {
    if phase != [] {
      CallsLeftAtStart(phase[..|phase| - 1]);
    }
  }

  /** Moves left at most: those of the calls, entering and leaving each batch, returning. */
  function MovesLeft(j: Job, s: Sched): int {
    CallsLeft(s.phase) + 2 * (|j.batches| - s.batch) - (if s.entered then 1 else 0) +
      (if s.verdict.Active? then 1 else 0)
  }

  lemma MoveUsesUp(j: Job, s: Sched, m: Move, s': Sched)
    requires Bounded(j) && Step(j, s, m, s')
    ensures MovesLeft(j, s') < MovesLeft(j, s)
  {
    if m.Launch? {
      CallsLeftUpdate(s.phase, m.i, Running);
    } else if m.GiveUp? || m.Land? {
      CallsLeftUpdate(s.phase, m.i, Ended);
    }
  }

  /** Every interleaving ends: it has no more moves than two for each call, two for each
      batch and one to return. */
  lemma {:induction false} ScheduleEnds(j: Job, safe: seq<bool>, run: seq<Sched>, moves: seq<Move>)
    requires |safe| == |j.outs| && IsBatching(safe, j.batches) && Bounded(j) && IsRun(j, run, moves)
    ensures |moves| <= 2 * |j.outs| + 2 * |j.batches| + 1
  {
    MovesSoFar(j, safe, run, moves, |moves|);
    RunKeepsInv(j, safe, run, moves, |moves|);
  }

  lemma {:induction false} MovesSoFar(j: Job, safe: seq<bool>, run: seq<Sched>, moves: seq<Move>, k: nat)
    requires |safe| == |j.outs| && IsBatching(safe, j.batches) && Bounded(j) && IsRun(j, run, moves) && k < |run|
    ensures k + MovesLeft(j, run[k]) <= 2 * |j.outs| + 2 * |j.batches| + 1
  {
    if k == 0 {
      CallsLeftAtStart(run[0].phase);
    } else {
      MovesSoFar(j, safe, run, moves, k - 1);
      assert StepAt(j, run, moves, k - 1);
      MoveUsesUp(j, run[k - 1], moves[k - 1], run[k]);
    }
  }
}
