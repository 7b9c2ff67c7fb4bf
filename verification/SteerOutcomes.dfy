/** What becomes of stored steers over the rest of their turn, and what a recorded boundary
    means: it divides what was stored before the batch was prepared from what came later. */
module SteerOutcomes {
  import opened Transcript
  import opened StoredItems
  import opened SteerReplay

  /** Everything that may still be marked, oldest first. */
  function Pending(t: Turn): seq<nat> {
    t.doomed + Flight(t)
  }

  ghost predicate Names(items: seq<Item>, n: nat) {
    exists i :: 0 <= i < |items| && items[i].seqno == n && items[i].kind.Steered?
  }

  ghost predicate PendingInv(t: Turn) {
    && Stored(t.items) && Rising(Pending(t))
    && forall n :: n in Pending(t) ==> Names(t.items, n)
  }

  lemma NamedIsStored(items: seq<Item>, n: nat)
    requires Stored(items) && Names(items, n)
    ensures n <= Last(items)
  {
    var i :| 0 <= i < |items| && items[i].seqno == n && items[i].kind.Steered?;
    assert i < |items| - 1 ==> items[i].seqno < items[|items| - 1].seqno;
  }

  /** Items keep their place, number and kind. */
  ghost predicate Kept(items: seq<Item>, items': seq<Item>) {
    && |items| <= |items'|
    && forall i :: 0 <= i < |items| ==> items'[i].seqno == items[i].seqno && items'[i].kind == items[i].kind
  }

  lemma KeptNames(items: seq<Item>, items': seq<Item>, n: nat)
    requires Kept(items, items') && Names(items, n)
    ensures Names(items', n)
  {
    var i :| 0 <= i < |items| && items[i].seqno == n && items[i].kind.Steered?;
    assert items'[i].seqno == n;
  }

  lemma StepKeepsItems(t: Turn, step: Step, t': Turn)
    requires Next(t, step) == Some(t')
    ensures Kept(t.items, t'.items)
  {
  }

  /** What is pending after a step was pending before, unless it was stored by it. */
  lemma StepThins(t: Turn, step: Step, t': Turn, n: nat)
    requires Next(t, step) == Some(t') && n in Pending(t')
    ensures n in Pending(t) || (step.AppendSteer? && n == Last(t'.items) > Last(t.items) && Names(t'.items, n))
  {
    if step.AppendSteer? && n == Last(t'.items) {
      assert t'.items[|t.items|].seqno == n;
    }
  }

  /** The number that a step takes out, if any. */
  function Out(t: Turn, step: Step): Option<nat> {
    match step
    case Push(ok, _) => if ok then None else t.entering
    case Consume(ok) => if ok && t.batch != [] then Some(t.batch[0]) else None
    case Reject(_) => if t.batch != [] then Some(t.batch[0]) else None
    case RejectDoomed(_) => if t.doomed != [] then Some(t.doomed[0]) else None
    case _ => None
  }

  lemma BatchHead(doomed: seq<nat>, batch: seq<nat>, rest: seq<nat>)
    requires batch != []
    ensures var xs := doomed + (batch + rest);
      xs[|doomed|] == batch[0] && doomed + (batch[1..] + rest) == xs[..|doomed|] + xs[|doomed| + 1..]
  {
  }

  lemma BatchStepTakesOut(t: Turn, step: Step, t': Turn)
    requires Next(t, step) == Some(t') && Out(t, step).Some? && (step.Consume? || step.Reject?)
    ensures var i := |t.doomed|;
      i < |Pending(t)| && Pending(t)[i] == t.batch[0] && Pending(t') == Pending(t)[..i] + Pending(t)[i + 1..]
  {
    BatchHead(t.doomed, t.batch, t.queue);
    assert Flight(t) == t.batch + t.queue && Flight(t') == t.batch[1..] + t.queue;
  }

  /** That number is taken out of the pending ones, and no other. */
  lemma StepTakesOut(t: Turn, step: Step, t': Turn) returns (i: nat)
    requires Next(t, step) == Some(t') && Out(t, step).Some?
    ensures i < |Pending(t)| && Pending(t)[i] == Out(t, step).value
    ensures Pending(t') == Pending(t)[..i] + Pending(t)[i + 1..]
  {
    if step.Consume? || step.Reject? {
      i := |t.doomed|;
      BatchStepTakesOut(t, step, t');
    } else if step.Push? {
      i := |Pending(t)| - 1;
      assert Pending(t) == Pending(t') + [t.entering.value];
    } else {
      i := 0;
      assert Flight(t') == Flight(t);
    }
  }

  lemma StepTakesNothing(t: Turn, step: Step, t': Turn)
    requires Next(t, step) == Some(t') && Out(t, step).None?
    ensures Pending(t') == Pending(t) + if step.AppendSteer? then [Last(t'.items)] else []
  {
    assert Flight(t') == Flight(t) + [] || step.AppendSteer? || step.Doom?;
  }

  lemma OneLess(xs: seq<nat>, ys: seq<nat>, i: nat)
    requires Rising(xs) && i < |xs| && ys == xs[..i] + xs[i + 1..]
    ensures Rising(ys) && xs[i] !in ys
  {
    assert forall j :: 0 <= j < |ys| ==> ys[j] == xs[if j < i then j else j + 1];
  }

  lemma StepKeepsRising(t: Turn, step: Step, t': Turn)
    requires PendingInv(t) && Next(t, step) == Some(t')
    ensures Rising(Pending(t'))
  {
    if Out(t, step).Some? {
      var i := StepTakesOut(t, step, t');
      OneLess(Pending(t), Pending(t'), i);
    } else {
      StepTakesNothing(t, step, t');
      if step.AppendSteer? {
        var xs := Pending(t);
        forall i | 0 <= i < |xs| ensures xs[i] < Last(t'.items) {
          assert xs[i] in Pending(t);
          NamedIsStored(t.items, xs[i]);
        }
      }
    }
  }

  lemma StepKeepsPending(t: Turn, step: Step, t': Turn)
    requires PendingInv(t) && Next(t, step) == Some(t') && Stored(t'.items)
    ensures PendingInv(t')
  {
    StepKeepsRising(t, step, t');
    StepKeepsItems(t, step, t');
    forall n | n in Pending(t') ensures Names(t'.items, n) {
      StepThins(t, step, t', n);
      if n in Pending(t) {
        KeptNames(t.items, t'.items, n);
      }
    }
  }

  lemma {:induction false} RunKeepsPending(run: seq<Turn>, steps: seq<Step>, k: nat)
    requires IsRun(run, steps) && k < |run|
    ensures PendingInv(run[k])
  {
    RunKeepsInv(run, steps, k);
    if k > 0 {
      RunKeepsPending(run, steps, k - 1);
      StepKeepsPending(run[k - 1], steps[k - 1], run[k]);
    } else {
      assert Pending(run[0]) == [];
    }
  }

  /* ----- outcomes ----- */

  /** Number n is stored and no longer pending. */
  ghost predicate Gone(t: Turn, n: nat) {
    n <= Last(t.items) && n !in Pending(t)
  }

  /** What is no longer pending is never marked again. */
  lemma GoneStep(t: Turn, step: Step, t': Turn, i: nat)
    requires Next(t, step) == Some(t') && i < |t.items| && Gone(t, t.items[i].seqno) && Stored(t'.items)
    ensures i < |t'.items| && t'.items[i] == t.items[i] && Gone(t', t.items[i].seqno)
  {
    var n := t.items[i].seqno;
    StepKeepsItems(t, step, t');
    assert t.items[|t.items| - 1].seqno <= Last(t'.items);
    if n in Pending(t') {
      StepThins(t, step, t', n);
    }
    assert t.batch != [] ==> t.batch[0] in Pending(t);
    assert t.doomed != [] ==> t.doomed[0] in Pending(t);
    assert t.entering.Some? ==> t.entering.value in Pending(t);
  }

  lemma {:induction false} GoneStays(run: seq<Turn>, steps: seq<Step>, j: nat, k: nat, i: nat)
    requires IsRun(run, steps) && j <= k < |run| && i < |run[j].items| && Gone(run[j], run[j].items[i].seqno)
    ensures i < |run[k].items| && run[k].items[i] == run[j].items[i] && Gone(run[k], run[j].items[i].seqno)
    decreases k
  {
    if j < k {
      GoneStays(run, steps, j, k - 1, i);
      RunKeepsPending(run, steps, k);
      GoneStep(run[k - 1], steps[k - 1], run[k], i);
    }
  }

  /** The number that a step marks, with the status and boundary it gets. */
  function Marks(t: Turn, step: Step): Option<(nat, Status, nat)> {
    match step
    case Consume(ok) =>
      if ok && t.batch != [] && t.prepared.Some? then Some((t.batch[0], Completed, t.prepared.value)) else None
    case Reject(saved) => if saved && t.batch != [] then Some((t.batch[0], Failed, 0)) else None
    case RejectDoomed(saved) => if saved && t.doomed != [] then Some((t.doomed[0], Failed, 0)) else None
    case Push(ok, saved) => if !ok && saved && t.entering.Some? then Some((t.entering.value, Failed, 0)) else None
    case _ => None
  }

  lemma MarkedIsGone(t: Turn, step: Step, t': Turn)
    requires PendingInv(t) && Next(t, step) == Some(t') && Marks(t, step).Some? && PendingInv(t')
    ensures Marks(t, step).value.0 in Pending(t) && Gone(t', Marks(t, step).value.0)
  {
    var i := StepTakesOut(t, step, t');
    OneLess(Pending(t), Pending(t'), i);
    KeptNamesAll(t, step, t', Pending(t)[i]);
    NamedIsStored(t'.items, Pending(t)[i]);
  }

  lemma KeptNamesAll(t: Turn, step: Step, t': Turn, n: nat)
    requires PendingInv(t) && Next(t, step) == Some(t') && n in Pending(t)
    ensures Names(t'.items, n)
  {
    StepKeepsItems(t, step, t');
    KeptNames(t.items, t'.items, n);
  }

  lemma MarkedItem(t: Turn, step: Step, t': Turn) returns (i: nat)
    requires PendingInv(t) && Next(t, step) == Some(t') && Marks(t, step).Some?
    requires Marks(t, step).value.0 in Pending(t)
    ensures var (n, status, boundary) := Marks(t, step).value;
      && i < |t.items| && t.items[i].seqno == n && i < |t'.items| && t'.items[i].seqno == n
      && t'.items[i].kind.Steered? && t'.items[i].status == status && t'.items[i].boundary == boundary
  {
    var n := Marks(t, step).value.0;
    i :| 0 <= i < |t.items| && t.items[i].seqno == n && t.items[i].kind.Steered?;
  }

  /** An outcome is final: the steer that a step marks as consumed or failed is so marked,
      and stays so to the end of the turn. */
  lemma OutcomeIsFinal(run: seq<Turn>, steps: seq<Step>, j: nat, k: nat) returns (i: nat)
    requires IsRun(run, steps) && j < k < |run| && Marks(run[j], steps[j]).Some?
    ensures var (n, status, boundary) := Marks(run[j], steps[j]).value;
      && i < |run[k].items| && run[k].items[i].seqno == n
      && run[k].items[i].kind.Steered? && run[k].items[i].status == status && run[k].items[i].boundary == boundary
  {
    RunKeepsPending(run, steps, j);
    RunKeepsPending(run, steps, j + 1);
    assert Next(run[j], steps[j]) == Some(run[j + 1]);
    MarkedIsGone(run[j], steps[j], run[j + 1]);
    i := MarkedItem(run[j], steps[j], run[j + 1]);
    GoneStays(run, steps, j + 1, k, i);
  }

  /* ----- boundaries ----- */

  /** A prepared boundary is the last number that was stored when the batch was prepared. */
  lemma {:induction false} PreparedWhen(run: seq<Turn>, steps: seq<Step>, k: nat) returns (j: nat)
    requires IsRun(run, steps) && k < |run| && run[k].prepared.Some? && run[k].batch != []
    ensures j < k && steps[j] == Prepare(true) && run[k].prepared == Some(Last(run[j].items))
    ensures forall n :: n in run[k].batch ==> n in run[j].batch
  {
    assert Next(run[k - 1], steps[k - 1]) == Some(run[k]);
    if steps[k - 1] == Prepare(true) {
      j := k - 1;
    } else {
      j := PreparedWhen(run, steps, k - 1);
    }
  }

  lemma ConsumedBefore(t: Turn, step: Step, t': Turn, i: nat)
    requires Next(t, step) == Some(t') && i < |t'.items| && Consumed(t'.items[i])
    ensures (i < |t.items| && t'.items[i] == t.items[i]) ||
      (step == Consume(true) && t.batch != [] && t'.items[i].seqno == t.batch[0] &&
        t.prepared == Some(t'.items[i].boundary))
  {
  }

  lemma {:induction false} ConsumedWhen(run: seq<Turn>, steps: seq<Step>, k: nat, i: nat) returns (j: nat)
    requires IsRun(run, steps) && k < |run| && i < |run[k].items| && Consumed(run[k].items[i])
    ensures j < k && steps[j] == Prepare(true) && run[k].items[i].seqno in run[j].batch
    ensures run[k].items[i].boundary == Last(run[j].items)
  {
    assert Next(run[k - 1], steps[k - 1]) == Some(run[k]);
    ConsumedBefore(run[k - 1], steps[k - 1], run[k], i);
    if i < |run[k - 1].items| && run[k].items[i] == run[k - 1].items[i] {
      j := ConsumedWhen(run, steps, k - 1, i);
    } else {
      j := PreparedWhen(run, steps, k - 1);
    }
  }

  lemma {:induction false} RunKeepsItems(run: seq<Turn>, steps: seq<Step>, j: nat, k: nat)
    requires IsRun(run, steps) && j <= k < |run|
    ensures Kept(run[j].items, run[k].items)
    decreases k
  {
    if j < k {
      RunKeepsItems(run, steps, j, k - 1);
      StepKeepsItems(run[k - 1], steps[k - 1], run[k]);
    }
  }

  /** The boundary of a consumed steer divides time: what was stored when its batch was
      prepared, and so was in the history the model saw, is up to it, and everything stored
      later is beyond it. */
  lemma BoundaryDividesTime(run: seq<Turn>, steps: seq<Step>, k: nat, i: nat, y: nat) returns (j: nat)
    requires IsRun(run, steps) && k < |run| && i < |run[k].items| && Consumed(run[k].items[i]) && y < |run[k].items|
    ensures j < k && steps[j] == Prepare(true) && run[k].items[i].seqno in run[j].batch
    ensures run[k].items[y].seqno <= run[k].items[i].boundary <==> y < |run[j].items|
  {
    j := ConsumedWhen(run, steps, k, i);
    RunKeepsItems(run, steps, j, k);
    RunKeepsInv(run, steps, j);
    RunKeepsInv(run, steps, k);
    StoredUpTo(run[j].items, run[k].items, y);
  }

  lemma StoredUpTo(items: seq<Item>, items': seq<Item>, y: nat)
    requires Stored(items) && Stored(items') && Kept(items, items') && y < |items'|
    ensures items'[y].seqno <= Last(items) <==> y < |items|
  {
    if items != [] {
      assert items'[|items| - 1].seqno == Last(items);
    }
  }
}
