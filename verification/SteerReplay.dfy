/** The durable side of steering (appserver/runtime_steer.go): what one turn stores while
    messages are enqueued, prepared, consumed and rejected, and how it is replayed. */
module SteerReplay {
  import opened Transcript
  import opened StableSort
  import opened StoredItems

  /* ----- recording the boundary ----- */

  /** prepare: the largest sequence number among the turn's items. */
  method ConsumptionBoundary(items: seq<Item>) returns (boundary: nat)
    ensures forall x :: x in items ==> x.seqno <= boundary
    ensures boundary == 0 || exists x :: x in items && x.seqno == boundary
    ensures Stored(items) ==> boundary == Last(items)
  {
    boundary := 0;
    for i := 0 to |items|
      invariant forall x :: x in items[..i] ==> x.seqno <= boundary
      invariant boundary == 0 || exists x :: x in items[..i] && x.seqno == boundary
    {
      assert items[..i + 1] == items[..i] + [items[i]];
      if items[i].seqno > boundary {
        boundary := items[i].seqno;
      }
    }
    assert items[..|items|] == items;
    if Stored(items) && items != [] {
      LastIsLargest(items);
    }
  }

  lemma LastIsLargest(items: seq<Item>)
    requires Stored(items) && items != []
    ensures items[|items| - 1] in items && Last(items) > 0
    ensures forall x :: x in items ==> x.seqno <= Last(items)
  {
  }

  function Last(items: seq<Item>): nat {
    if items == [] then 0 else items[|items| - 1].seqno
  }

  /** One turn: its stored items, the enqueue in progress, the queue, the batch the stream
      has taken, the boundary prepared for it, and messages being rejected at the end. */
  datatype Turn = Turn(
    items: seq<Item>, entering: Option<nat>, queue: seq<nat>, batch: seq<nat>, prepared: Option<nat>, doomed: seq<nat>)

  const FRESH := Turn([], None, [], [], None, [])

  datatype Step =
    | AppendOther(gap: nat, x: Item) // some writer stores a non-steer item
    | AppendSteer(gap: nat, x: Item) // enqueue stores the item; it holds the steer mutex
    | Push(ok: bool, saved: bool) // ... and offers it to the queue; if refused, the item fails
    | Take                       // the stream takes the whole queue
    | Prepare(ok: bool)          // OnPrepared
    | Consume(ok: bool)          // OnConsumed for the next message of the batch
    | Reject(saved: bool)        // OnRejected for the next message of the batch
    | Doom | RejectDoomed(saved: bool) // the queue is closed, and what waited is rejected

  function Mark(items: seq<Item>, seqno: nat, status: Status, boundary: nat): (r: seq<Item>)
    ensures |r| == |items|
    ensures forall i :: 0 <= i < |items| ==>
      r[i] == if items[i].seqno == seqno then items[i].(status := status, boundary := boundary) else items[i]
  {
    seq(|items|, i requires 0 <= i < |items| =>
      if items[i].seqno == seqno then items[i].(status := status, boundary := boundary) else items[i])
  }

  /** `saved` tells whether the store accepted the update of a failed item. */
  function Fail(t: Turn, seqno: nat, saved: bool): Turn {
    if saved then t.(items := Mark(t.items, seqno, Failed, 0)) else t
  }

  function Next(t: Turn, step: Step): Option<Turn> {
    match step
    case AppendOther(gap, x) =>
      if x.kind.Steered? then None else Some(t.(items := t.items + [x.(seqno := Last(t.items) + 1 + gap)]))
    case AppendSteer(gap, x) =>
      if t.entering.Some? || !x.kind.Steered? then None
      else
        var seqno := Last(t.items) + 1 + gap;
        Some(t.(items := t.items + [x.(seqno := seqno, status := Queued, boundary := 0)], entering := Some(seqno)))
    case Push(ok, saved) =>
      if t.entering.None? then None
      else if ok then Some(t.(queue := t.queue + [t.entering.value], entering := None))
      else Some(Fail(t, t.entering.value, saved).(entering := None))
    case Take => if t.batch != [] then None else Some(t.(batch := t.queue, queue := [], prepared := None))
    case Prepare(ok) =>
      if t.entering.Some? || t.batch == [] || t.prepared.Some? then None
      else if ok then Some(t.(prepared := Some(Last(t.items)))) else Some(t)
    case Consume(ok) =>
      if t.entering.Some? || t.batch == [] || t.prepared.None? then None
      else if ok then Some(t.(items := Mark(t.items, t.batch[0], Completed, t.prepared.value), batch := t.batch[1..]))
      else Some(t)
    case Reject(saved) =>
      if t.entering.Some? || t.batch == [] then None else Some(Fail(t, t.batch[0], saved).(batch := t.batch[1..]))
    case Doom => if t.batch != [] || t.doomed != [] then None else Some(t.(doomed := t.queue, queue := []))
    case RejectDoomed(saved) =>
      if t.entering.Some? || t.doomed == [] then None else Some(Fail(t, t.doomed[0], saved).(doomed := t.doomed[1..]))
  }

  predicate Consumed(x: Item) {
    x.kind.Steered? && x.status.Completed?
  }

  ghost predicate Rising(xs: seq<nat>) {
    forall i, j :: 0 <= i < j < |xs| ==> xs[i] < xs[j]
  }

  /** Messages on their way, oldest first. */
  function Flight(t: Turn): seq<nat> {
    t.batch + t.queue + if t.entering.Some? then [t.entering.value] else []
  }

  ghost predicate Stored(items: seq<Item>) {
    && (forall i :: 0 <= i < |items| ==> items[i].seqno > 0)
    && (forall i, j :: 0 <= i < j < |items| ==> items[i].seqno < items[j].seqno)
  }

  ghost predicate FlightInv(t: Turn) {
    Rising(Flight(t)) && forall n :: n in Flight(t) ==> n <= Last(t.items)
  }

  /** A consumed item's boundary lies between its own number and the last one. */
  ghost predicate BoundInv(items: seq<Item>) {
    forall i :: 0 <= i < |items| && Consumed(items[i]) ==> items[i].seqno <= items[i].boundary <= Last(items)
  }

  /** Boundaries grow with the numbers of the consumed items. */
  ghost predicate GrowInv(items: seq<Item>) {
    forall i, j :: 0 <= i < j < |items| && Consumed(items[i]) && Consumed(items[j]) ==>
      items[i].boundary <= items[j].boundary
  }

  /** Consumed items are older than everything in flight. */
  ghost predicate AgeInv(t: Turn) {
    forall i, n :: 0 <= i < |t.items| && Consumed(t.items[i]) && n in Flight(t) ==> t.items[i].seqno < n
  }

  /** A prepared boundary covers its batch and every boundary recorded before. */
  ghost predicate PreparedInv(t: Turn) {
    t.prepared.Some? && t.batch != [] ==>
      && t.prepared.value <= Last(t.items)
      && (forall n :: n in t.batch ==> n <= t.prepared.value)
      && (forall i :: 0 <= i < |t.items| && Consumed(t.items[i]) ==> t.items[i].boundary <= t.prepared.value)
  }

  ghost predicate Inv(t: Turn) {
    Stored(t.items) && FlightInv(t) && BoundInv(t.items) && GrowInv(t.items) && AgeInv(t) && PreparedInv(t)
  }

  /** What is still consumed after an item has failed is as it was. */
  lemma MarkFailedKeepsItems(items: seq<Item>, seqno: nat)
    requires Stored(items) && BoundInv(items) && GrowInv(items)
    ensures var r := Mark(items, seqno, Failed, 0);
      && Stored(r) && BoundInv(r) && GrowInv(r) && Last(r) == Last(items)
      && forall i :: 0 <= i < |r| && Consumed(r[i]) ==> r[i] == items[i]
  {
  }

  lemma MarkFailedKeepsInv(t: Turn, seqno: nat, saved: bool)
    requires Inv(t)
    ensures Inv(Fail(t, seqno, saved))
  {
    if saved {
      MarkFailedKeepsItems(t.items, seqno);
      assert Flight(Fail(t, seqno, saved)) == Flight(t);
    }
  }

  /** Forgetting messages in flight cannot hurt. */
  lemma ThinnerFlight(t: Turn, t': Turn)
    requires Inv(t) && t'.items == t.items && Rising(Flight(t'))
    requires forall n :: n in Flight(t') ==> n in Flight(t)
    requires t'.batch == [] || t'.prepared.None? ||
      (t'.prepared == t.prepared && forall n :: n in t'.batch ==> n in t.batch)
    ensures Inv(t')
  {
    if t'.batch != [] && t'.prepared.Some? {
      assert t'.batch[0] in t.batch;
    }
  }

  lemma AppendKeepsItems(items: seq<Item>, x: Item)
    requires Stored(items) && BoundInv(items) && GrowInv(items) && x.seqno > Last(items) && !Consumed(x)
    ensures Stored(items + [x]) && BoundInv(items + [x]) && GrowInv(items + [x]) && Last(items + [x]) == x.seqno
  {
    var r := items + [x];
    assert Last(r) == x.seqno;
    forall i, j | 0 <= i < j < |r| ensures r[i].seqno < r[j].seqno {
      if j == |items| {
        assert items[i].seqno <= Last(items);
      }
    }
  }

  lemma AppendKeepsInv(t: Turn, x: Item, t': Turn)
    requires Inv(t) && x.seqno > Last(t.items) && !Consumed(x)
    requires t' == t.(items := t.items + [x]) ||
      (t.entering.None? && t' == t.(items := t.items + [x], entering := Some(x.seqno)))
    ensures Inv(t')
  {
    AppendKeepsItems(t.items, x);
    assert Flight(t') == Flight(t) || Flight(t') == Flight(t) + [x.seqno];
    assert forall i :: 0 <= i < |Flight(t)| ==> Flight(t)[i] in Flight(t);
    assert FlightInv(t');
    forall i, n | 0 <= i < |t'.items| && Consumed(t'.items[i]) && n in Flight(t') ensures t'.items[i].seqno < n {
      assert t'.items[i] == t.items[i] && t.items[i].seqno <= Last(t.items);
    }
  }

  lemma FirstInFlight(t: Turn)
    requires t.batch != [] && Rising(Flight(t))
    ensures var t' := t.(batch := t.batch[1..]);
      && Rising(Flight(t')) && t.batch[0] in t.batch && t.batch[0] in Flight(t)
      && (forall n :: n in Flight(t') ==> n in Flight(t) && t.batch[0] < n)
      && (forall n :: n in t'.batch ==> n in t.batch)
  {
    var t' := t.(batch := t.batch[1..]);
    assert Flight(t) == [t.batch[0]] + Flight(t');
    forall n | n in Flight(t') ensures n in Flight(t) && t.batch[0] < n {
      var k :| 0 <= k < |Flight(t')| && Flight(t')[k] == n;
      assert Flight(t)[0] < Flight(t)[k + 1];
    }
    assert forall k :: 0 <= k < |Flight(t')| ==> Flight(t')[k] == Flight(t)[k + 1];
  }

  lemma ConsumeKeepsItems(t: Turn)
    requires Inv(t) && t.batch != [] && t.prepared.Some?
    ensures var r := Mark(t.items, t.batch[0], Completed, t.prepared.value);
      Stored(r) && BoundInv(r) && GrowInv(r) && Last(r) == Last(t.items)
  {
    var m := t.batch[0];
    assert m in t.batch && m in Flight(t);
    var r := Mark(t.items, m, Completed, t.prepared.value);
    assert Last(r) == Last(t.items);
    forall i, j | 0 <= i < j < |r| && Consumed(r[i]) && Consumed(r[j]) ensures r[i].boundary <= r[j].boundary {
      if t.items[j].seqno != m && t.items[i].seqno == m {
        assert false;
      }
    }
  }

  lemma ConsumeKeepsInv(t: Turn)
    requires Inv(t) && t.batch != [] && t.prepared.Some?
    ensures Inv(t.(items := Mark(t.items, t.batch[0], Completed, t.prepared.value), batch := t.batch[1..]))
  {
    var t' := t.(items := Mark(t.items, t.batch[0], Completed, t.prepared.value), batch := t.batch[1..]);
    ConsumeKeepsItems(t);
    FirstInFlight(t);
    assert Flight(t') == Flight(t.(batch := t.batch[1..]));
    assert FlightInv(t') && AgeInv(t');
  }

  lemma DropFirst(t: Turn)
    requires Inv(t) && t.batch != []
    ensures Inv(t.(batch := t.batch[1..]))
  {
    FirstInFlight(t);
    ThinnerFlight(t, t.(batch := t.batch[1..]));
  }

  lemma PrepareKeepsInv(t: Turn)
    requires Inv(t)
    ensures Inv(t.(prepared := Some(Last(t.items))))
  {
    var t' := t.(prepared := Some(Last(t.items)));
    assert forall n :: n in t.batch ==> n in Flight(t);
    assert Flight(t') == Flight(t);
  }

  lemma RefusedKeepsInv(t: Turn)
    requires Inv(t) && t.entering.Some?
    ensures Inv(t.(entering := None))
  {
    var t' := t.(entering := None);
    assert Flight(t) == Flight(t') + [t.entering.value];
    assert forall k :: 0 <= k < |Flight(t')| ==> Flight(t')[k] == Flight(t)[k];
    ThinnerFlight(t, t');
  }

  lemma DoomKeepsInv(t: Turn)
    requires Inv(t) && t.batch == []
    ensures Inv(t.(doomed := t.queue, queue := []))
  {
    var t' := t.(doomed := t.queue, queue := []);
    assert forall k :: 0 <= k < |Flight(t')| ==> Flight(t')[k] == Flight(t)[k + |t.queue|];
    ThinnerFlight(t, t');
  }

  lemma SameFlight(t: Turn, t': Turn)
    requires Inv(t) && t'.items == t.items && Flight(t') == Flight(t)
    requires t'.prepared.None? || (t'.prepared == t.prepared && t'.batch == t.batch)
    ensures Inv(t')
  {
    ThinnerFlight(t, t');
  }

  lemma PushKeepsInv(t: Turn, ok: bool, saved: bool, t': Turn)
    requires Inv(t) && Next(t, Push(ok, saved)) == Some(t')
    ensures Inv(t')
  {
    if ok {
      SameFlight(t, t');
    } else {
      MarkFailedKeepsInv(t, t.entering.value, saved);
      RefusedKeepsInv(Fail(t, t.entering.value, saved));
    }
  }

  lemma RejectKeepsInv(t: Turn, saved: bool, t': Turn)
    requires Inv(t) && Next(t, Reject(saved)) == Some(t')
    ensures Inv(t')
  {
    MarkFailedKeepsInv(t, t.batch[0], saved);
    DropFirst(Fail(t, t.batch[0], saved));
  }

  lemma RejectDoomedKeepsInv(t: Turn, saved: bool, t': Turn)
    requires Inv(t) && Next(t, RejectDoomed(saved)) == Some(t')
    ensures Inv(t')
  {
    MarkFailedKeepsInv(t, t.doomed[0], saved);
    SameFlight(Fail(t, t.doomed[0], saved), t');
  }

  lemma StepKeepsInv(t: Turn, step: Step, t': Turn)
    requires Inv(t) && Next(t, step) == Some(t')
    ensures Inv(t')
  {
    match step
    case AppendOther(gap, x) => AppendKeepsInv(t, x.(seqno := Last(t.items) + 1 + gap), t');
    case AppendSteer(gap, x) =>
      AppendKeepsInv(t, x.(seqno := Last(t.items) + 1 + gap, status := Queued, boundary := 0), t');
    case Push(ok, saved) => PushKeepsInv(t, ok, saved, t');
    case Take => SameFlight(t, t');
    case Prepare(ok) => PrepareKeepsInv(t);
    case Consume(ok) => ConsumeKeepsInv(t);
    case Reject(saved) => RejectKeepsInv(t, saved, t');
    case Doom => DoomKeepsInv(t);
    case RejectDoomed(saved) => RejectDoomedKeepsInv(t, saved, t');
  }

  ghost predicate IsRun(run: seq<Turn>, steps: seq<Step>) {
    |run| == |steps| + 1 && run[0] == FRESH &&
      forall k :: 0 <= k < |steps| ==> Next(run[k], steps[k]) == Some(run[k + 1])
  }

  lemma {:induction false} RunKeepsInv(run: seq<Turn>, steps: seq<Step>, k: nat)
    requires IsRun(run, steps) && k < |run|
    ensures Inv(run[k])
  {
    if k > 0 {
      RunKeepsInv(run, steps, k - 1);
      StepKeepsInv(run[k - 1], steps[k - 1], run[k]);
    }
  }

  /** Some of the turn's items, in the order of their numbers. */
  ghost predicate Window(items: seq<Item>, w: seq<Option<Item>>) {
    && (forall i :: 0 <= i < |w| ==> w[i].Some? && w[i].value in items)
    && (forall i, j :: 0 <= i < j < |w| ==> w[i].value.seqno < w[j].value.seqno)
  }

  /** In every reachable state a consumed steer records a boundary not below its own
      number, so that replaying any window of the turn shows it after every non-steer item
      up to the boundary and before every item beyond it, and shows two consumed steers in
      the order in which they were accepted. */
  lemma ReplayFollowsConsumption(run: seq<Turn>, steps: seq<Step>, k: nat, w: seq<Option<Item>>, i: nat, j: nat)
    requires IsRun(run, steps) && k < |run| && Window(run[k].items, w)
    requires i < |w| && j < |w| && i != j && Consumed(w[i].value)
    ensures w[i].value.seqno <= w[i].value.boundary && Seen(w[i].value)
    ensures !w[j].value.kind.Steered? && w[j].value.seqno <= w[i].value.boundary ==> Before(ReplayOrder(w), w[j], w[i])
    ensures w[j].value.seqno > w[i].value.boundary ==> Before(ReplayOrder(w), w[i], w[j])
    ensures Consumed(w[j].value) && i < j ==> Before(ReplayOrder(w), w[i], w[j])
  {
    RunKeepsInv(run, steps, k);
    var items := run[k].items;
    var x, y := w[i].value, w[j].value;
    assert x in items && y in items;
    var a :| 0 <= a < |items| && items[a] == x;
    var b :| 0 <= b < |items| && items[b] == y;
    RanksFollow(items, a, b);
    if !y.kind.Steered? && y.seqno <= x.boundary {
      ReplayOrderPlaces(w, j, i);
    }
    if y.seqno > x.boundary {
      ReplayOrderPlaces(w, i, j);
    }
    if Consumed(y) && i < j {
      assert w[i].value.seqno < w[j].value.seqno;
      ReplayOrderPlaces(w, i, j);
    }
  }

  lemma RanksFollow(items: seq<Item>, a: nat, b: nat)
    requires Stored(items) && BoundInv(items) && GrowInv(items) && a < |items| && b < |items| && Consumed(items[a])
    ensures Seen(items[a])
    ensures !items[b].kind.Steered? && items[b].seqno <= items[a].boundary ==> Less(Some(items[b]), Some(items[a]))
    ensures items[b].seqno > items[a].boundary ==> Less(Some(items[a]), Some(items[b]))
    ensures Consumed(items[b]) && items[a].seqno < items[b].seqno ==> !Less(Some(items[b]), Some(items[a]))
  {
    assert items[a].seqno > 0;
    if items[a].seqno < items[b].seqno {
      assert a < b;
    }
  }
}
