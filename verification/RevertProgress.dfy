/** What becomes of the requests of RevertCoordination: nobody waits for ever, and a
    service that has been shut down stays so. */
module RevertProgress {
  import opened Transcript
  import opened RevertCoordination

  /* ----- shutting down ----- */

  /** Somewhere in Start, between creating a turn and launching it. */
  predicate Starting(p: Process, s: nat) {
    var f := Top(p);
    f.routine.RuntimeStart? && f.service == s && (f.at.Created? || f.at.Started?)
  }

  ghost predicate NoneStarting(w: World) {
    forall p, s :: 0 <= p < |w.procs| && s in w.g.shutting ==> !Starting(w.procs[p], s)
  }

  /** Who is starting a turn holds the service's start mutex. */
  lemma StartingHolds(g: Shared, p: nat, proc: Process, s: nat)
    requires Fine(g, p, proc) && Starting(proc, s)
    ensures s in g.starts && g.starts[s] == p
  {
    assert StartHeld(proc.base) == Some(s);
  }

  lemma StartingBegins(w: World, p: nat, step: Step, w': World, s: nat)
    requires Next(w, Moves(p, step)) == Some(w') && Starting(w'.procs[p], s)
    ensures w'.g.shutting == w.g.shutting && (Starting(w.procs[p], s) || s !in w.g.shutting)
  {
  }

  lemma ShuttingBegins(w: World, e: Event, w': World, s: nat)
    requires Next(w, e) == Some(w') && s in w'.g.shutting && s !in w.g.shutting
    ensures s !in w.g.starts
  {
  }

  lemma StepKeepsNoneStarting(w: World, e: Event, w': World)
    requires Inv(w) && NoneStarting(w) && Next(w, e) == Some(w')
    ensures NoneStarting(w')
  {
    forall p, s | 0 <= p < |w'.procs| && s in w'.g.shutting ensures !Starting(w'.procs[p], s) {
      if Starting(w'.procs[p], s) {
        if e.Moves? && e.p == p {
          StartingBegins(w, p, e.step, w', s);
        }
        assert Starting(w.procs[p], s) && Fine(w.g, p, w.procs[p]);
        StartingHolds(w.g, p, w.procs[p], s);
        if s !in w.g.shutting {
          ShuttingBegins(w, e, w', s);
        }
      }
    }
  }

  /** Once a service is shutting down and none of its turns is left, none ever runs again. */
  lemma {:induction false} ShutdownIsFinal(run: seq<World>, events: seq<Event>, j: nat, k: nat, s: nat)
    requires IsRun(run, events) && j <= k < |run|
    requires s in run[j].g.shutting && !Owned(run[j].g, s)
    ensures s in run[k].g.shutting && !Owned(run[k].g, s)
    decreases k
  {
    if j < k {
      ShutdownIsFinal(run, events, j, k - 1, s);
      NoNewOwnerAt(run, events, k - 1, s);
    }
  }

  /** Whoever waits for a service's turns has told it to shut down. */
  lemma {:induction false} DrainingShuts(run: seq<World>, events: seq<Event>, k: nat, p: nat)
    requires IsRun(run, events) && k < |run| && p < |run[k].procs| && run[k].procs[p].base.at.Draining?
    ensures run[k].procs[p].base.service in run[k].g.shutting
  {
    if k > 0 {
      assert Next(run[k - 1], events[k - 1]) == Some(run[k]);
      if run[k - 1].procs[p].base.at.Draining? {
        DrainingShuts(run, events, k - 1, p);
      }
    }
  }

  /** When Shutdown has seen its service drained, no turn of that service is left and none
      ever runs again. */
  lemma DrainedStaysDown(run: seq<World>, events: seq<Event>, j: nat, k: nat, p: nat)
    requires IsRun(run, events) && j < k < |run| && events[j] == Moves(p, Drain) && p < |run[j].procs|
    ensures var s := run[j].procs[p].base.service;
      forall i :: 0 <= i < |run[k].g.turns| ==> run[k].g.turns[i].owner != Some(s)
  {
    RunKeepsInv(run, events, j);
    assert Next(run[j], events[j]) == Some(run[j + 1]);
    assert Fine(run[j].g, p, run[j].procs[p]);
    DrainingShuts(run, events, j, p);
    ShutdownIsFinal(run, events, j, k, run[j].procs[p].base.service);
  }

  lemma NoNewOwnerAt(run: seq<World>, events: seq<Event>, k: nat, s: nat)
    requires IsRun(run, events) && k < |events| && s in run[k].g.shutting && !Owned(run[k].g, s)
    ensures s in run[k + 1].g.shutting && !Owned(run[k + 1].g, s)
  {
    RunKeepsNoneStarting(run, events, k);
    assert Next(run[k], events[k]) == Some(run[k + 1]);
    NoNewOwner(run[k], events[k], run[k + 1], s);
  }

  lemma NoNewOwner(w: World, e: Event, w': World, s: nat)
    requires NoneStarting(w) && Next(w, e) == Some(w') && s in w.g.shutting && !Owned(w.g, s)
    ensures s in w'.g.shutting && !Owned(w'.g, s)
  {
    if e.Moves? {
      assert !Starting(w.procs[e.p], s);
    }
    forall i | 0 <= i < |w'.g.turns| ensures w'.g.turns[i].owner != Some(s) {
      if i < |w.g.turns| {
        assert w.g.turns[i].owner != Some(s);
      }
    }
  }

  lemma {:induction false} RunKeepsNoneStarting(run: seq<World>, events: seq<Event>, k: nat)
    requires IsRun(run, events) && k < |run|
    ensures NoneStarting(run[k])
  {
    if k > 0 {
      RunKeepsNoneStarting(run, events, k - 1);
      RunKeepsInv(run, events, k - 1);
      StepKeepsNoneStarting(run[k - 1], events[k - 1], run[k]);
    }
  }

  /* ----- progress ----- */

  /** Under its lease, in a service that is not shutting down, Start gets its turn running:
      one new turn, counted by that service. */
  lemma LeaseStartsTurn(run: seq<World>, events: seq<Event>, k: nat, p: nat) returns (w1: World, w2: World, w3: World)
    requires IsRun(run, events) && k < |run| && p < |run[k].procs|
    requires var f := Top(run[k].procs[p]);
      f.at.Held? && f.routine.RuntimeStart? && f.service !in run[k].g.shutting
    ensures Next(run[k], Moves(p, Create)) == Some(w1) && Next(w1, Moves(p, StartTurn)) == Some(w2)
    ensures Next(w2, Moves(p, Launch)) == Some(w3)
    ensures w3.g.turns == run[k].g.turns + [Turn(Running, Some(Top(run[k].procs[p]).service))]
  {
    w1 := Next(run[k], Moves(p, Create)).value;
    w2 := Next(w1, Moves(p, StartTurn)).value;
    w3 := Next(w2, Moves(p, Launch)).value;
  }

  /** What a request under way waits for: nothing, the request that holds the mutex it
      wants, or the turns of a service. */
  datatype Wait = Free | On(q: nat) | OnTurns(service: nat)

  function WaitOf(w: World, p: nat): Wait
    requires p < |w.procs|
  {
    var f := Top(w.procs[p]);
    if f.at.WantStart? && f.service in w.g.starts then On(w.g.starts[f.service])
    else if (f.at.WantCoord? || f.at.WantDrop?) && w.g.coord.Some? then On(w.g.coord.value)
    else if f.at.Draining? && Owned(w.g, f.service) then OnTurns(f.service)
    else Free
  }

  /** The way on that does not need anything to fail. */
  function WayOn(w: World, f: Frame): Step {
    match f.at
    case Enter => Begin
    case WantStart => LockStart
    case WantCoord => LockCoord
    case Checking => Check
    case Refused => GiveUp
    case Held =>
      if f.routine.ThreadStart? then Step.Call
      else if f.routine.DirectStart? || (f.routine.RuntimeStart? && f.service !in w.g.shutting) then Create else GiveUp
    case Created(_) => StartTurn
    case Started(_) => if f.routine.RuntimeStart? then Launch else CallRelease
    case Calling => Begin
    case Called => CallRelease
    case Releasing(_) => if f.rel.done then CallRelease else UnlockCoord
    case Unlocking(_) => UnlockStart
    case After => GiveUp
    case Reserving => ListTurns(false)
    case Reserved => Drop
    case WantDrop => LockCoord
    case Dropping => DropReservation
    case Dropped => GiveUp
    case Draining => Drain
    case Finished => GiveUp
  }

  predicate UnderWay(w: World, p: nat) {
    p < |w.procs| && !w.procs[p].base.at.Finished?
  }

  /** Request p can go on by a step of its own, with nothing failing. */
  predicate CanStep(w: World, p: nat) {
    UnderWay(w, p) && Next(w, Moves(p, WayOn(w, Top(w.procs[p])))).Some?
  }

  lemma FreeCanStep(w: World, p: nat)
    requires Inv(w) && UnderWay(w, p) && WaitOf(w, p) == Free
    ensures CanStep(w, p)
  {
    assert Fine(w.g, p, w.procs[p]);
  }

  lemma HolderIsFree(w: World, q: nat)
    requires Inv(w) && w.g.coord == Some(q)
    ensures UnderWay(w, q) && CanStep(w, q)
  {
    assert Fine(w.g, q, w.procs[q]);
    FreeCanStep(w, q);
  }

  lemma StarterWaits(w: World, s: nat)
    requires Inv(w) && s in w.g.starts
    ensures var q := w.g.starts[s]; UnderWay(w, q) && !Top(w.procs[q]).at.WantStart?
  {
    var q := w.g.starts[s];
    assert Fine(w.g, q, w.procs[q]);
    assert StartHeld(w.procs[q].base) == Some(s);
  }

  /** No deadlock, and what every request waits for: a request that waits for nobody can
      step; the holder of the coordinator always can; the holder of a start mutex can, or
      waits for the coordinator, or, shutting down, for a turn that can end. Nobody waits
      for itself. */
  lemma NoDeadlock(run: seq<World>, events: seq<Event>, k: nat, p: nat)
    requires IsRun(run, events) && k < |run| && UnderWay(run[k], p)
    ensures match WaitOf(run[k], p)
      case Free => CanStep(run[k], p)
      case OnTurns(s) => TurnCanEnd(run[k], s)
      case On(q) =>
        && q != p && UnderWay(run[k], q)
        && match WaitOf(run[k], q)
           case Free => CanStep(run[k], q)
           case OnTurns(s) => TurnCanEnd(run[k], s)
           case On(r) => run[k].g.coord == Some(r) && r != p && r != q && CanStep(run[k], r)
  {
    var w := run[k];
    RunKeepsInv(run, events, k);
    match WaitOf(w, p)
    case Free => FreeCanStep(w, p);
    case OnTurns(s) => OwnedCanEnd(w, s);
    case On(q) =>
      WaitIsShort(w, p);
      if WaitOf(w, q).Free? {
        FreeCanStep(w, q);
      } else if WaitOf(w, q).OnTurns? {
        OwnedCanEnd(w, WaitOf(w, q).service);
      }
  }

  lemma OwnedCanEnd(w: World, s: nat)
    requires Owned(w.g, s)
    ensures TurnCanEnd(w, s)
  {
    var i :| 0 <= i < |w.g.turns| && w.g.turns[i].owner == Some(s);
    assert Next(w, TurnEnds(i, true)).Some?;
  }

  ghost predicate TurnCanEnd(w: World, s: nat) {
    exists i :: 0 <= i < |w.g.turns| && w.g.turns[i].owner == Some(s) && Next(w, TurnEnds(i, true)).Some?
  }

  lemma WaitIsShort(w: World, p: nat)
    requires Inv(w) && UnderWay(w, p) && WaitOf(w, p).On?
    ensures var q := WaitOf(w, p).q; q != p && UnderWay(w, q)
    ensures var q := WaitOf(w, p).q;
      WaitOf(w, q).On? ==>
        var r := WaitOf(w, q).q;
        w.g.coord == Some(r) && r != p && r != q && CanStep(w, r)
  {
    var f := Top(w.procs[p]);
    assert Fine(w.g, p, w.procs[p]);
    assert w.procs[p].nested.None?;
    if f.at.WantStart? {
      StarterWaits(w, f.service);
      assert StartHeld(f).None?;
    }
    if w.g.coord.Some? {
      HolderIsFree(w, w.g.coord.value);
      assert Fine(w.g, w.g.coord.value, w.procs[w.g.coord.value]);
    }
  }
}
