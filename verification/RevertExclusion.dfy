/** What RevertCoordination's protocol guarantees in every run: reverts and turns exclude
    each other, marked contexts are used under their locks only, and release closures may
    be called again. */
module RevertExclusion {
  import opened Transcript
  import opened RevertCoordination

  /** In every reachable state: while a granted reservation is held no turn is queued or
      running, at most one request holds one, and no lease is out; no mutex is ever
      unlocked that is not locked; and a finished request holds nothing. */
  lemma RevertsExcludeTurns(run: seq<World>, events: seq<Event>, k: nat, p: nat, q: nat)
    requires IsRun(run, events) && k < |run| && p < |run[k].procs| && q < |run[k].procs|
    ensures Granted(run[k].procs[p].base) ==> Quiet(run[k].g) && !Leased(run[k].procs[q].base)
    ensures Granted(run[k].procs[p].base) && Granted(run[k].procs[q].base) ==> p == q
    ensures !run[k].g.fault
    ensures run[k].procs[p].base.at.Finished? ==>
      run[k].g.coord != Some(p) && run[k].g.revert != Some(p) &&
        forall s :: s in run[k].g.starts ==> run[k].g.starts[s] != p
  {
    RunKeepsInv(run, events, k);
    assert Fine(run[k].g, p, run[k].procs[p]) && Fine(run[k].g, q, run[k].procs[q]);
  }

  /** Steps that hand the request's context to somebody: to the store, or to an acquire. */
  predicate UsesContext(step: Step) {
    step in {Begin, Create, StartTurn, Launch, Step.Call, UseLate}
  }

  /** A marked context is used only while its request holds the coordinator and the start
      mutex that the marks tell of, and then no reservation exists; the marks themselves
      stay in the context when the locks are gone. */
  lemma MarkedOnlyUnderLock(run: seq<World>, events: seq<Event>, k: nat)
    requires IsRun(run, events) && k < |events| && events[k].Moves? && events[k].p < |run[k].procs| &&
      UsesContext(events[k].step)
    requires Top(run[k].procs[events[k].p]).ctx.workspace
    ensures var p, f := events[k].p, Top(run[k].procs[events[k].p]);
      && run[k].g.coord == Some(p) && run[k].g.revert.None?
      && f.ctx.start.Some? && f.ctx.start.value in run[k].g.starts && run[k].g.starts[f.ctx.start.value] == p
  {
    RunKeepsInv(run, events, k);
    var p := events[k].p;
    assert Next(run[k], events[k]) == Some(run[k + 1]);
    assert Fine(run[k].g, p, run[k].procs[p]);
    var base := run[k].procs[p].base;
    assert UnderLease(base) && StartHeld(base) == Some(base.service);
  }

  /** Under its mark a nested acquire neither locks nor waits, and its closure unlocks
      nothing: it is never seen at a lock, and its steps leave mutexes and reservation
      alone. */
  lemma NestedAcquireIsIdle(run: seq<World>, events: seq<Event>, k: nat)
    requires IsRun(run, events) && k < |events| && events[k].Moves? && events[k].p < |run[k].procs| &&
      run[k].procs[events[k].p].nested.Some?
    ensures var f := run[k].procs[events[k].p].nested.value; !f.at.WantStart? && !f.at.WantCoord?
    ensures run[k + 1].g.coord == run[k].g.coord && run[k + 1].g.starts == run[k].g.starts &&
      run[k + 1].g.revert == run[k].g.revert
  {
    RunKeepsInv(run, events, k);
    var p := events[k].p;
    assert Next(run[k], events[k]) == Some(run[k + 1]);
    var proc := run[k].procs[p];
    assert Fine(run[k].g, p, proc);
    NestedStepIsHarmless(run[k].g, p, proc.nested.value, proc.base, events[k].step,
      Act(run[k].g, p, proc.nested.value, events[k].step).value);
  }

  /** The event is a step of request q. */
  predicate By(e: Event, q: nat) {
    e.Moves? && e.p == q
  }

  lemma OthersKeepWhatTheyHold(w: World, e: Event, w': World, q: nat)
    requires Inv(w) && Next(w, e) == Some(w') && q < |w.procs| && !By(e, q)
    ensures w.g.coord == Some(q) ==> w'.g.coord == Some(q)
    ensures w.g.revert == Some(q) ==> w'.g.revert == Some(q)
    ensures forall s :: s in w.g.starts && w.g.starts[s] == q ==> s in w'.g.starts && w'.g.starts[s] == q
  {
    StepKeepsInv(w, e, w');
    assert w'.procs[q] == w.procs[q];
    assert Fine(w.g, q, w.procs[q]) && Fine(w'.g, q, w'.procs[q]);
  }

  /** Whoever unlocks a mutex or drops the reservation holds it, although the mutex does
      not ask: a closure called late, or again, never unlocks what somebody else holds. */
  lemma OnlyHoldersUnlock(run: seq<World>, events: seq<Event>, k: nat, q: nat)
    requires IsRun(run, events) && k < |events| && !By(events[k], q)
    ensures run[k].g.coord == Some(q) ==> run[k + 1].g.coord == Some(q)
    ensures run[k].g.revert == Some(q) ==> run[k + 1].g.revert == Some(q)
    ensures forall s :: s in run[k].g.starts && run[k].g.starts[s] == q ==>
              s in run[k + 1].g.starts && run[k + 1].g.starts[s] == q
  {
    RunKeepsInv(run, events, k);
    assert Next(run[k], events[k]) == Some(run[k + 1]);
    if q < |run[k].procs| {
      OthersKeepWhatTheyHold(run[k], events[k], run[k + 1], q);
    }
  }

  /** A granted reservation survives every step of anybody else, and keeps excluding turns. */
  lemma ReservationSurvives(run: seq<World>, events: seq<Event>, k: nat, q: nat)
    requires IsRun(run, events) && k < |events| && q < |run[k].procs| && Granted(run[k].procs[q].base) &&
      !By(events[k], q)
    ensures run[k + 1].g.revert == Some(q) && Quiet(run[k + 1].g)
  {
    RunKeepsInv(run, events, k);
    assert Fine(run[k].g, q, run[k].procs[q]);
    OnlyHoldersUnlock(run, events, k, q);
    RunKeepsInv(run, events, k + 1);
    assert Next(run[k], events[k]) == Some(run[k + 1]);
    assert Fine(run[k + 1].g, q, run[k + 1].procs[q]);
  }

  /** The second call of a release closure, or of a reservation's release, changes nothing
      but the caller's place. */
  lemma SecondReleaseIsIdle(run: seq<World>, events: seq<Event>, k: nat)
    requires IsRun(run, events) && k < |events| && events[k].Moves? && events[k].p < |run[k].procs| &&
      run[k].procs[events[k].p].nested.None?
    requires var f := run[k].procs[events[k].p].base;
      f.rel.done && !f.at.Unlocking? && !f.at.WantDrop? && !f.at.Dropping?
    ensures run[k + 1].g == run[k].g
  {
    RunKeepsInv(run, events, k);
    assert Next(run[k], events[k]) == Some(run[k + 1]);
    assert Fine(run[k].g, events[k].p, run[k].procs[events[k].p]);
  }

  /** A turn becomes active only by a step of the lease holder. */
  lemma OnlyLeasesActivate(run: seq<World>, events: seq<Event>, k: nat, i: nat)
    requires IsRun(run, events) && k < |events| && i < |run[k + 1].g.turns| && Active(run[k + 1].g.turns[i])
    requires i >= |run[k].g.turns| || run[k + 1].g.turns[i].status != run[k].g.turns[i].status
    ensures events[k].Moves? && run[k].g.coord == Some(events[k].p) && run[k].g.revert.None?
  {
    RunKeepsInv(run, events, k);
    assert Next(run[k], events[k]) == Some(run[k + 1]);
    if events[k].Moves? {
      assert Fine(run[k].g, events[k].p, run[k].procs[events[k].p]);
    }
  }

  /** A reservation is granted exactly when the turns could be listed and none is queued or
      running. */
  lemma GrantedWhenQuiet(run: seq<World>, events: seq<Event>, k: nat, p: nat, failed: bool)
    requires IsRun(run, events) && k < |events| && events[k] == Moves(p, ListTurns(failed)) && p < |run[k].procs|
    ensures Granted(run[k + 1].procs[p].base) <==> !failed && Quiet(run[k].g)
    ensures !Granted(run[k + 1].procs[p].base) ==> run[k + 1].procs[p].base.at.Finished? && run[k + 1].g.revert.None?
  {
    RunKeepsInv(run, events, k);
    assert Next(run[k], events[k]) == Some(run[k + 1]);
    assert Fine(run[k].g, p, run[k].procs[p]);
  }

  /** Whoever looks at the reservation gets its lease, or puts up its own reservation,
      exactly when there is none. */
  lemma AdmittedWithoutReservation(run: seq<World>, events: seq<Event>, k: nat, p: nat)
    requires IsRun(run, events) && k < |events| && events[k] == Moves(p, Check) && p < |run[k].procs|
    ensures var f, f' := run[k].procs[p].base, run[k + 1].procs[p].base;
      && (run[k].g.revert.Some? ==>
            f'.at.Refused? && run[k + 1].g.coord.None? && run[k + 1].g.revert == run[k].g.revert)
      && (run[k].g.revert.None? && f.routine.Revert? ==> f'.at.Reserving? && run[k + 1].g.revert == Some(p))
      && (run[k].g.revert.None? && !f.routine.Revert? ==> f'.at.Held? && Leased(f') && run[k + 1].g.coord == Some(p))
  {
    RunKeepsInv(run, events, k);
    RunKeepsInv(run, events, k + 1);
    assert Next(run[k], events[k]) == Some(run[k + 1]);
    assert Fine(run[k].g, p, run[k].procs[p]) && Fine(run[k + 1].g, p, run[k + 1].procs[p]);
  }

  /** Dropping a reservation leaves none behind, and the coordinator free. */
  lemma ReservationEnds(run: seq<World>, events: seq<Event>, k: nat, p: nat)
    requires IsRun(run, events) && k < |events| && events[k] == Moves(p, DropReservation) && p < |run[k].procs|
    ensures run[k].g.revert == Some(p) && run[k + 1].g.revert.None? && run[k + 1].g.coord.None?
  {
    RunKeepsInv(run, events, k);
    assert Next(run[k], events[k]) == Some(run[k + 1]);
    assert Fine(run[k].g, p, run[k].procs[p]);
  }

  /** A turn whose end is recorded no longer stands in the way of a revert; no other turn
      changes. An end that could not be recorded leaves the turn as it was. */
  lemma RecordedEndIsInactive(run: seq<World>, events: seq<Event>, k: nat, i: nat)
    requires IsRun(run, events) && k < |events| && events[k].TurnEnds? && i < |run[k].g.turns|
    ensures |run[k + 1].g.turns| == |run[k].g.turns|
    ensures i == events[k].turn && events[k].recorded ==> !Active(run[k + 1].g.turns[i])
    ensures i == events[k].turn && !events[k].recorded ==> run[k + 1].g.turns[i].status == run[k].g.turns[i].status
    ensures i == events[k].turn ==> run[k + 1].g.turns[i].owner.None?
    ensures i != events[k].turn ==> run[k + 1].g.turns[i] == run[k].g.turns[i]
  {
    assert Next(run[k], events[k]) == Some(run[k + 1]);
  }

  /** The turn that request p is starting. */
  function TurnOf(w: World, p: nat): Option<nat>
    requires p < |w.procs|
  {
    var at := Top(w.procs[p]).at;
    if at.Created? || at.Started? then Some(at.turn) else None
  }

  /** So does a turn that failed to start, if that could be recorded. */
  lemma FailedStartIsInactive(run: seq<World>, events: seq<Event>, k: nat, p: nat)
    requires IsRun(run, events) && k < |events| && events[k] == Moves(p, FailTurn(true)) && p < |run[k].procs|
    ensures TurnOf(run[k], p).Some? && TurnOf(run[k], p).value < |run[k + 1].g.turns|
    ensures !Active(run[k + 1].g.turns[TurnOf(run[k], p).value])
  {
    assert Next(run[k], events[k]) == Some(run[k + 1]);
  }
}
