/** Exclusion between workspace reverts and everything that starts turns
    (appserver/workspace_revert_coordination.go, appserver/runtime.go, appserver/server.go,
    appserver/thread_compact.go, appserver/thread_shell_command.go): any number of
    requests, on any connections, share one coordinator and one store; runtime starts
    also serialize on their service's start mutex. Mutexes do not check who unlocks them,
    contexts carry marks that outlive the locks, and release closures are called twice. */
module RevertCoordination {
  import opened Transcript

  /* ----- requests ----- */

  /** The marks in a context: a mutation lease, and the service whose start lease is held. */
  datatype Ctx = Ctx(workspace: bool, start: Option<nat>)

  const PLAIN := Ctx(false, None)

  /** A release closure: what its first call unlocks, and the once flag. */
  datatype Release = Release(coord: bool, start: Option<nat>, done: bool)

  const NOTHING := Release(false, None, false)

  /** thread/start, which calls Start under its own lease; RuntimeService.Start and Retry;
      compaction and shell command; rollback and delete; a file-change revert; Shutdown. */
  datatype Routine = ThreadStart | RuntimeStart | DirectStart | Mutation | Revert | Shutdown

  datatype At =
    | Enter
    | WantStart | WantCoord            // about to lock the start mutex, the coordinator
    | Checking                         // has the coordinator, looks at the reservation
    | Refused                          // a revert is in progress; coordinator unlocked
    | Held                             // lease acquired
    | Created(turn: nat) | Started(turn: nat)
    | Calling | Called                 // thread/start inside, and back from, Start
    | Releasing(last: bool)            // calls its release closure: explicitly, or at last deferred
    | Unlocking(last: bool)            // in that call, between the two unlocks
    | After                            // behind the explicit release
    | Reserving | Reserved | WantDrop | Dropping | Dropped
    | Draining                         // Shutdown waits for the service's turns
    | Finished

  datatype Frame = Frame(routine: Routine, service: nat, at: At, ctx: Ctx, rel: Release)

  /** A request: its handler, and the Start it is calling, if any. */
  datatype Process = Process(base: Frame, nested: Option<Frame>)

  datatype Status = Queued | Running | Ended

  /** `owner` is the service whose wait group counts the turn's goroutine. */
  datatype Turn = Turn(status: Status, owner: Option<nat>)

  /** What requests share. `fault` records an unlock of an unlocked mutex. */
  datatype Shared = Shared(coord: Option<nat>, starts: map<nat, nat>, revert: Option<nat>, turns: seq<Turn>,
      shutting: set<nat>, fault: bool)

  datatype World = World(g: Shared, procs: seq<Process>)

  predicate Active(t: Turn) {
    t.status.Queued? || t.status.Running?
  }

  predicate ServiceStart(r: Routine) {
    r.ThreadStart? || r.RuntimeStart?
  }

  predicate Owned(g: Shared, service: nat) {
    exists i :: 0 <= i < |g.turns| && g.turns[i].owner == Some(service)
  }

  /* ----- steps ----- */

  datatype Step =
    | Begin | LockStart | LockCoord
    | Check                                // look at the reservation
    | GiveUp                               // refused, failed, or nothing more to do
    | Create | StartTurn | Launch          // under the lease
    | FailTurn(recorded: bool)             // terminalize the turn, if the store lets us
    | Call                                 // thread/start calls Start with its context
    | CallRelease                          // call the release closure, explicitly or deferred
    | UnlockCoord | UnlockStart            // the two halves of its first call
    | UseLate                              // use the context behind the explicit release
    | ListTurns(failed: bool)              // a reverter decides on its reservation
    | Drop                                 // call the reservation's release
    | DropReservation
    | Drain                                // Shutdown sees the wait group empty
    | Timeout                              // or its own context end

  /** sync.Mutex.Unlock: whoever calls it. */
  function UnlockedCoord(g: Shared): Shared {
    g.(coord := None, fault := g.fault || g.coord.None?)
  }

  function UnlockedStart(g: Shared, service: nat): Shared {
    g.(starts := g.starts - {service}, fault := g.fault || service !in g.starts)
  }

  /** What follows a call of the release closure. */
  function Behind(last: bool): At {
    if last then Finished else After
  }

  datatype Acted = Acted(g: Shared, f: Frame)

  /** One step of request p in frame f. */
  function Act(g: Shared, p: nat, f: Frame, step: Step): Option<Acted> {
    match step
    case Begin =>
      if !f.at.Enter? then None
      else if ServiceStart(f.routine) && f.ctx.start == Some(f.service)
      then Some(Acted(g, f.(at := Held, rel := NOTHING)))
      else Some(Acted(g, f.(at := if ServiceStart(f.routine) || f.routine.Shutdown? then WantStart else WantCoord)))
    case LockStart =>
      if !f.at.WantStart? || f.service in g.starts then None
      else
        var g' := g.(starts := g.starts[f.service := p]);
        if f.routine.Shutdown? then Some(Acted(g'.(shutting := g.shutting + {f.service}), f.(at := Draining)))
        else if f.ctx.workspace then
          Some(Acted(g', f.(at := Held, ctx := Ctx(true, Some(f.service)),
            rel := Release(false, Some(f.service), false))))
        else Some(Acted(g', f.(at := WantCoord)))
    case LockCoord =>
      if g.coord.Some? then None
      else if f.at.WantCoord? then Some(Acted(g.(coord := Some(p)), f.(at := Checking)))
      else if f.at.WantDrop? then Some(Acted(g.(coord := Some(p)), f.(at := Dropping)))
      else None
    case Check =>
      if !f.at.Checking? then None
      else if g.revert.Some? then Some(Acted(UnlockedCoord(g), f.(at := Refused)))
      else if f.routine.Revert? then Some(Acted(g.(revert := Some(p)), f.(at := Reserving)))
      else if ServiceStart(f.routine) then
        Some(Acted(g, f.(at := Held, ctx := Ctx(true, Some(f.service)), rel := Release(true, Some(f.service), false))))
      else Some(Acted(g, f.(at := Held, rel := Release(true, None, false))))
    case GiveUp =>
      if f.at.Refused?
      then Some(Acted(if ServiceStart(f.routine) then UnlockedStart(g, f.service) else g, f.(at := Finished)))
      else if f.at.Held? || f.at.Called? || f.at.After? then Some(Acted(g, f.(at := Releasing(true))))
      else if f.at.Dropped? then Some(Acted(g, f.(at := Finished)))
      else None
    case Create =>
      if f.at.Held? && (f.routine.DirectStart? || (f.routine.RuntimeStart? && f.service !in g.shutting))
      then Some(Acted(g.(turns := g.turns + [Turn(Queued, None)]), f.(at := Created(|g.turns|)))) else None
    case StartTurn =>
      if f.at.Created? && f.at.turn < |g.turns|
      then Some(Acted(g.(turns := g.turns[f.at.turn := Turn(Running, None)]), f.(at := Started(f.at.turn)))) else None
    case Launch =>
      if f.at.Started? && f.routine.RuntimeStart? && f.at.turn < |g.turns|
      then Some(Acted(g.(turns := g.turns[f.at.turn := g.turns[f.at.turn].(owner := Some(f.service))]),
        f.(at := Releasing(true)))) else None
    case FailTurn(recorded) =>
      if (f.at.Created? || f.at.Started?) && f.at.turn < |g.turns|
      then Some(Acted(if recorded then g.(turns := g.turns[f.at.turn := Turn(Ended, None)]) else g,
        f.(at := Releasing(true)))) else None
    case Call => if f.at.Held? && f.routine.ThreadStart? then Some(Acted(g, f.(at := Calling))) else None
    case CallRelease =>
      if f.at.Called? || (f.at.Started? && f.routine.DirectStart?) then Some(Acted(g, f.(at := Releasing(false))))
      else if f.at.Releasing? && f.rel.done then Some(Acted(g, f.(at := Behind(f.at.last))))
      else None
    case UnlockCoord =>
      if f.at.Releasing? && !f.rel.done
      then Some(Acted(if f.rel.coord then UnlockedCoord(g) else g,
        f.(at := Unlocking(f.at.last), rel := f.rel.(done := true)))) else None
    case UnlockStart =>
      if f.at.Unlocking?
      then Some(Acted(if f.rel.start.Some? then UnlockedStart(g, f.rel.start.value) else g,
        f.(at := Behind(f.at.last)))) else None
    case UseLate => if f.at.After? && f.routine.DirectStart? then Some(Acted(g, f)) else None
    case ListTurns(failed) =>
      if !f.at.Reserving? then None
      else if failed || exists i :: 0 <= i < |g.turns| && Active(g.turns[i])
      then Some(Acted(UnlockedCoord(g).(revert := None), f.(at := Finished)))
      else Some(Acted(UnlockedCoord(g), f.(at := Reserved)))
    case Drop =>
      if f.at.Reserved? then Some(Acted(g, f.(at := WantDrop, rel := f.rel.(done := true))))
      else if f.at.Dropped? then Some(Acted(g, f))
      else None
    case DropReservation =>
      if !f.at.Dropping? then None
      else Some(Acted(UnlockedCoord(g).(revert := if g.revert == Some(p) then None else g.revert), f.(at := Dropped)))
    case Drain =>
      if f.at.Draining? && !Owned(g, f.service)
      then Some(Acted(UnlockedStart(g, f.service), f.(at := Finished))) else None
    case Timeout => if f.at.Draining? then Some(Acted(UnlockedStart(g, f.service), f.(at := Finished))) else None
  }

  function Top(p: Process): Frame {
    if p.nested.Some? then p.nested.value else p.base
  }

  /** The request once its top frame has become f: a call opens a frame with the caller's
      context, and a nested frame that is finished returns. */
  function Advanced(p: Process, f: Frame): Process {
    if p.nested.Some? then
      if f.at.Finished? then Process(p.base.(at := Called), None) else Process(p.base, Some(f))
    else if f.at.Calling? then Process(f, Some(Frame(RuntimeStart, f.service, Enter, f.ctx, NOTHING)))
    else Process(f, None)
  }

  /** The turn's work has ended; the store may have failed to record it. */
  function Over(t: Turn, recorded: bool): Turn {
    Turn(if recorded then Ended else t.status, None)
  }

  /** What happens next: a request steps, or a turn that runs comes to its end. */
  datatype Event = Moves(p: nat, step: Step) | TurnEnds(turn: nat, recorded: bool)

  function Next(w: World, e: Event): Option<World> {
    match e
    case Moves(p, step) =>
      if p >= |w.procs| then None
      else
        var a := Act(w.g, p, Top(w.procs[p]), step);
        if a.None? then None else Some(World(a.value.g, w.procs[p := Advanced(w.procs[p], a.value.f)]))
    case TurnEnds(turn, recorded) =>
      if turn < |w.g.turns| && (w.g.turns[turn].owner.Some? || w.g.turns[turn].status.Running?)
      then Some(w.(g := w.g.(turns := w.g.turns[turn := Over(w.g.turns[turn], recorded)]))) else None
  }

  /* ----- one frame ----- */

  predicate Leased(f: Frame) {
    f.rel.coord && !f.rel.done
  }

  predicate HoldsCoord(f: Frame) {
    f.at.Checking? || f.at.Reserving? || f.at.Dropping? || Leased(f)
  }

  function StartHeld(f: Frame): Option<nat> {
    if f.at.Draining? then Some(f.service)
    else if (f.at.WantCoord? || f.at.Checking? || f.at.Refused?) && ServiceStart(f.routine) then Some(f.service)
    else if f.rel.start.Some? && (!f.rel.done || f.at.Unlocking?) then f.rel.start
    else None
  }

  predicate Reserves(f: Frame) {
    f.at.Reserving? || f.at.Reserved? || f.at.WantDrop? || f.at.Dropping?
  }

  /** The reservation has been granted: turns were listed, and there was none. */
  predicate Granted(f: Frame) {
    Reserves(f) && !f.at.Reserving?
  }

  /** A handler has not acquired yet, is under its lease, or is behind it. */
  predicate BaseOk(f: Frame) {
    match f.at
    case Enter => f.ctx == PLAIN && f.rel == NOTHING
    case WantStart => f.ctx == PLAIN && f.rel == NOTHING && (ServiceStart(f.routine) || f.routine.Shutdown?)
    case WantCoord => f.ctx == PLAIN && f.rel == NOTHING && !f.routine.Shutdown?
    case Checking => f.ctx == PLAIN && f.rel == NOTHING && !f.routine.Shutdown?
    case Refused => f.ctx == PLAIN && f.rel == NOTHING && !f.routine.Shutdown?
    case Draining => f.rel == NOTHING && f.routine.Shutdown?
    case Reserving => f.routine.Revert? && f.rel == NOTHING
    case Reserved => f.routine.Revert? && f.rel == NOTHING
    case WantDrop => f.routine.Revert? && !f.rel.coord && f.rel.start.None?
    case Dropping => f.routine.Revert? && !f.rel.coord && f.rel.start.None?
    case Dropped => f.routine.Revert? && !f.rel.coord && f.rel.start.None?
    case Held => UnderLease(f)
    case Created(_) => UnderLease(f) && (f.routine.RuntimeStart? || f.routine.DirectStart?)
    case Started(_) => UnderLease(f) && (f.routine.RuntimeStart? || f.routine.DirectStart?)
    case Calling => UnderLease(f) && f.routine.ThreadStart?
    case Called => UnderLease(f) && f.routine.ThreadStart?
    case Releasing(last) => LeaseOf(f) && (f.rel.done ==> last) && (!last ==> !f.routine.RuntimeStart?)
    case Unlocking(last) => LeaseOf(f) && f.rel.done && (!last ==> !f.routine.RuntimeStart?)
    case After => LeaseOf(f) && f.rel.done && !f.routine.RuntimeStart?
    case Finished => !Leased(f) && (f.rel.start.Some? ==> f.rel.done)
  }

  /** The closure unlocks what was locked, and the context is marked as the code marks it. */
  predicate LeaseOf(f: Frame) {
    && !f.routine.Revert? && !f.routine.Shutdown?
    && f.rel.coord && f.rel.start == (if ServiceStart(f.routine) then Some(f.service) else None)
    && f.ctx == if ServiceStart(f.routine) then Ctx(true, Some(f.service)) else PLAIN
  }

  predicate UnderLease(f: Frame) {
    LeaseOf(f) && !f.rel.done
  }

  /** The Start that thread/start calls: it found the mark, and its own closure does nothing. */
  predicate NestedOk(f: Frame, caller: Frame) {
    && f.routine.RuntimeStart? && f.service == caller.service && f.ctx == caller.ctx
    && !f.rel.coord && f.rel.start.None?
    && (f.at.Enter? || f.at.Held? || f.at.Created? || f.at.Started? || f.at.Releasing? || f.at.Unlocking?)
    && (f.at.Releasing? ==> f.at.last) && (f.at.Unlocking? ==> f.at.last)
  }

  predicate ProcessOk(p: Process) {
    && BaseOk(p.base) && (p.nested.Some? <==> p.base.at.Calling?)
    && (p.nested.Some? ==> NestedOk(p.nested.value, p.base))
  }

  predicate TurnIn(g: Shared, f: Frame) {
    f.at.Created? || f.at.Started? ==> f.at.turn < |g.turns|
  }

  ghost predicate Quiet(g: Shared) {
    forall i :: 0 <= i < |g.turns| ==> !Active(g.turns[i])
  }

  /** The mutexes and the reservation are what request p's handler thinks they are. */
  ghost predicate Owns(g: Shared, p: nat, f: Frame) {
    && (g.coord == Some(p) <==> HoldsCoord(f))
    && (forall s :: (s in g.starts && g.starts[s] == p) <==> StartHeld(f) == Some(s))
    && (g.revert == Some(p) <==> Reserves(f))
    && (Leased(f) ==> g.revert.None?)
    && (Granted(f) ==> Quiet(g))
    && TurnIn(g, f)
  }

  /** Steps on the way to a lease, a reservation or a refusal. */
  predicate Acquires(step: Step) {
    step.Begin? || step.LockStart? || step.LockCoord? || step.Check? || step.ListTurns?
  }

  lemma AcquireKeepsShape(g: Shared, p: nat, f: Frame, step: Step, a: Acted)
    requires BaseOk(f) && Act(g, p, f, step) == Some(a) && Acquires(step)
    ensures BaseOk(a.f)
  {
  }

  lemma OtherStepKeepsShape(g: Shared, p: nat, f: Frame, step: Step, a: Acted)
    requires BaseOk(f) && Act(g, p, f, step) == Some(a) && !Acquires(step)
    ensures BaseOk(a.f)
  {
  }

  /** Steps that take or give back the start mutex, the coordinator or the reservation. */
  predicate MovesStart(step: Step) {
    step.LockStart? || step.UnlockStart? || step.Drain? || step.Timeout?
  }

  predicate MovesCoord(step: Step) {
    step.LockCoord? || step.Check? || step.UnlockCoord? || step.DropReservation? || step.ListTurns?
  }

  predicate MovesTurn(step: Step) {
    step.Create? || step.StartTurn? || step.Launch? || step.FailTurn?
  }

  lemma StartStepKeepsOwns(g: Shared, p: nat, f: Frame, step: Step, a: Acted)
    requires BaseOk(f) && Owns(g, p, f) && Act(g, p, f, step) == Some(a) && MovesStart(step)
    ensures Owns(a.g, p, a.f) && a.g.fault == g.fault
  {
  }

  lemma CoordStepKeepsOwns(g: Shared, p: nat, f: Frame, step: Step, a: Acted)
    requires BaseOk(f) && Owns(g, p, f) && Act(g, p, f, step) == Some(a) && MovesCoord(step)
    ensures Owns(a.g, p, a.f) && a.g.fault == g.fault
  {
  }

  lemma TurnStepKeepsOwns(g: Shared, p: nat, f: Frame, step: Step, a: Acted)
    requires BaseOk(f) && Owns(g, p, f) && Act(g, p, f, step) == Some(a) && MovesTurn(step)
    ensures Owns(a.g, p, a.f) && a.g.fault == g.fault
  {
  }

  lemma PlainStepKeepsOwns(g: Shared, p: nat, f: Frame, step: Step, a: Acted)
    requires BaseOk(f) && Owns(g, p, f) && Act(g, p, f, step) == Some(a)
    requires !f.at.Calling? && !MovesStart(step) && !MovesCoord(step) && !MovesTurn(step)
    ensures Owns(a.g, p, a.f) && a.g.fault == g.fault
  {
  }

  lemma OwnStepKeepsFine(g: Shared, p: nat, f: Frame, step: Step, a: Acted)
    requires BaseOk(f) && Owns(g, p, f) && Act(g, p, f, step) == Some(a) && !f.at.Calling?
    ensures BaseOk(a.f) && Owns(a.g, p, a.f) && a.g.fault == g.fault
  {
    if Acquires(step) {
      AcquireKeepsShape(g, p, f, step, a);
    } else {
      OtherStepKeepsShape(g, p, f, step, a);
    }
    if MovesStart(step) {
      StartStepKeepsOwns(g, p, f, step, a);
    } else if MovesCoord(step) {
      CoordStepKeepsOwns(g, p, f, step, a);
    } else if MovesTurn(step) {
      TurnStepKeepsOwns(g, p, f, step, a);
    } else {
      PlainStepKeepsOwns(g, p, f, step, a);
    }
  }

  /** Steps on mutexes and the reservation leave what others own alone ... */
  lemma LockStepKeepsOthers(g: Shared, p: nat, f: Frame, step: Step, a: Acted, q: nat, other: Frame)
    requires BaseOk(f) && Owns(g, p, f) && Act(g, p, f, step) == Some(a) && (MovesStart(step) || MovesCoord(step))
    requires q != p && Owns(g, q, other)
    ensures Owns(a.g, q, other)
  {
  }

  /** ... and so do the other steps. */
  lemma PlainStepKeepsOthers(g: Shared, p: nat, f: Frame, step: Step, a: Acted, q: nat, other: Frame)
    requires BaseOk(f) && Owns(g, p, f) && Act(g, p, f, step) == Some(a) && !(MovesStart(step) || MovesCoord(step))
    requires q != p && Owns(g, q, other)
    ensures Owns(a.g, q, other)
  {
  }

  lemma NestedStepIsHarmless(g: Shared, p: nat, f: Frame, caller: Frame, step: Step, a: Acted)
    requires BaseOk(caller) && UnderLease(caller) && caller.routine.ThreadStart? && NestedOk(f, caller) &&
      TurnIn(g, f) && Act(g, p, f, step) == Some(a)
    ensures a.f.at.Finished? || (NestedOk(a.f, caller) && TurnIn(a.g, a.f))
    ensures a.g.coord == g.coord && a.g.starts == g.starts && a.g.revert == g.revert && a.g.fault == g.fault &&
      |a.g.turns| >= |g.turns|
  {
  }

  lemma NestedStepKeepsOwns(g: Shared, p: nat, f: Frame, caller: Frame, step: Step, a: Acted, q: nat, other: Frame)
    requires BaseOk(caller) && UnderLease(caller) && caller.routine.ThreadStart? && NestedOk(f, caller) &&
      TurnIn(g, f) && Act(g, p, f, step) == Some(a)
    requires g.revert.None? && Owns(g, q, other)
    ensures Owns(a.g, q, other)
  {
    NestedStepIsHarmless(g, p, f, caller, step, a);
  }

  lemma EndKeepsOwns(g: Shared, turn: nat, t: Turn, q: nat, other: Frame)
    requires turn < |g.turns| && (Active(t) ==> Active(g.turns[turn])) && Owns(g, q, other)
    ensures Owns(g.(turns := g.turns[turn := t]), q, other)
  {
  }

  /* ----- every run ----- */

  ghost predicate Inv(w: World) {
    && !w.g.fault
    && (w.g.coord.Some? ==> w.g.coord.value < |w.procs|) && (w.g.revert.Some? ==> w.g.revert.value < |w.procs|)
    && (forall s :: s in w.g.starts ==> w.g.starts[s] < |w.procs|)
    && forall p :: 0 <= p < |w.procs| ==> Fine(w.g, p, w.procs[p])
  }

  ghost predicate Fine(g: Shared, p: nat, proc: Process) {
    && ProcessOk(proc) && Owns(g, p, proc.base)
    && (proc.nested.Some? ==> TurnIn(g, proc.nested.value))
  }

  /** Requests come with unmarked contexts, nobody holds anything and no service is shutting
      down; the store may hold any turns. */
  ghost predicate Initial(w: World) {
    && w.g.coord.None? && w.g.starts == map[] && w.g.revert.None? && w.g.shutting == {} && !w.g.fault
    && forall p :: 0 <= p < |w.procs| ==>
         w.procs[p].nested.None? && w.procs[p].base.at.Enter? && w.procs[p].base.ctx == PLAIN &&
           w.procs[p].base.rel == NOTHING
  }

  ghost predicate IsRun(run: seq<World>, events: seq<Event>) {
    && |run| == |events| + 1 && Initial(run[0])
    && forall k :: 0 <= k < |events| ==> Next(run[k], events[k]) == Some(run[k + 1])
  }

  lemma MoverStaysFine(w: World, p: nat, step: Step, w': World)
    requires Inv(w) && Next(w, Moves(p, step)) == Some(w')
    ensures Fine(w'.g, p, w'.procs[p]) && !w'.g.fault
  {
    var proc := w.procs[p];
    assert Fine(w.g, p, proc);
    var a := Act(w.g, p, Top(proc), step).value;
    if proc.nested.Some? {
      NestedStepIsHarmless(w.g, p, proc.nested.value, proc.base, step, a);
      NestedStepKeepsOwns(w.g, p, proc.nested.value, proc.base, step, a, p, proc.base);
      assert Owns(a.g, p, proc.base.(at := Called));
    } else {
      OwnStepKeepsFine(w.g, p, proc.base, step, a);
    }
  }

  lemma OthersStayFine(w: World, p: nat, step: Step, w': World, q: nat)
    requires Inv(w) && Next(w, Moves(p, step)) == Some(w') && q < |w.procs| && q != p
    ensures Fine(w'.g, q, w'.procs[q])
  {
    var proc, other := w.procs[p], w.procs[q];
    assert Fine(w.g, p, proc) && Fine(w.g, q, other);
    var a := Act(w.g, p, Top(proc), step).value;
    if proc.nested.Some? {
      NestedStepIsHarmless(w.g, p, proc.nested.value, proc.base, step, a);
      NestedStepKeepsOwns(w.g, p, proc.nested.value, proc.base, step, a, q, other.base);
    } else {
      if MovesStart(step) || MovesCoord(step) {
        LockStepKeepsOthers(w.g, p, proc.base, step, a, q, other.base);
      } else {
        PlainStepKeepsOthers(w.g, p, proc.base, step, a, q, other.base);
      }
      TurnsOnlyGrow(w.g, p, proc.base, step, a);
    }
  }

  lemma TurnsOnlyGrow(g: Shared, p: nat, f: Frame, step: Step, a: Acted)
    requires Act(g, p, f, step) == Some(a)
    ensures |a.g.turns| >= |g.turns|
    ensures a.g.coord == g.coord || a.g.coord == Some(p) || a.g.coord.None?
    ensures a.g.revert == g.revert || a.g.revert == Some(p) || a.g.revert.None?
    ensures forall s :: s in a.g.starts ==> (s in g.starts && a.g.starts[s] == g.starts[s]) || a.g.starts[s] == p
  {
  }

  lemma StepKeepsInv(w: World, e: Event, w': World)
    requires Inv(w) && Next(w, e) == Some(w')
    ensures Inv(w')
  {
    match e
    case Moves(p, step) =>
      TurnsOnlyGrow(w.g, p, Top(w.procs[p]), step, Act(w.g, p, Top(w.procs[p]), step).value);
      MoverStaysFine(w, p, step, w');
      forall q | 0 <= q < |w.procs| ensures Fine(w'.g, q, w'.procs[q]) {
        if q != p {
          OthersStayFine(w, p, step, w', q);
        }
      }
    case TurnEnds(turn, recorded) =>
      forall q | 0 <= q < |w.procs| ensures Fine(w'.g, q, w'.procs[q]) {
        assert Fine(w.g, q, w.procs[q]);
        EndKeepsOwns(w.g, turn, Over(w.g.turns[turn], recorded), q, w.procs[q].base);
      }
  }

  lemma {:induction false} RunKeepsInv(run: seq<World>, events: seq<Event>, k: nat)
    requires IsRun(run, events) && k < |run|
    ensures Inv(run[k])
  {
    if k > 0 {
      RunKeepsInv(run, events, k - 1);
      StepKeepsInv(run[k - 1], events[k - 1], run[k]);
    }
  }
}
