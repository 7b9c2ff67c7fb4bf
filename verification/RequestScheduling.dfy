/** The request scheduler (appserver/scheduler.go): a bounded number of leases, and one
    lock per serial scope. Each channel operation is one atomic step, and steps of any
    number of leases interleave freely. */
module RequestScheduling {
  import opened Transcript

  type Id = nat
  type Scope = string

  /** Idle until Run is called; Waiting for the scope lock; Running the body; Unwinding
      when only the deferred Release is left. */
  datatype Phase = Idle | Waiting | Running | Unwinding | Done

  /** `freed` counts how often the lease took its token back out of the slot channel. */
  datatype Lease = Lease(scope: Option<Scope>, phase: Phase, released: bool, freed: nat)

  /** `slots` is the fill of the slot channel, `locks` the scope channels that are full. */
  datatype State = State(limit: nat, slots: nat, locks: set<Scope>, leases: map<Id, Lease>)

  function NewScheduler(limit: int): (s: State)
    ensures s.limit == 64 || s.limit == limit > 0
    ensures limit > 0 ==> s.limit == limit
  {
    State(if limit <= 0 then 64 else limit, 0, {}, map[])
  }

  /** TryAcquire(scope), Run's channel operations, and Release by anyone holding the lease. */
  datatype Step =
    | Acquire(id: Id, scope: Option<Scope>)
    | Run(id: Id)
    | Lock(id: Id)
    | Cancel(id: Id)
    | Finish(id: Id)
    | Unwind(id: Id)
    | Release(id: Id)

  function Freed(s: State, id: Id): (s': State)
    requires id in s.leases
  {
    var l := s.leases[id];
    if l.released then s
    else s.(slots := if s.slots > 0 then s.slots - 1 else 0,
      leases := s.leases[id := l.(released := true, freed := l.freed + 1)])
  }

  function Moved(s: State, id: Id, phase: Phase): (s': State)
    requires id in s.leases
  {
    s.(leases := s.leases[id := s.leases[id].(phase := phase)])
  }

  /** A receive on the slot channel must find a token; FreeingNeverBlocks shows that it does. */
  predicate Enabled(s: State, step: Step) {
    match step
    case Acquire(id, _) => id !in s.leases && s.slots < s.limit
    case Run(id) => id in s.leases && s.leases[id].phase == Idle
    case Lock(id) => id in s.leases && s.leases[id].phase == Waiting && s.leases[id].scope.Some? &&
      s.leases[id].scope.value !in s.locks
    case Cancel(id) => id in s.leases && s.leases[id].phase == Waiting
    case Finish(id) => id in s.leases && s.leases[id].phase == Running
    case Unwind(id) => id in s.leases && s.leases[id].phase == Unwinding && (s.leases[id].released || s.slots > 0)
    case Release(id) => id in s.leases && (s.leases[id].released || s.slots > 0)
  }

  function Next(s: State, step: Step): (s': State)
    requires Enabled(s, step)
  {
    match step
    case Acquire(id, scope) => s.(slots := s.slots + 1, leases := s.leases[id := Lease(scope, Idle, false, 0)])
    case Run(id) => Moved(s, id, if s.leases[id].scope.None? then Running else Waiting)
    case Lock(id) => Moved(s, id, Running).(locks := s.locks + {s.leases[id].scope.value})
    case Cancel(id) => Moved(s, id, Unwinding)
    case Finish(id) =>
      var u := Moved(s, id, Unwinding);
      if s.leases[id].scope.Some? then u.(locks := s.locks - {s.leases[id].scope.value}) else u
    case Unwind(id) => Moved(Freed(s, id), id, Done)
    case Release(id) => Freed(s, id)
  }

  ghost predicate Reachable(s: State, steps: seq<Step>, s': State)
    decreases |steps|
  {
    if steps == [] then s == s'
    else Enabled(s, steps[0]) && Reachable(Next(s, steps[0]), steps[1..], s')
  }

  /* ----- safety ----- */

  function Outstanding(s: State): (ids: set<Id>) {
    set id | id in s.leases && !s.leases[id].released
  }

  predicate Holds(s: State, id: Id, scope: Scope) {
    id in s.leases && s.leases[id].phase == Running && s.leases[id].scope == Some(scope)
  }

  ghost predicate Counted(s: State) {
    && s.slots == |Outstanding(s)| <= s.limit
    && forall id :: id in s.leases ==> s.leases[id].freed == if s.leases[id].released then 1 else 0
  }

  /** A scope's channel is full exactly while one lease of that scope runs. */
  ghost predicate Exclusive(s: State) {
    && (forall id, scope :: Holds(s, id, scope) ==> scope in s.locks)
    && (forall scope :: scope in s.locks ==> exists id :: Holds(s, id, scope))
    && (forall i, j, scope :: Holds(s, i, scope) && Holds(s, j, scope) ==> i == j)
  }

  /** Who waits has something to wait for, and who is done has been freed. */
  ghost predicate Phased(s: State) {
    forall id :: id in s.leases ==>
      && (s.leases[id].phase == Waiting ==> s.leases[id].scope.Some?)
      && (s.leases[id].phase == Done ==> s.leases[id].released)
  }

  ghost predicate Safe(s: State) {
    Counted(s) && Exclusive(s) && Phased(s)
  }

  lemma {:induction false} FreedCounts(s: State, id: Id)
    requires Counted(s) && id in s.leases
    ensures Counted(Freed(s, id))
    ensures !s.leases[id].released ==> s.slots > 0
  {
    if !s.leases[id].released {
      assert id in Outstanding(s);
      assert Outstanding(Freed(s, id)) == Outstanding(s) - {id};
    }
  }

  lemma {:induction false} MovedCounts(s: State, id: Id, phase: Phase)
    requires Counted(s) && id in s.leases
    ensures Counted(Moved(s, id, phase))
  {
    assert Outstanding(Moved(s, id, phase)) == Outstanding(s);
  }

  lemma {:induction false} StepCounts(s: State, step: Step)
    requires Counted(s) && Enabled(s, step)
    ensures Counted(Next(s, step))
  {
    match step
    case Acquire(id, _) =>
      assert Outstanding(Next(s, step)) == Outstanding(s) + {id};
    case Run(id) => MovedCounts(s, id, Next(s, step).leases[id].phase);
    case Lock(id) => MovedCounts(s, id, Running);
      assert Outstanding(Next(s, step)) == Outstanding(s);
    case Cancel(id) => MovedCounts(s, id, Unwinding);
    case Finish(id) => MovedCounts(s, id, Unwinding);
      assert Outstanding(Next(s, step)) == Outstanding(s);
    case Unwind(id) => FreedCounts(s, id); MovedCounts(Freed(s, id), id, Done);
    case Release(id) => FreedCounts(s, id);
  }

  lemma {:induction false} StepExcludes(s: State, step: Step)
    requires Exclusive(s) && Phased(s) && Enabled(s, step)
    ensures Exclusive(Next(s, step)) && Phased(Next(s, step))
  {
    var s' := Next(s, step);
    forall id, scope | Holds(s', id, scope)
      ensures Holds(s, id, scope) || (step == Lock(id) && scope !in s.locks)
      ensures scope in s'.locks
    {
      assert Holds(s, id, scope) || step == Lock(id);
      assert step.Finish? ==> !Holds(s, step.id, scope);
    }
    forall scope | scope in s'.locks ensures exists id :: Holds(s', id, scope) {
      if scope in s.locks {
        var id :| Holds(s, id, scope);
        assert Holds(s', id, scope);
      } else {
        assert Holds(s', step.id, scope);
      }
    }
  }

  /** In every state any interleaving reaches: at most `limit` leases are outstanding, no
      lease has freed its slot twice, a finished one has freed it, and no two leases of
      one scope run their bodies at the same time. */
  lemma {:induction false} SchedulerIsSafe(s: State, steps: seq<Step>, s': State)
    requires Safe(s) && Reachable(s, steps, s')
    ensures Safe(s')
    decreases |steps|
  {
    if steps != [] {
      StepCounts(s, steps[0]);
      StepExcludes(s, steps[0]);
      SchedulerIsSafe(Next(s, steps[0]), steps[1..], s');
    }
  }

  lemma {:induction false} FreshIsSafe(limit: int)
    ensures Safe(NewScheduler(limit))
  {
    assert Outstanding(NewScheduler(limit)) == {};
  }

  /** Taking the token back never blocks, whatever path a lease ends on. */
  lemma {:induction false} FreeingNeverBlocks(s: State, id: Id)
    requires Safe(s) && id in s.leases
    ensures Enabled(s, Release(id)) && (s.leases[id].phase == Unwinding ==> Enabled(s, Unwind(id)))
  {
    FreedCounts(s, id);
  }

  /** A request is refused exactly when `limit` leases are outstanding. */
  lemma {:induction false} RefusedWhenFull(s: State, id: Id, scope: Option<Scope>)
    requires Safe(s) && id !in s.leases
    ensures Enabled(s, Acquire(id, scope)) <==> |Outstanding(s)| < s.limit
  {
  }

  /* ----- progress ----- */

  /** Leases inside Run. */
  predicate InRun(s: State, id: Id) {
    id in s.leases && s.leases[id].phase in {Waiting, Running, Unwinding}
  }

  /** The step of Run that lease `id` is at; nothing about it is a cancellation. */
  function OwnStep(s: State, id: Id): (step: Step)
    requires InRun(s, id)
    ensures step.id == id
  {
    match s.leases[id].phase
    case Waiting => Lock(id)
    case Running => Finish(id)
    case _ => Unwind(id)
  }

  /** A lease inside Run can take its own next step; or it waits for its scope's lock, and
      then the one lease that holds that lock, which is another one of the same scope, can. */
  lemma {:induction false} NoScopeDeadlock(s: State, id: Id) returns (able: Id)
    requires Safe(s) && InRun(s, id)
    ensures InRun(s, able) && Enabled(s, OwnStep(s, able))
    ensures able == id || (s.leases[id].phase == Waiting && s.leases[id].scope.Some? &&
      Holds(s, able, s.leases[id].scope.value))
  {
    var l := s.leases[id];
    able := id;
    if l.phase == Unwinding {
      FreeingNeverBlocks(s, id);
    } else if l.phase == Waiting && l.scope.value in s.locks {
      able :| Holds(s, able, l.scope.value);
    }
  }

  function Rank(p: Phase): (n: nat) {
    match p case Idle => 4 case Waiting => 3 case Running => 2 case Unwinding => 1 case Done => 0
  }

  /** Work left in the leases of `ids`. */
  ghost function Work(leases: map<Id, Lease>, ids: set<Id>): (n: nat)
    requires ids <= leases.Keys
  {
    if ids == {} then 0
    else var id :| id in ids; Rank(leases[id].phase) + Work(leases, ids - {id})
  }

  lemma {:induction false} WorkSplits(leases: map<Id, Lease>, ids: set<Id>, id: Id)
    requires id in ids && ids <= leases.Keys
    ensures Work(leases, ids) == Rank(leases[id].phase) + Work(leases, ids - {id})
    decreases ids
  {
    var first :| first in ids && Work(leases, ids) == Rank(leases[first].phase) + Work(leases, ids - {first});
    if first != id {
      WorkSplits(leases, ids - {first}, id);
      WorkSplits(leases, ids - {id}, first);
      assert ids - {first} - {id} == ids - {id} - {first};
    }
  }

  lemma {:induction false} WorkAgrees(a: map<Id, Lease>, b: map<Id, Lease>, ids: set<Id>)
    requires ids <= a.Keys && ids <= b.Keys
    requires forall id :: id in ids ==> a[id].phase == b[id].phase
    ensures Work(a, ids) == Work(b, ids)
    decreases ids
  {
    if ids != {} {
      var id :| id in ids;
      WorkSplits(a, ids, id);
      WorkSplits(b, ids, id);
      WorkAgrees(a, b, ids - {id});
    }
  }

  /** Every step of Run leaves less to do: no schedule goes on forever. */
  lemma {:induction false} RunStepsTerminate(s: State, step: Step)
    requires Enabled(s, step) && !step.Acquire? && !step.Release?
    ensures Work(Next(s, step).leases, Next(s, step).leases.Keys) < Work(s.leases, s.leases.Keys)
  {
    var s' := Next(s, step);
    assert s'.leases.Keys == s.leases.Keys;
    WorkSplits(s.leases, s.leases.Keys, step.id);
    WorkSplits(s'.leases, s.leases.Keys, step.id);
    WorkAgrees(s.leases, s'.leases, s.leases.Keys - {step.id});
  }

  /** Every lease that had entered Run in s has left it in s', with its slot freed. */
  ghost predicate Through(s: State, s': State) {
    && s'.leases.Keys == s.leases.Keys
    && forall id :: id in s.leases && s.leases[id].phase != Idle ==>
         s'.leases[id].phase == Done && s'.leases[id].released
  }

  lemma {:induction false} RunStep(s: State, id: Id) returns (step: Step)
    requires Safe(s) && InRun(s, id)
    ensures (step.Lock? || step.Finish? || step.Unwind?) && Enabled(s, step) && Safe(Next(s, step))
    ensures Work(Next(s, step).leases, Next(s, step).leases.Keys) < Work(s.leases, s.leases.Keys)
  {
    var able := NoScopeDeadlock(s, id);
    step := OwnStep(s, able);
    StepCounts(s, step);
    StepExcludes(s, step);
    RunStepsTerminate(s, step);
  }

  lemma {:induction false} ThroughAfter(s: State, step: Step, s': State)
    requires Enabled(s, step) && !step.Acquire? && Through(Next(s, step), s')
    ensures Through(s, s')
  {
    assert Next(s, step).leases.Keys == s.leases.Keys;
  }

  lemma {:induction false} NobodyInRun(s: State)
    requires Phased(s) && forall id :: !InRun(s, id)
    ensures Through(s, s)
  {
    forall id | id in s.leases && s.leases[id].phase != Idle ensures s.leases[id].phase == Done {
      assert !InRun(s, id);
    }
  }

  /** Only locking, finishing and unwinding: nobody is cancelled, acquired or released. */
  ghost predicate Uncancelled(steps: seq<Step>) {
    forall i :: 0 <= i < |steps| ==> steps[i].Lock? || steps[i].Finish? || steps[i].Unwind?
  }

  lemma {:induction false} OneMoreStep(s: State, step: Step, rest: seq<Step>, s': State)
    requires Enabled(s, step) && Reachable(Next(s, step), rest, s') && Uncancelled(rest)
    requires step.Lock? || step.Finish? || step.Unwind?
    ensures Reachable(s, [step] + rest, s') && Uncancelled([step] + rest)
  {
    assert ([step] + rest)[1..] == rest;
  }

  /** However far the leases have come, letting them move without cancelling anyone brings
      all of them through Run, with every slot of theirs free again. */
  lemma {:induction false} AllGetThrough(s: State) returns (steps: seq<Step>, s': State)
    requires Safe(s)
    ensures Reachable(s, steps, s') && Safe(s') && Through(s, s')
    ensures Uncancelled(steps)
    decreases Work(s.leases, s.leases.Keys)
  {
    if id :| InRun(s, id) {
      var step := RunStep(s, id);
      var rest;
      rest, s' := AllGetThrough(Next(s, step));
      steps := [step] + rest;
      OneMoreStep(s, step, rest, s');
      ThroughAfter(s, step, s');
    } else {
      steps, s' := [], s;
      NobodyInRun(s);
    }
  }
}
