/** Loaded threads, subscriptions and idle timers (appserver/thread_discovery.go). Three
    collections guarded by one mutex; a timer that fires late still calls back, so a
    callback carries the entry it was armed with. */
module ThreadUnloading {
  type ThreadId = string

  /** What clients and timers do, one mutex section each. */
  datatype Op = Load(id: ThreadId) | Unload(id: ThreadId) | Unsubscribe(id: ThreadId) | Expire(id: ThreadId, timer: nat)

  /** One thread's life: what the three collections say about it together. */
  datatype Watch = NotLoaded | Subscribed | Idle(timer: nat) | Lingering

  /** What `op` does to the thread it names; `n` is fresh, and `timers` is off when idle
      threads are never unloaded (threadIdleUnloadAfter < 0). */
  function Advance(w: Watch, op: Op, n: nat, timers: bool): (w': Watch) {
    match op
    case Load(_) => Subscribed
    case Unload(_) => NotLoaded
    case Unsubscribe(_) => if w != Subscribed then w else if timers then Idle(n) else Lingering
    case Expire(_, timer) => if w == Idle(timer) then NotLoaded else w
  }

  /** A thread's state after a history: no other thread's operations matter. */
  function After(ops: seq<Op>, id: ThreadId, timers: bool): (w: Watch) {
    if ops == [] then NotLoaded
    else
      var n := |ops| - 1;
      if ops[n].id == id then Advance(After(ops[..n], id, timers), ops[n], n, timers) else After(ops[..n], id, timers)
  }

  /** The thread was unsubscribed by operation k, and nothing has loaded, unloaded or
      expired it since. */
  ghost predicate IdleSince(ops: seq<Op>, id: ThreadId, k: int, timers: bool) {
    && 0 <= k < |ops| && timers
    && ops[k] == Unsubscribe(id) && After(ops[..k], id, timers) == Subscribed
    && forall j :: k < j < |ops| && ops[j].id == id ==> ops[j].Unsubscribe? || (ops[j].Expire? && ops[j].timer != k)
  }

  /** A timer is a thread's live timer exactly if it was armed by the unsubscribe since
      which the thread has been idle. A stale timer, one armed before a later load or
      unload, is therefore never live again. */
  lemma {:induction false} LiveTimer(ops: seq<Op>, id: ThreadId, k: nat, timers: bool)
    ensures After(ops, id, timers) == Idle(k) <==> IdleSince(ops, id, k, timers)
    decreases |ops|
  {
    if ops != [] {
      var n := |ops| - 1;
      var before := ops[..n];
      LiveTimer(before, id, k, timers);
      IdleBound(before, id, timers);
      if k < n {
        assert before[..k] == ops[..k];
      }
      if IdleSince(before, id, k, timers) && After(ops, id, timers) == Idle(k) {
        assert IdleSince(ops, id, k, timers);
      }
      if IdleSince(ops, id, k, timers) && k < n {
        assert IdleSince(before, id, k, timers);
      }
    }
  }

  lemma {:induction false} IdleBound(ops: seq<Op>, id: ThreadId, timers: bool)
    ensures After(ops, id, timers).Idle? ==> timers && After(ops, id, timers).timer < |ops|
    ensures After(ops, id, timers).Lingering? ==> !timers
  {
    if ops != [] {
      IdleBound(ops[..|ops| - 1], id, timers);
    }
  }

  lemma {:induction false} AfterMore(ops: seq<Op>, op: Op, id: ThreadId, timers: bool)
    ensures After(ops + [op], id, timers) ==
      if op.id == id then Advance(After(ops, id, timers), op, |ops|, timers) else After(ops, id, timers)
  {
    assert (ops + [op])[..|ops|] == ops;
  }

  /** The server's fields. `ops` is the history; `next` gives every armed entry an identity
      of its own. */
  class ThreadTable {
    var loaded: set<ThreadId>
    var subscribed: set<ThreadId>
    var idleUnload: map<ThreadId, nat>
    var next: nat
    const timers: bool
    ghost var ops: seq<Op>

    ghost predicate Shows(id: ThreadId, w: Watch)
      reads this
    {
      && (id in loaded <==> w != NotLoaded)
      && (id in subscribed <==> w == Subscribed)
      && (id in idleUnload <==> w.Idle?)
      && (w.Idle? ==> idleUnload[id] == w.timer)
    }

    /** Each thread is in the state its own history puts it in. */
    ghost predicate Valid()
      reads this
    {
      next == |ops| && forall id :: Shows(id, After(ops, id, timers))
    }

    constructor (timers: bool)
      ensures Valid() && ops == [] && this.timers == timers
    {
      this.timers := timers;
      loaded, subscribed, idleUnload, next, ops := {}, {}, map[], 0, [];
    }

    /** Subscribed threads are loaded, and the armed timers are those of the loaded threads
        without a subscriber. */
    lemma Consistent()
      requires Valid()
      ensures subscribed <= loaded
      ensures idleUnload.Keys == if timers then loaded - subscribed else {}
    {
      forall id ensures id in subscribed ==> id in loaded
        ensures id in idleUnload <==> timers && id in loaded && id !in subscribed
      {
        IdleBound(ops, id, timers);
        assert Shows(id, After(ops, id, timers));
      }
    }

    /** markThreadLoadedID. */
    method MarkLoaded(id: ThreadId)
      requires Valid()
      modifies this
      ensures Valid() && ops == if id == "" then old(ops) else old(ops) + [Load(id)]
    {
      if id == "" {
        return;
      }
      loaded, subscribed := loaded + {id}, subscribed + {id};
      idleUnload := idleUnload - {id};
      Log(Load(id));
    }

    /** markThreadUnloaded. */
    method MarkUnloaded(id: ThreadId)
      requires Valid()
      modifies this
      ensures Valid() && ops == if id == "" then old(ops) else old(ops) + [Unload(id)]
    {
      if id == "" {
        return;
      }
      loaded, subscribed := loaded - {id}, subscribed - {id};
      idleUnload := idleUnload - {id};
      Log(Unload(id));
    }

    /** unsubscribeThread: "notLoaded" when not found, else "unsubscribed" when done. */
    method UnsubscribeThread(id: ThreadId) returns (found: bool, done: bool)
      requires Valid()
      modifies this
      ensures Valid() && ops == if id == "" then old(ops) else old(ops) + [Unsubscribe(id)]
      ensures found <==> id != "" && After(old(ops), id, timers) != NotLoaded
      ensures done <==> id != "" && After(old(ops), id, timers) == Subscribed
    {
      if id == "" {
        return false, false;
      }
      assert Shows(id, After(ops, id, timers));
      found, done := id in loaded, id in loaded && id in subscribed;
      if done {
        subscribed := subscribed - {id};
        if timers {
          idleUnload := idleUnload[id := next];
        }
      }
      Log(Unsubscribe(id));
    }

    /** expireThreadIdleUnload: it closes the thread exactly if the thread has been idle
        since this very timer was armed, so the two checks nested in it always pass. */
    method ExpireIdle(id: ThreadId, timer: nat) returns (closed: bool)
      requires Valid()
      modifies this
      ensures Valid() && ops == if id == "" then old(ops) else old(ops) + [Expire(id, timer)]
      ensures closed <==> id != "" && IdleSince(old(ops), id, timer, timers)
    {
      if id == "" {
        return false;
      }
      LiveTimer(ops, id, timer, timers);
      assert Shows(id, After(ops, id, timers));
      closed := false;
      if id in idleUnload && idleUnload[id] == timer {
        idleUnload := idleUnload - {id};
        assert id !in subscribed && id in loaded;
        if id !in subscribed {
          if id in loaded {
            loaded := loaded - {id};
            closed := true;
          }
        }
      }
      Log(Expire(id, timer));
    }

    /** Records the operation just done, and uses up an identity. */
    method Log(op: Op)
      requires next == |ops|
      requires forall id :: id != op.id ==> Shows(id, After(ops, id, timers))
      requires Shows(op.id, Advance(After(ops, op.id, timers), op, |ops|, timers))
      modifies this`next, this`ops
      ensures Valid() && ops == old(ops) + [op]
    {
      forall id ensures Shows(id, After(ops + [op], id, timers)) {
        AfterMore(ops, op, id, timers);
      }
      next, ops := next + 1, ops + [op];
      assert forall id :: old(Shows(id, After(ops + [op], id, timers))) ==> Shows(id, After(ops, id, timers));
    }
  }
}
