/** The in-memory response cache and the model wrapper around it (modelutil/cache.go).
    The cache drops expired entries lazily, one at a time; what callers see is decided by
    the log of stored responses alone. */
module ResponseCache {
  import opened Transcript

  /** A response stored under a key at a time. */
  datatype Stored<K, R> = Stored(key: K, response: R, at: nat)

  /** The last response stored under `key`. */
  function Latest<K(==), R>(log: seq<Stored<K, R>>, key: K): (r: Option<Stored<K, R>>) {
    if log == [] then None
    else if log[|log| - 1].key == key then Some(log[|log| - 1])
    else Latest(log[..|log| - 1], key)
  }

  predicate Live(ttl: nat, at: nat, now: nat) {
    ttl == 0 || now - at <= ttl
  }

  /** What a lookup finds at time `now`: the last response stored under the key, unless
      it has expired. */
  function Lookup<K(==), R>(log: seq<Stored<K, R>>, ttl: nat, key: K, now: nat): (r: Option<R>) {
    match Latest(log, key)
    case Some(s) => if Live(ttl, s.at, now) then Some(s.response) else None
    case None => None
  }

  ghost predicate Ordered<K, R>(log: seq<Stored<K, R>>, clock: nat) {
    forall i :: 0 <= i < |log| ==> log[i].at <= clock
  }

  /** Storing under one key says nothing about the others. */
  lemma LatestAfter<K, R>(log: seq<Stored<K, R>>, s: Stored<K, R>, key: K)
    ensures Latest(log + [s], key) == if key == s.key then Some(s) else Latest(log, key)
  {
    assert (log + [s])[..|log|] == log;
  }

  /** Whatever a lookup finds was stored, at an index after which nothing was stored under
      that key, and is no older than the time to live; and it finds nothing only if there
      is no such entry. */
  lemma {:induction false} LookupIsLastLive<K, R>(log: seq<Stored<K, R>>, ttl: nat, key: K, now: nat)
    ensures Lookup(log, ttl, key, now).Some? <==>
              exists i :: LastUnder(log, key, i) && (ttl > 0 ==> now <= log[i].at + ttl)
    ensures forall i :: LastUnder(log, key, i) && (ttl > 0 ==> now <= log[i].at + ttl) ==>
              Lookup(log, ttl, key, now) == Some(log[i].response)
  {
    LatestIsLast(log, key);
    if i :| LastUnder(log, key, i) {
      forall j | LastUnder(log, key, j) ensures i == j {
      }
    }
  }

  ghost predicate LastUnder<K, R>(log: seq<Stored<K, R>>, key: K, i: int) {
    0 <= i < |log| && log[i].key == key && forall j :: i < j < |log| ==> log[j].key != key
  }

  lemma {:induction false} LatestIsLast<K, R>(log: seq<Stored<K, R>>, key: K)
    ensures Latest(log, key).Some? <==> exists i :: LastUnder(log, key, i)
    ensures forall i :: LastUnder(log, key, i) ==> Latest(log, key) == Some(log[i])
  {
    if log != [] {
      var n := |log| - 1;
      if log[n].key == key {
        assert LastUnder(log, key, n);
      } else {
        LatestIsLast(log[..n], key);
        forall i | LastUnder(log, key, i) ensures LastUnder(log[..n], key, i) {
        }
        forall i | LastUnder(log[..n], key, i) ensures LastUnder(log, key, i) {
        }
      }
    }
  }

  datatype Entry<R> = Entry(response: R, createdAt: nat)

  /** MemoryCache. `log` and `clock` record what was stored and when the cache was last used. */
  class MemoryCache<K(==,!new), R> {
    var entries: map<K, Entry<R>>
    const ttl: nat
    ghost var log: seq<Stored<K, R>>
    ghost var clock: nat

    /** Every entry is the last one stored under its key, and an entry that is gone had
        expired. */
    ghost predicate Valid()
      reads this
    {
      && Ordered(log, clock)
      && (forall k :: k in entries ==> Latest(log, k) == Some(Stored(k, entries[k].response, entries[k].createdAt)))
      && (forall k :: k !in entries && Latest(log, k).Some? ==> !Live(ttl, Latest(log, k).value.at, clock))
    }

    constructor (ttl: nat)
      ensures Valid() && log == [] && this.ttl == ttl && clock == 0
    {
      this.ttl := ttl;
      entries, log, clock := map[], [], 0;
    }

    method Get(key: K, now: nat) returns (r: Option<R>)
      requires Valid() && clock <= now
      modifies this
      ensures Valid() && log == old(log) && clock == now
      ensures r == Lookup(log, ttl, key, now)
    {
      clock := now;
      if key !in entries {
        return None;
      }
      var entry := entries[key];
      if ttl > 0 && now - entry.createdAt > ttl {
        entries := entries - {key};
        return None;
      }
      r := Some(entry.response);
    }

    method Set(key: K, response: R, now: nat)
      requires Valid() && clock <= now
      modifies this
      ensures Valid() && clock == now
      ensures log == old(log) + [Stored(key, response, now)]
    {
      var s := Stored(key, response, now);
      forall k ensures Latest(log + [s], k) == if k == key then Some(s) else Latest(log, k) {
        LatestAfter(log, s, k);
      }
      entries := entries[key := Entry(response, now)];
      log, clock := log + [s], now;
    }
  }

  /** One request to the cached model: its key (None when none could be computed), what
      the wrapped model would answer (None for an error), and the times of the lookup and
      of the store. */
  datatype Asked<K, R> = Asked(key: Option<K>, answer: Option<R>, now: nat, later: nat)

  /** Only an answer to a keyed request that found nothing is stored. */
  function Record<K(==), R>(log: seq<Stored<K, R>>, ttl: nat, r: Asked<K, R>): (log': seq<Stored<K, R>>)
    ensures log <= log' && |log'| <= |log| + 1
    ensures r.answer.None? ==> log' == log
  {
    if r.key.Some? && r.answer.Some? && Lookup(log, ttl, r.key.value, r.now).None?
    then log + [Stored(r.key.value, r.answer.value, r.later)] else log
  }

  /** CachedModel.Request. A live entry is returned without asking the model; a
      failed request stores nothing. */
  method CachedRequest<K(!new), R>(cache: MemoryCache<K, R>, key: Option<K>, answer: Option<R>, now: nat, later: nat)
    returns (r: Option<R>, asked: bool)
    requires cache.Valid() && cache.clock <= now <= later
    modifies cache
    ensures cache.Valid()
    ensures cache.clock <= later
    ensures asked <==> key.None? || Lookup(old(cache.log), cache.ttl, key.value, now).None?
    ensures r == if asked then answer else Lookup(old(cache.log), cache.ttl, key.value, now)
    ensures cache.log == Record(old(cache.log), cache.ttl, Asked(key, answer, now, later))
  {
    if key.None? {
      return answer, true;
    }
    r := cache.Get(key.value, now);
    if r.Some? {
      return r, false;
    }
    r, asked := answer, true;
    if answer.Some? {
      cache.Set(key.value, answer.value, later);
    }
  }

  /* ----- any number of requests at once ----- */

  /** Where a request stands: the model is being asked; it has answered, and the answer is
      about to be stored; or the request has returned, from the cache or not. */
  datatype Phase<K, R> = Asking(key: Option<K>) | Replied(under: K, response: R) | Returned(r: Option<R>, hit: bool)

  /** The three atomic steps of a request: Get, the model's answer, Set. */
  datatype Event<K, R> =
    | Looks(caller: nat, sought: Option<K>, now: nat)
    | Hears(caller: nat, answer: Option<R>)
    | Stores(caller: nat, now: nat)

  datatype System<K, R> = System(log: seq<Stored<K, R>>, calls: map<nat, Phase<K, R>>, clock: nat)

  function Next<K(==), R>(s: System<K, R>, ttl: nat, e: Event<K, R>): Option<System<K, R>> {
    match e
    case Looks(c, key, now) =>
      if c in s.calls || now < s.clock then None
      else
        var found := if key.Some? then Lookup(s.log, ttl, key.value, now) else None;
        Some(System(s.log, s.calls[c := if found.Some? then Returned(found, true) else Asking(key)], now))
    case Hears(c, answer) =>
      if c !in s.calls || !s.calls[c].Asking? then None
      else if answer.Some? && s.calls[c].key.Some?
        then Some(s.(calls := s.calls[c := Replied(s.calls[c].key.value, answer.value)]))
      else Some(s.(calls := s.calls[c := Returned(answer, false)]))
    case Stores(c, now) =>
      if c !in s.calls || !s.calls[c].Replied? || now < s.clock then None
      else
        var p := s.calls[c];
        Some(System(s.log + [Stored(p.under, p.response, now)], s.calls[c := Returned(Some(p.response), false)], now))
  }

  ghost predicate IsRun<K(!new), R(!new)>(ttl: nat, run: seq<System<K, R>>, events: seq<Event<K, R>>) {
    && |run| == |events| + 1 && run[0].log == [] && run[0].calls == map[]
    && forall k :: 0 <= k < |events| ==> Next(run[k], ttl, events[k]) == Some(run[k + 1])
  }

  /** Caller c looked for `key` at event i, and the model gave it `r` at event j. */
  predicate Heard<K(==), R(==)>(events: seq<Event<K, R>>, c: nat, key: K, r: R, i: nat, j: nat) {
    && i < j < |events| && events[j] == Hears(c, Some(r))
    && events[i].Looks? && events[i].caller == c && events[i].sought == Some(key)
  }

  /** ... and it stored that answer at event l, at time `at`. */
  predicate Kept<K(==), R(==)>(events: seq<Event<K, R>>, c: nat, s: Stored<K, R>, i: nat, j: nat, l: nat) {
    Heard(events, c, s.key, s.response, i, j) && j < l < |events| && events[l] == Stores(c, s.at)
  }

  /** Whoever is asking for a key has looked for it. */
  lemma {:induction false} AskingLooked<K(!new), R(!new)>(ttl: nat, run: seq<System<K, R>>, events: seq<Event<K, R>>,
      k: nat, c: nat) returns (i: nat)
    requires IsRun(ttl, run, events) && k < |run| && c in run[k].calls && run[k].calls[c].Asking?
    ensures i < k && events[i].Looks? && events[i].caller == c && events[i].sought == run[k].calls[c].key
  {
    assert Next(run[k - 1], ttl, events[k - 1]) == Some(run[k]);
    if c in run[k - 1].calls && run[k - 1].calls[c] == run[k].calls[c] {
      i := AskingLooked(ttl, run, events, k - 1, c);
    } else {
      i := k - 1;
    }
  }

  /** Whoever is about to store an answer has heard it from the model. */
  lemma {:induction false} RepliedHeard<K(!new), R(!new)>(ttl: nat, run: seq<System<K, R>>, events: seq<Event<K, R>>,
      k: nat, c: nat) returns (i: nat, j: nat)
    requires IsRun(ttl, run, events) && k < |run| && c in run[k].calls && run[k].calls[c].Replied?
    ensures j < k && Heard(events, c, run[k].calls[c].under, run[k].calls[c].response, i, j)
  {
    assert Next(run[k - 1], ttl, events[k - 1]) == Some(run[k]);
    if c in run[k - 1].calls && run[k - 1].calls[c] == run[k].calls[c] {
      i, j := RepliedHeard(ttl, run, events, k - 1, c);
    } else {
      i := AskingLooked(ttl, run, events, k - 1, c);
      j := k - 1;
    }
  }

  /** Every stored response is one the model gave to a request with that key, stored by it. */
  lemma {:induction false} StoredWasAnswered<K(!new), R(!new)>(ttl: nat, run: seq<System<K, R>>,
      events: seq<Event<K, R>>, k: nat, n: nat)
    returns (c: nat, i: nat, j: nat, l: nat)
    requires IsRun(ttl, run, events) && k < |run| && n < |run[k].log|
    ensures l < k && Kept(events, c, run[k].log[n], i, j, l)
  {
    assert Next(run[k - 1], ttl, events[k - 1]) == Some(run[k]);
    if n < |run[k - 1].log| {
      c, i, j, l := StoredWasAnswered(ttl, run, events, k - 1, n);
    } else {
      c, l := events[k - 1].caller, k - 1;
      i, j := RepliedHeard(ttl, run, events, k - 1, c);
    }
  }

  /** However requests interleave between looking and storing, a hit returns the answer that
      the model gave to an earlier request with the same key and that was stored no longer
      ago than the time to live. */
  lemma HitWasAnswered<K(!new), R(!new)>(ttl: nat, run: seq<System<K, R>>, events: seq<Event<K, R>>, k: nat)
      returns (c: nat, i: nat, j: nat, l: nat)
    requires IsRun(ttl, run, events) && k < |events| && events[k].Looks? && events[k].caller in run[k + 1].calls
    requires run[k + 1].calls[events[k].caller].Returned?
    ensures var hit := run[k + 1].calls[events[k].caller].r;
      && hit.Some? && events[k].sought.Some? && l < k
      && events[l].Stores? && (ttl > 0 ==> events[k].now <= events[l].now + ttl)
      && Kept(events, c, Stored(events[k].sought.value, hit.value, events[l].now), i, j, l)
  {
    assert Next(run[k], ttl, events[k]) == Some(run[k + 1]);
    var key, now := events[k].sought.value, events[k].now;
    LookupIsLastLive(run[k].log, ttl, key, now);
    var n :| LastUnder(run[k].log, key, n) && Live(ttl, run[k].log[n].at, now);
    c, i, j, l := StoredWasAnswered(ttl, run, events, k, n);
  }

  /** The last response stored under the key is no older than the time to live. */
  ghost predicate HasLive<K, R>(log: seq<Stored<K, R>>, ttl: nat, key: K, now: nat) {
    exists n :: LastUnder(log, key, n) && (ttl > 0 ==> now <= log[n].at + ttl)
  }

  /** A request returns from the cache exactly when the last response stored under its key
      has not expired. */
  lemma HitExactlyWhen<K(!new), R(!new)>(ttl: nat, run: seq<System<K, R>>, events: seq<Event<K, R>>, k: nat)
    requires IsRun(ttl, run, events) && k < |events| && events[k].Looks?
    ensures var c, key, log := events[k].caller, events[k].sought, run[k].log;
      && c in run[k + 1].calls && run[k + 1].log == log
      && (run[k + 1].calls[c].Returned? <==> key.Some? && HasLive(log, ttl, key.value, events[k].now))
      && (!run[k + 1].calls[c].Returned? ==> run[k + 1].calls[c] == Asking(key))
  {
    assert Next(run[k], ttl, events[k]) == Some(run[k + 1]);
    if events[k].sought.Some? {
      LookupIsLastLive(run[k].log, ttl, events[k].sought.value, events[k].now);
    }
  }

  /** A keyed answer is not lost: the request that heard it has yet to store it, or has
      stored it and returned it. */
  lemma {:induction false} AnswerIsKept<K(!new), R(!new)>(ttl: nat, run: seq<System<K, R>>, events: seq<Event<K, R>>,
      c: nat, key: K, r: R, j: nat, k: nat)
    requires IsRun(ttl, run, events) && j < k < |run| && events[j] == Hears(c, Some(r))
    requires c in run[j].calls && run[j].calls[c] == Asking(Some(key))
    ensures c in run[k].calls
    ensures run[k].calls[c] == Replied(key, r) ||
      (run[k].calls[c] == Returned(Some(r), false) && exists n, at :: StoredAt(run[k].log, n, key, r, at))
    decreases k
  {
    assert Next(run[k - 1], ttl, events[k - 1]) == Some(run[k]);
    if j + 1 < k {
      AnswerIsKept(ttl, run, events, c, key, r, j, k - 1);
      if run[k - 1].calls[c] != Replied(key, r) {
        var n, at :| StoredAt(run[k - 1].log, n, key, r, at);
        assert StoredAt(run[k].log, n, key, r, at);
      } else if run[k].calls[c] != Replied(key, r) {
        assert StoredAt(run[k].log, |run[k].log| - 1, key, r, events[k - 1].now);
      }
    }
  }

  predicate StoredAt<K(==), R(==)>(log: seq<Stored<K, R>>, n: nat, key: K, r: R, at: nat) {
    n < |log| && log[n] == Stored(key, r, at)
  }

  /** The log grows only by a request that the model has answered: one that fails, or has
      no key, stores nothing. */
  lemma {:induction false} FailureStoresNothing<K(!new), R(!new)>(ttl: nat, run: seq<System<K, R>>,
      events: seq<Event<K, R>>, k: nat, l: nat)
    requires IsRun(ttl, run, events) && k < |events| && l < |events| && events[k].Hears? && events[k].answer.None?
    ensures events[l].Stores? ==> events[l].caller != events[k].caller
  {
    var c := events[k].caller;
    assert Next(run[k], ttl, events[k]) == Some(run[k + 1]);
    assert Next(run[l], ttl, events[l]) == Some(run[l + 1]);
    if events[l].Stores? && events[l].caller == c {
      if l < k {
        ReturnedStays(ttl, run, events, l + 1, k, c);
      } else {
        ReturnedStays(ttl, run, events, k + 1, l, c);
      }
    }
  }

  lemma {:induction false} ReturnedStays<K(!new), R(!new)>(ttl: nat, run: seq<System<K, R>>, events: seq<Event<K, R>>,
      j: nat, k: nat, c: nat)
    requires IsRun(ttl, run, events) && j <= k < |run| && c in run[j].calls && run[j].calls[c].Returned?
    ensures c in run[k].calls && run[k].calls[c] == run[j].calls[c]
    decreases k
  {
    if j < k {
      ReturnedStays(ttl, run, events, j, k - 1, c);
      assert Next(run[k - 1], ttl, events[k - 1]) == Some(run[k]);
    }
  }
}
