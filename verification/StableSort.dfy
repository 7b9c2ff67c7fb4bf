/** A stable sort by an integer key, as sort.SliceStable promises one. */
module StableSort {
  /** Put x behind everything that is not greater. */
  function Insert<T>(key: T -> int, r: seq<T>, x: T): (r': seq<T>)
    ensures |r'| == |r| + 1
  {
    if r == [] then [x]
    else if key(x) < key(r[|r| - 1]) then Insert(key, r[..|r| - 1], x) + [r[|r| - 1]]
    else r + [x]
  }

  function Sort<T>(key: T -> int, xs: seq<T>): (r: seq<T>)
    ensures |r| == |xs|
  {
    if xs == [] then [] else Insert(key, Sort(key, xs[..|xs| - 1]), xs[|xs| - 1])
  }

  ghost predicate Sorted<T>(key: T -> int, r: seq<T>) {
    forall p, q :: 0 <= p < q < |r| ==> key(r[p]) <= key(r[q])
  }

  /** x stands somewhere in front of y. */
  ghost predicate Before<T>(r: seq<T>, x: T, y: T) {
    exists p, q :: 0 <= p < q < |r| && r[p] == x && r[q] == y
  }

  /** Where x lands. */
  lemma {:induction false} InsertPlaces<T>(key: T -> int, r: seq<T>, x: T) returns (k: nat)
    requires Sorted(key, r)
    ensures k <= |r| && Insert(key, r, x) == r[..k] + [x] + r[k..]
    ensures forall p :: 0 <= p < k ==> key(r[p]) <= key(x)
    ensures forall p :: k <= p < |r| ==> key(x) < key(r[p])
  {
    if r != [] && key(x) < key(r[|r| - 1]) {
      k := InsertPlaces(key, r[..|r| - 1], x);
      assert r[..|r| - 1][k..] + [r[|r| - 1]] == r[k..];
    } else {
      k := |r|;
      assert r[..k] == r && r[k..] == [];
    }
  }

  lemma InsertedAt<T>(r: seq<T>, x: T, k: nat, q: nat)
    requires k <= |r| && q <= |r|
    ensures (r[..k] + [x] + r[k..])[q] == if q < k then r[q] else if q == k then x else r[q - 1]
  {
  }

  lemma InsertSorts<T>(key: T -> int, r: seq<T>, x: T)
    requires Sorted(key, r)
    ensures Sorted(key, Insert(key, r, x))
  {
    var k := InsertPlaces(key, r, x);
    forall p, q | 0 <= p < q <= |r| ensures key(Insert(key, r, x)[p]) <= key(Insert(key, r, x)[q]) {
      InsertedAt(r, x, k, p);
      InsertedAt(r, x, k, q);
    }
  }

  lemma {:induction false} InsertMembers<T>(key: T -> int, r: seq<T>, x: T)
    ensures multiset(Insert(key, r, x)) == multiset(r) + multiset{x}
  {
    if r != [] && key(x) < key(r[|r| - 1]) {
      InsertMembers(key, r[..|r| - 1], x);
      assert r == r[..|r| - 1] + [r[|r| - 1]];
    }
  }

  lemma {:induction false} SortSorts<T>(key: T -> int, xs: seq<T>)
    ensures Sorted(key, Sort(key, xs))
  {
    if xs != [] {
      SortSorts(key, xs[..|xs| - 1]);
      InsertSorts(key, Sort(key, xs[..|xs| - 1]), xs[|xs| - 1]);
    }
  }

  lemma {:induction false} SortMembers<T>(key: T -> int, xs: seq<T>)
    ensures multiset(Sort(key, xs)) == multiset(xs)
  {
    if xs != [] {
      SortMembers(key, xs[..|xs| - 1]);
      InsertMembers(key, Sort(key, xs[..|xs| - 1]), xs[|xs| - 1]);
      assert xs == xs[..|xs| - 1] + [xs[|xs| - 1]];
    }
  }

  lemma InsertKeepsBefore<T>(key: T -> int, r: seq<T>, x: T, y: T, z: T)
    requires Sorted(key, r) && Before(r, y, z)
    ensures Before(Insert(key, r, x), y, z)
  {
    var k := InsertPlaces(key, r, x);
    var p, q :| 0 <= p < q < |r| && r[p] == y && r[q] == z;
    AroundKeepsBefore(r, x, k, p, q);
  }

  lemma AroundKeepsBefore<T>(r: seq<T>, x: T, k: nat, p: nat, q: nat)
    requires k <= |r| && p < q < |r|
    ensures Before(r[..k] + [x] + r[k..], r[p], r[q])
  {
    var p', q' := if p < k then p else p + 1, if q < k then q else q + 1;
    InsertedAt(r, x, k, p');
    InsertedAt(r, x, k, q');
  }

  lemma InsertIsPlaced<T>(key: T -> int, r: seq<T>, x: T, y: T)
    requires Sorted(key, r) && y in r
    ensures if key(x) < key(y) then Before(Insert(key, r, x), x, y) else Before(Insert(key, r, x), y, x)
  {
    var k := InsertPlaces(key, r, x);
    var p :| 0 <= p < |r| && r[p] == y;
    var r' := Insert(key, r, x);
    InsertedAt(r, x, k, k);
    if k <= p {
      InsertedAt(r, x, k, p + 1);
      assert r'[k] == x && r'[p + 1] == y;
    } else {
      InsertedAt(r, x, k, p);
      assert r'[p] == y && r'[k] == x;
    }
  }

  lemma SameMembers<T>(key: T -> int, xs: seq<T>, x: T)
    requires x in xs
    ensures x in Sort(key, xs)
  {
    SortMembers(key, xs);
    assert x in multiset(xs);
  }

  /** The sort is stable: x precedes y if it ranks lower, or equal and came first. */
  lemma {:induction false} SortPlaces<T>(key: T -> int, xs: seq<T>, i: nat, j: nat)
    requires i < |xs| && j < |xs|
    requires key(xs[i]) < key(xs[j]) || (i < j && key(xs[i]) <= key(xs[j]))
    ensures Before(Sort(key, xs), xs[i], xs[j])
  {
    var n := |xs| - 1;
    var front := xs[..n];
    if i < n && j < n {
      assert front[i] == xs[i] && front[j] == xs[j];
      SortSorts(key, front);
      SortPlaces(key, front, i, j);
      InsertKeepsBefore(key, Sort(key, front), xs[n], xs[i], xs[j]);
    } else {
      LastIsPlaced(key, xs, if j == n then i else j);
    }
  }

  lemma {:induction false} LastIsPlaced<T>(key: T -> int, xs: seq<T>, i: nat)
    requires i < |xs| - 1
    ensures var x := xs[|xs| - 1];
      if key(x) < key(xs[i]) then Before(Sort(key, xs), x, xs[i]) else Before(Sort(key, xs), xs[i], x)
  {
    var front := xs[..|xs| - 1];
    assert front[i] == xs[i];
    SortSorts(key, front);
    SameMembers(key, front, xs[i]);
    InsertIsPlaced(key, Sort(key, front), xs[|xs| - 1], xs[i]);
  }
}
