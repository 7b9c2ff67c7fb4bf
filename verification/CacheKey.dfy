/** The stable cache key (modelutil/cache_key.go): a request, as JSON, is brought into a
    normal form that forgets transport metadata and irrelevant order, also inside JSON
    kept in strings, but keeps tool output verbatim. */
module CacheKey {
  import opened Transcript

  /** Decoded JSON. A number is a literal, known by name. */
  datatype Json =
    | Null | Bool(b: bool) | Num(literal: nat) | String(s: string)
    | Arr(items: seq<Json>) | Obj(fields: map<string, Json>)

  /** encoding/json (marshalling, and strict decoding of a whole string) and the rules for
      keys. `fold` is normalizedKey; the sets hold folded keys. */
  datatype Env = Env(
    encode: Json -> string, decode: string -> Option<Json>, fold: string -> string,
    dropped: set<string>, schema: set<string>, jsonText: set<string>, scalarSets: set<string>, toolSets: set<string>)

  /** What is relied on: decoding undoes encoding, and a string holds JSON whose own strings
      are all shorter (at least by their quotes). */
  ghost predicate LawfulCodec(e: Env) {
    && (forall v :: e.decode(e.encode(v)) == Some(v))
    && (forall s :: e.decode(s).Some? ==> Longest(e.decode(s).value) < |s|)
  }

  /** The keys that decide about others are ordinary keys themselves. */
  ghost predicate LawfulRules(e: Env) {
    Ordinary(e, "type") && Ordinary(e, "data") && Ordinary(e, "function") && e.fold("type") !in e.jsonText &&
      "content" !in e.dropped
  }

  predicate Ordinary(e: Env, k: string) {
    e.fold(k) !in e.dropped && e.fold(k) != "id" && e.fold(k) != "content"
  }

  ghost predicate Lawful(e: Env) {
    LawfulCodec(e) && LawfulRules(e)
  }

  /* ----- the length of the longest string inside ----- */

  ghost function Max(a: nat, b: nat): nat {
    if a < b then b else a
  }

  ghost function Longest(v: Json): nat
    decreases v, 0
  {
    match v
    case String(s) => |s|
    case Arr(items) => LongestItem(v, |items|)
    case Obj(m) => LongestField(v, m.Keys)
    case _ => 0
  }

  ghost function LongestItem(v: Json, n: nat): (r: nat)
    requires v.Arr? && n <= |v.items|
    ensures forall i :: 0 <= i < n ==> Longest(v.items[i]) <= r
    decreases v, 0, n
  {
    if n == 0 then 0 else Max(Longest(v.items[n - 1]), LongestItem(v, n - 1))
  }

  ghost function LongestField(v: Json, keys: set<string>): (r: nat)
    requires v.Obj? && keys <= v.fields.Keys
    ensures forall k :: k in keys ==> Longest(v.fields[k]) <= r
    decreases v, 0, keys
  {
    if keys == {} then 0
    else
      var k :| k in keys;
      Max(Longest(v.fields[k]), LongestField(v, keys - {k}))
  }

  /* ----- keys ----- */

  function Lower(c: char): char {
    if 'A' <= c <= 'Z' then (c as int + 32) as char else c
  }

  /** normalizedKey: separators removed, lower case. */
  function Fold(key: string): string {
    if key == "" then ""
    else if key[0] in ['_', '-', '.'] then Fold(key[1..])
    else [Lower(key[0])] + Fold(key[1..])
  }

  /** Request metadata that is dropped wherever it occurs. */
  function StandardDropped(): set<string> {
    {"timestamp", "created", "createdat", "updatedat", "startedat", "endedat", "duration", "requestid", "traceid",
     "runid", "parentrunid", "turnid", "randomseed", "seed", "promptcachekey", "promptcacheretention", "cachecontrol",
     "servicetier", "stream", "streamoptions", "previousresponseid", "signature", "usage", "modelname",
     "finishreason", "toolcallid", "tooluseid"}
  }

  lemma NotMetadata(k: string)
    requires (|k| == 4 && k[0] != 's') || (|k| == 8 && k[0] == 'f') || (|k| == 7 && k[1] == 'o')
    ensures k !in StandardDropped()
  {
  }

  /** The repository's own rules. */
  function StandardEnv(encode: Json -> string, decode: string -> Option<Json>): Env {
    Env(encode, decode, k => Fold(k), StandardDropped(),
        {"properties", "defs", "definitions", "$defs"},
        {"argsjson", "arguments", "input"},
        {"required", "enum"},
        {"functiontools", "outputtools", "tools"})
  }

  lemma {:induction false} LowerCaseFolds(k: string)
    requires forall i :: 0 <= i < |k| ==> 'a' <= k[i] <= 'z'
    ensures Fold(k) == k
  {
    if k != "" {
      LowerCaseFolds(k[1..]);
      assert k == [k[0]] + k[1..];
    }
  }

  lemma StandardRulesLawful(e: Env)
    requires e == StandardEnv(e.encode, e.decode)
    ensures LawfulRules(e)
  {
    TypeIsOrdinary(e);
    DataIsOrdinary(e);
    FunctionIsOrdinary(e);
    ContentIsKept(e);
  }

  lemma TypeIsOrdinary(e: Env)
    requires e == StandardEnv(e.encode, e.decode)
    ensures Ordinary(e, "type") && e.fold("type") !in e.jsonText
  {
    GuideIsOrdinary(e, "type");
  }

  lemma DataIsOrdinary(e: Env)
    requires e == StandardEnv(e.encode, e.decode)
    ensures Ordinary(e, "data")
  {
    GuideIsOrdinary(e, "data");
  }

  lemma FunctionIsOrdinary(e: Env)
    requires e == StandardEnv(e.encode, e.decode)
    ensures Ordinary(e, "function")
  {
    GuideIsOrdinary(e, "function");
  }

  lemma ContentIsKept(e: Env)
    requires e == StandardEnv(e.encode, e.decode)
    ensures "content" !in e.dropped
  {
    NotMetadata("content");
  }

  lemma GuideIsOrdinary(e: Env, k: string)
    requires e == StandardEnv(e.encode, e.decode) && forall i :: 0 <= i < |k| ==> 'a' <= k[i] <= 'z'
    requires (|k| == 4 && k[0] != 's') || (|k| == 8 && k[0] == 'f')
    ensures Ordinary(e, k) && (|k| == 4 ==> e.fold(k) !in e.jsonText)
  {
    assert e.fold(k) == Fold(k);
    LowerCaseFolds(k);
    NotMetadata(k);
    assert |"id"| == 2 && |"content"| == 7;
  }

  /** Marks the data object of a tool-return envelope in the traversal path. */
  const MARKER := "\U{0}tool-return-data"

  predicate GeneratedId(m: map<string, Json>) {
    || ("type" in m && m["type"].String? && m["type"].s in ["tool_use", "function"])
    || "function" in m
  }

  predicate Drops(e: Env, key: string, m: map<string, Json>) {
    e.fold(key) in e.dropped || (e.fold(key) == "id" && GeneratedId(m))
  }

  predicate Envelope(e: Env, m: map<string, Json>) {
    "data" in m && "type" in m && m["type"].String? && e.fold(m["type"].s) == "toolreturn"
  }

  predicate HoldsJson(e: Env, key: string) {
    e.fold(key) in e.jsonText
  }

  predicate Keeps(e: Env, m: map<string, Json>, last: string, key: string) {
    e.fold(last) in e.schema || !Drops(e, key, m)
  }

  predicate Verbatim(e: Env, last: string, key: string) {
    last == MARKER && e.fold(key) == "content"
  }

  function ChildKey(e: Env, m: map<string, Json>, key: string): string {
    if Envelope(e, m) && key == "data" then MARKER else key
  }

  predicate Scalar(v: Json) {
    !v.Arr? && !v.Obj?
  }

  predicate ToolLike(v: Json) {
    v.Obj? &&
    ("name" in v.fields || "Name" in v.fields ||
     ("function" in v.fields && v.fields["function"].Obj? && "name" in v.fields["function"].fields))
  }

  predicate Sorts(e: Env, key: string, values: seq<Json>) {
    |values| >= 2 &&
    if e.fold(key) in e.scalarSets then forall v :: v in values ==> Scalar(v)
    else e.fold(key) in e.toolSets && forall v :: v in values ==> ToolLike(v)
  }

  /* ----- sorting by encoded text ----- */

  predicate StringLeq(a: string, b: string) {
    a == "" || (b != "" && (a[0] < b[0] || (a[0] == b[0] && StringLeq(a[1..], b[1..]))))
  }

  lemma {:induction false} StringLeqTotal(a: string, b: string)
    ensures StringLeq(a, b) || StringLeq(b, a)
    ensures StringLeq(a, b) && StringLeq(b, a) ==> a == b
  {
    if a != "" && b != "" && a[0] == b[0] {
      StringLeqTotal(a[1..], b[1..]);
      assert a == [a[0]] + a[1..] && b == [b[0]] + b[1..];
    }
  }

  lemma {:induction false} StringLeqTransitive(a: string, b: string, c: string)
    requires StringLeq(a, b) && StringLeq(b, c)
    ensures StringLeq(a, c)
  {
    if a != "" && a[0] == b[0] == c[0] {
      StringLeqTransitive(a[1..], b[1..], c[1..]);
    }
  }

  predicate Leq(e: Env, x: Json, y: Json) {
    StringLeq(e.encode(x), e.encode(y))
  }

  /** Stable insertion: behind everything that is not greater. */
  function Insert(e: Env, r: seq<Json>, x: Json): seq<Json> {
    if r == [] then [x]
    else if Leq(e, r[|r| - 1], x) then r + [x]
    else Insert(e, r[..|r| - 1], x) + [r[|r| - 1]]
  }

  function Sort(e: Env, xs: seq<Json>): seq<Json> {
    if xs == [] then [] else Insert(e, Sort(e, xs[..|xs| - 1]), xs[|xs| - 1])
  }

  ghost predicate Sorted(e: Env, r: seq<Json>) {
    forall i, j :: 0 <= i < j < |r| ==> Leq(e, r[i], r[j])
  }

  lemma {:induction false} InsertMembers(e: Env, r: seq<Json>, x: Json)
    ensures multiset(Insert(e, r, x)) == multiset(r) + multiset{x}
  {
    if r != [] && !Leq(e, r[|r| - 1], x) {
      InsertMembers(e, r[..|r| - 1], x);
      assert r == r[..|r| - 1] + [r[|r| - 1]];
    }
  }

  ghost predicate AllLeq(e: Env, r: seq<Json>, x: Json) {
    forall i :: 0 <= i < |r| ==> Leq(e, r[i], x)
  }

  lemma {:induction false} InsertBelow(e: Env, r: seq<Json>, x: Json, y: Json)
    requires AllLeq(e, r, y) && Leq(e, x, y)
    ensures AllLeq(e, Insert(e, r, x), y)
  {
    if r != [] && !Leq(e, r[|r| - 1], x) {
      InsertBelow(e, r[..|r| - 1], x, y);
    }
  }

  lemma {:induction false} InsertSorts(e: Env, r: seq<Json>, x: Json)
    requires Sorted(e, r)
    ensures Sorted(e, Insert(e, r, x))
  {
    if r != [] {
      var n := |r| - 1;
      if Leq(e, r[n], x) {
        forall i | 0 <= i < n ensures Leq(e, r[i], x) {
          StringLeqTransitive(e.encode(r[i]), e.encode(r[n]), e.encode(x));
        }
      } else {
        StringLeqTotal(e.encode(x), e.encode(r[n]));
        InsertSorts(e, r[..n], x);
        InsertBelow(e, r[..n], x, r[n]);
      }
    }
  }

  lemma LastMember(xs: seq<Json>)
    requires xs != []
    ensures multiset(xs) == multiset(xs[..|xs| - 1]) + multiset{xs[|xs| - 1]}
  {
    assert xs == xs[..|xs| - 1] + [xs[|xs| - 1]];
  }

  lemma {:induction false} SortMembers(e: Env, xs: seq<Json>)
    ensures multiset(Sort(e, xs)) == multiset(xs)
  {
    if xs != [] {
      var n := |xs| - 1;
      SortMembers(e, xs[..n]);
      InsertMembers(e, Sort(e, xs[..n]), xs[n]);
      LastMember(xs);
    }
  }

  lemma {:induction false} SortSorts(e: Env, xs: seq<Json>)
    ensures Sorted(e, Sort(e, xs)) && multiset(Sort(e, xs)) == multiset(xs)
  {
    SortMembers(e, xs);
    if xs != [] {
      var n := |xs| - 1;
      SortSorts(e, xs[..n]);
      InsertSorts(e, Sort(e, xs[..n]), xs[n]);
    }
  }

  lemma SortedHead(e: Env, a: seq<Json>, x: Json)
    requires Sorted(e, a) && a != [] && x in multiset(a)
    ensures x == a[0] || Leq(e, a[0], x)
  {
  }

  lemma TailMembers(a: seq<Json>)
    requires a != []
    ensures multiset(a[1..]) == multiset(a) - multiset{a[0]}
  {
    assert a == [a[0]] + a[1..];
  }

  /** Encoding is injective, so there is one sorted arrangement. */
  lemma {:induction false} SortedUnique(e: Env, a: seq<Json>, b: seq<Json>)
    requires LawfulCodec(e) && Sorted(e, a) && Sorted(e, b) && multiset(a) == multiset(b)
    ensures a == b
    decreases |a|
  {
    assert |a| == |multiset(a)| == |multiset(b)| == |b|;
    if a != [] {
      assert a[0] in multiset(a) && b[0] in multiset(b);
      SortedHead(e, b, a[0]);
      SortedHead(e, a, b[0]);
      StringLeqTotal(e.encode(a[0]), e.encode(b[0]));
      assert e.decode(e.encode(a[0])) == e.decode(e.encode(b[0]));
      TailMembers(a);
      TailMembers(b);
      SortedUnique(e, a[1..], b[1..]);
    }
  }

  lemma SortCanonical(e: Env, a: seq<Json>, b: seq<Json>)
    requires LawfulCodec(e) && multiset(a) == multiset(b)
    ensures Sort(e, a) == Sort(e, b)
  {
    SortSorts(e, a);
    SortSorts(e, b);
    SortedUnique(e, Sort(e, a), Sort(e, b));
  }

  lemma SortsIgnoresOrder(e: Env, key: string, a: seq<Json>, b: seq<Json>)
    requires multiset(a) == multiset(b)
    ensures Sorts(e, key, a) <==> Sorts(e, key, b)
  {
    assert |a| == |multiset(a)| == |multiset(b)| == |b|;
    assert forall v :: v in a <==> v in multiset(a);
    assert forall v :: v in b <==> v in multiset(b);
  }

  /* ----- the normal form ----- */

  /** normalizeCacheValue; `last` is the last key on the path, "" at the top. */
  function Normal(e: Env, v: Json, last: string): (r: Json)
    requires LawfulCodec(e)
    ensures r.String? == v.String? && r.Arr? == v.Arr? && r.Obj? == v.Obj? && (Scalar(v) ==> r == v)
    decreases Longest(v), v, 1
  {
    match v
    case Obj(m) => Obj(map k | k in m && Keeps(e, m, last, k) :: NormalField(e, v, last, k))
    case Arr(items) =>
      var out := NormalItems(e, v, last, |items|);
      Arr(if Sorts(e, last, out) then Sort(e, out) else out)
    case _ => v
  }

  function NormalItems(e: Env, v: Json, last: string, n: nat): (out: seq<Json>)
    requires LawfulCodec(e) && v.Arr? && n <= |v.items|
    ensures |out| == n
    decreases Longest(v), v, 0, n
  {
    if n == 0 then []
    else
      assert Longest(v.items[n - 1]) <= LongestItem(v, |v.items|);
      NormalItems(e, v, last, n - 1) + [Normal(e, v.items[n - 1], last)]
  }

  /** A field's value, with JSON inside a string brought into normal form there. */
  function NormalField(e: Env, v: Json, last: string, k: string): Json
    requires LawfulCodec(e) && v.Obj? && k in v.fields
    decreases Longest(v), v, 0
  {
    assert Longest(v.fields[k]) <= LongestField(v, v.fields.Keys);
    var raw, child := v.fields[k], ChildKey(e, v.fields, k);
    if Verbatim(e, last, k) then raw
    else if raw.String? && HoldsJson(e, k) then
      var inner := e.decode(raw.s);
      if inner.None? then raw else String(e.encode(Normal(e, inner.value, child)))
    else Normal(e, raw, child)
  }
}
