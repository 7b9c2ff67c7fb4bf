/** What the normal form of CacheKey forgets, and what it keeps apart. */
module CacheKeyLaws {
  import opened Transcript
  import opened CacheKey

  /* ----- arrays ----- */

  ghost function Mapped(e: Env, xs: seq<Json>, last: string): seq<Json>
    requires LawfulCodec(e)
  {
    seq(|xs|, i requires 0 <= i < |xs| => Normal(e, xs[i], last))
  }

  lemma {:induction false} NormalItemAt(e: Env, v: Json, last: string, n: nat, i: nat)
    requires LawfulCodec(e) && v.Arr? && i < n <= |v.items|
    ensures NormalItems(e, v, last, n)[i] == Normal(e, v.items[i], last)
  {
    if i < n - 1 {
      NormalItemAt(e, v, last, n - 1, i);
    }
  }

  lemma NormalItemsMap(e: Env, v: Json, last: string)
    requires LawfulCodec(e) && v.Arr?
    ensures NormalItems(e, v, last, |v.items|) == Mapped(e, v.items, last)
  {
    forall i | 0 <= i < |v.items| ensures NormalItems(e, v, last, |v.items|)[i] == Normal(e, v.items[i], last) {
      NormalItemAt(e, v, last, |v.items|, i);
    }
  }

  lemma RemoveMembers(b: seq<Json>, j: nat)
    requires j < |b|
    ensures multiset(b[..j] + b[j + 1..]) == multiset(b) - multiset{b[j]}
  {
    assert b == b[..j] + [b[j]] + b[j + 1..];
  }

  lemma {:induction false} MappedMembers(e: Env, a: seq<Json>, b: seq<Json>, last: string)
    requires LawfulCodec(e) && multiset(a) == multiset(b)
    ensures multiset(Mapped(e, a, last)) == multiset(Mapped(e, b, last))
    decreases |a|
  {
    assert |a| == |multiset(a)| == |multiset(b)| == |b|;
    if a == [] {
      assert Mapped(e, a, last) == Mapped(e, b, last);
    } else {
      assert a[0] in multiset(b);
      var j :| 0 <= j < |b| && b[j] == a[0];
      RemoveMembers(a, 0);
      RemoveMembers(b, j);
      MappedMembers(e, a[..0] + a[1..], b[..j] + b[j + 1..], last);
      MappedSplits(e, a, 0, last);
      MappedSplits(e, b, j, last);
    }
  }

  lemma MappedSplits(e: Env, b: seq<Json>, j: nat, last: string)
    requires LawfulCodec(e) && j < |b|
    ensures multiset(Mapped(e, b, last)) == multiset(Mapped(e, b[..j] + b[j + 1..], last)) +
      multiset{Normal(e, b[j], last)}
  {
    assert b == b[..j] + [b[j]] + b[j + 1..];
    MappedAround(e, b[..j], b[j], b[j + 1..], last);
    MappedAppend(e, b[..j], b[j + 1..], last);
  }

  /** The order of a required, enum or tool array does not matter. */
  lemma OrderForgotten(e: Env, a: seq<Json>, b: seq<Json>, last: string)
    requires LawfulCodec(e) && multiset(a) == multiset(b) && Sorts(e, last, Mapped(e, a, last))
    ensures Normal(e, Arr(a), last) == Normal(e, Arr(b), last)
  {
    NormalItemsMap(e, Arr(a), last);
    NormalItemsMap(e, Arr(b), last);
    MappedMembers(e, a, b, last);
    SortsIgnoresOrder(e, last, Mapped(e, a, last), Mapped(e, b, last));
    SortCanonical(e, Mapped(e, a, last), Mapped(e, b, last));
  }

  /* ----- objects ----- */

  /** Two objects treat their fields alike if they agree on the keys that decide. */
  ghost predicate SameGuides(e: Env, m: map<string, Json>, m': map<string, Json>) {
    GeneratedId(m) == GeneratedId(m') && Envelope(e, m) == Envelope(e, m')
  }

  /** Agreement on type, data and function is enough. */
  lemma GuidesFrom(e: Env, m: map<string, Json>, m': map<string, Json>)
    requires ("type" in m) == ("type" in m') && ("data" in m) == ("data" in m') &&
      ("function" in m) == ("function" in m')
    requires "type" in m ==> m["type"].String? == m'["type"].String? && (m["type"].String? ==> m["type"] == m'["type"])
    ensures SameGuides(e, m, m')
    ensures forall last, k :: Keeps(e, m, last, k) == Keeps(e, m', last, k)
    ensures forall k :: ChildKey(e, m, k) == ChildKey(e, m', k)
  {
  }

  lemma NormalAt(e: Env, v: Json, last: string, k: string)
    requires LawfulCodec(e) && v.Obj?
    ensures k in Normal(e, v, last).fields <==> k in v.fields && Keeps(e, v.fields, last, k)
    ensures k in Normal(e, v, last).fields ==> Normal(e, v, last).fields[k] == NormalField(e, v, last, k)
  {
  }

  lemma NormalKeepsGuides(e: Env, v: Json, last: string)
    requires Lawful(e) && v.Obj?
    ensures var m' := Normal(e, v, last).fields;
      && (forall last, k :: Keeps(e, v.fields, last, k) == Keeps(e, m', last, k))
      && (forall k :: ChildKey(e, v.fields, k) == ChildKey(e, m', k))
  {
    NormalAt(e, v, last, "type");
    NormalAt(e, v, last, "data");
    NormalAt(e, v, last, "function");
    assert "type" in v.fields ==>
      NormalField(e, v, last, "type") == Normal(e, v.fields["type"], ChildKey(e, v.fields, "type"));
    GuidesFrom(e, v.fields, Normal(e, v, last).fields);
  }

  lemma SameField(e: Env, m: map<string, Json>, m': map<string, Json>, last: string, k: string)
    requires LawfulCodec(e) && k in m && k in m' && m[k] == m'[k] && ChildKey(e, m, k) == ChildKey(e, m', k)
    ensures NormalField(e, Obj(m), last, k) == NormalField(e, Obj(m'), last, k)
  {
  }

  /** Objects agree if they keep the same keys with the same values. */
  lemma SameObject(e: Env, m: map<string, Json>, m': map<string, Json>, last: string)
    requires LawfulCodec(e)
    requires forall k :: (k in m && Keeps(e, m, last, k)) <==> (k in m' && Keeps(e, m', last, k))
    requires forall k :: k in m && k in m' && Keeps(e, m, last, k) ==>
               NormalField(e, Obj(m), last, k) == NormalField(e, Obj(m'), last, k)
    ensures Normal(e, Obj(m), last) == Normal(e, Obj(m'), last)
  {
    var r, r' := Normal(e, Obj(m), last).fields, Normal(e, Obj(m'), last).fields;
    forall k ensures (k in r <==> k in r') && (k in r ==> r[k] == r'[k]) {
      NormalAt(e, Obj(m), last, k);
      NormalAt(e, Obj(m'), last, k);
    }
    assert r == r';
  }

  /** Dropped metadata leaves no trace, whatever its value. */
  lemma MetadataForgotten(e: Env, m: map<string, Json>, k: string, x: Json, last: string)
    requires Lawful(e) && e.fold(k) in e.dropped && e.fold(last) !in e.schema
    ensures Normal(e, Obj(m[k := x]), last) == Normal(e, Obj(m - {k}), last)
  {
    var m1, m2 := m[k := x], m - {k};
    assert k != "type" && k != "data" && k != "function";
    GuidesFrom(e, m1, m2);
    forall k' | k' in m1 && k' in m2 ensures NormalField(e, Obj(m1), last, k') == NormalField(e, Obj(m2), last, k') {
      SameField(e, m1, m2, last, k');
    }
    SameObject(e, m1, m2, last);
  }

  /* ----- the normal form is normal ----- */

  lemma {:induction false} Idempotent(e: Env, v: Json, last: string)
    requires Lawful(e)
    ensures Normal(e, Normal(e, v, last), last) == Normal(e, v, last)
    decreases Longest(v), v, 1
  {
    match v
    case Obj(m) =>
      var r := Normal(e, v, last);
      forall k | k in r.fields ensures NormalField(e, r, last, k) == r.fields[k] {
        FieldIdempotent(e, v, last, k);
      }
      FixedObject(e, v, last);
    case Arr(items) =>
      ItemsIdempotent(e, v, last);
    case _ =>
  }

  /** An object of normal fields that all stay is normal. */
  lemma FixedObject(e: Env, v: Json, last: string)
    requires Lawful(e) && v.Obj?
    requires var r := Normal(e, v, last); forall k :: k in r.fields ==> NormalField(e, r, last, k) == r.fields[k]
    ensures Normal(e, Normal(e, v, last), last) == Normal(e, v, last)
  {
    NormalKeepsGuides(e, v, last);
    var r := Normal(e, v, last);
    assert Normal(e, r, last).fields == r.fields;
  }

  lemma {:induction false} FieldIdempotent(e: Env, v: Json, last: string, k: string)
    requires Lawful(e) && v.Obj? && k in v.fields && Keeps(e, v.fields, last, k)
    ensures var r := Normal(e, v, last); k in r.fields && NormalField(e, r, last, k) == r.fields[k]
    decreases Longest(v), v, 0
  {
    var r := Normal(e, v, last);
    var raw, child := v.fields[k], ChildKey(e, v.fields, k);
    NormalKeepsGuides(e, v, last);
    assert r.fields[k] == NormalField(e, v, last, k);
    assert Longest(raw) <= LongestField(v, v.fields.Keys);
    if !Verbatim(e, last, k) {
      if raw.String? && HoldsJson(e, k) {
        var inner := e.decode(raw.s);
        if inner.Some? {
          Idempotent(e, inner.value, child);
        }
      } else {
        Idempotent(e, raw, child);
      }
    }
  }

  lemma {:induction false} ItemsIdempotent(e: Env, v: Json, last: string)
    requires Lawful(e) && v.Arr?
    ensures Normal(e, Normal(e, v, last), last) == Normal(e, v, last)
    decreases Longest(v), v, 0
  {
    var out := Mapped(e, v.items, last);
    NormalItemsMap(e, v, last);
    forall j | 0 <= j < |out| ensures Normal(e, out[j], last) == out[j] {
      assert Longest(v.items[j]) <= LongestItem(v, |v.items|);
      Idempotent(e, v.items[j], last);
    }
    FixedArray(e, out, Normal(e, v, last).items, last);
  }

  /** An array of normal values, sorted if it should be, is normal. */
  lemma {:induction false} FixedArray(e: Env, out: seq<Json>, s: seq<Json>, last: string)
    requires LawfulCodec(e) && forall j :: 0 <= j < |out| ==> Normal(e, out[j], last) == out[j]
    requires s == if Sorts(e, last, out) then Sort(e, out) else out
    ensures Normal(e, Arr(s), last) == Arr(s)
  {
    SortSorts(e, out);
    assert multiset(s) == multiset(out);
    forall i | 0 <= i < |s| ensures Normal(e, s[i], last) == s[i] {
      assert s[i] in multiset(out);
    }
    NormalItemsMap(e, Arr(s), last);
    assert Mapped(e, s, last) == s;
    SortsIgnoresOrder(e, last, s, out);
    SortCanonical(e, s, out);
  }

  /* ----- contexts ----- */

  datatype Frame = Field(siblings: map<string, Json>, key: string) | Element(before: seq<Json>, after: seq<Json>)

  function Fill(f: Frame, v: Json): Json {
    match f
    case Field(m, k) => Obj(m[k := v])
    case Element(before, after) => Arr(before + [v] + after)
  }

  /** The path key under which the hole's content is normalized. */
  function Inner(e: Env, f: Frame, v: Json, last: string): string {
    match f
    case Field(m, k) => ChildKey(e, m[k := v], k)
    case Element(_, _) => last
  }

  /** The hole is not verbatim tool output. */
  predicate Clear(e: Env, f: Frame, last: string) {
    f.Field? ==> !Verbatim(e, last, f.key)
  }

  /** The hole is not dropped. */
  predicate Stays(e: Env, f: Frame, v: Json, last: string) {
    f.Field? ==> Keeps(e, f.siblings[f.key := v], last, f.key)
  }

  lemma FieldFilled(e: Env, m: map<string, Json>, k: string, a: Json, b: Json, last: string)
    requires LawfulCodec(e) && (k == "type" ==> a.String? == b.String? && (a.String? ==> a == b))
    requires NormalField(e, Obj(m[k := a]), last, k) == NormalField(e, Obj(m[k := b]), last, k)
    ensures Normal(e, Obj(m[k := a]), last) == Normal(e, Obj(m[k := b]), last)
  {
    var m1, m2 := m[k := a], m[k := b];
    GuidesFrom(e, m1, m2);
    forall k' | k' in m1 && k' in m2 ensures NormalField(e, Obj(m1), last, k') == NormalField(e, Obj(m2), last, k') {
      if k' != k {
        SameField(e, m1, m2, last, k');
      }
    }
    SameObject(e, m1, m2, last);
  }

  lemma SameGuidesWith(e: Env, m: map<string, Json>, k: string, a: Json, b: Json)
    requires k == "type" ==> a.String? == b.String? && (a.String? ==> a == b)
    ensures ChildKey(e, m[k := a], k) == ChildKey(e, m[k := b], k)
  {
    GuidesFrom(e, m[k := a], m[k := b]);
  }

  lemma {:induction false} FillCongruent(e: Env, f: Frame, a: Json, b: Json, last: string)
    requires Lawful(e) && Clear(e, f, last) && Normal(e, a, Inner(e, f, a, last)) == Normal(e, b, Inner(e, f, a, last))
    ensures Normal(e, Fill(f, a), last) == Normal(e, Fill(f, b), last)
  {
    if f.Field? {
      SameGuidesWith(e, f.siblings, f.key, a, b);
      FieldFilled(e, f.siblings, f.key, a, b, last);
    } else {
      ElementCongruent(e, f, a, b, last);
    }
  }

  function Arranged(e: Env, last: string, out: seq<Json>): seq<Json> {
    if Sorts(e, last, out) then Sort(e, out) else out
  }

  lemma NormalArray(e: Env, xs: seq<Json>, last: string)
    requires LawfulCodec(e)
    ensures Normal(e, Arr(xs), last) == Arr(Arranged(e, last, Mapped(e, xs, last)))
  {
    NormalItemsMap(e, Arr(xs), last);
  }

  lemma MappedAppend(e: Env, a: seq<Json>, b: seq<Json>, last: string)
    requires LawfulCodec(e)
    ensures Mapped(e, a + b, last) == Mapped(e, a, last) + Mapped(e, b, last)
  {
    forall i | 0 <= i < |a + b| ensures Mapped(e, a + b, last)[i] == (Mapped(e, a, last) + Mapped(e, b, last))[i] {
      MappedAt(e, a + b, last, i);
      if i < |a| {
        MappedAt(e, a, last, i);
      } else {
        MappedAt(e, b, last, i - |a|);
      }
    }
  }

  lemma MappedAt(e: Env, xs: seq<Json>, last: string, i: nat)
    requires LawfulCodec(e) && i < |xs|
    ensures |Mapped(e, xs, last)| == |xs| && Mapped(e, xs, last)[i] == Normal(e, xs[i], last)
  {
  }

  lemma MappedAround(e: Env, before: seq<Json>, x: Json, after: seq<Json>, last: string)
    requires LawfulCodec(e)
    ensures Mapped(e, before + [x] + after, last) == Mapped(e, before, last) + [Normal(e, x, last)] +
      Mapped(e, after, last)
  {
    MappedAppend(e, before + [x], after, last);
    MappedAppend(e, before, [x], last);
    assert Mapped(e, [x], last) == [Normal(e, x, last)];
  }

  lemma {:induction false} ElementCongruent(e: Env, f: Frame, a: Json, b: Json, last: string)
    requires LawfulCodec(e) && f.Element? && Normal(e, a, last) == Normal(e, b, last)
    ensures Normal(e, Fill(f, a), last) == Normal(e, Fill(f, b), last)
  {
    MappedAround(e, f.before, a, f.after, last);
    MappedAround(e, f.before, b, f.after, last);
    NormalArray(e, f.before + [a] + f.after, last);
    NormalArray(e, f.before + [b] + f.after, last);
  }

  /** A string here is just a string: it holds no JSON, and is no tag that decides about
      other fields. */
  predicate Plain(e: Env, f: Frame) {
    f.Field? ==> !HoldsJson(e, f.key) && f.key != "type"
  }

  /** What sits in the hole can be read off the normal form. */
  lemma {:induction false} FillInjective(e: Env, f: Frame, a: Json, b: Json, last: string)
    requires Lawful(e) && Clear(e, f, last) && Stays(e, f, a, last) && (a.String? || b.String? ==> Plain(e, f))
    requires Normal(e, Fill(f, a), last) == Normal(e, Fill(f, b), last)
    ensures Normal(e, a, Inner(e, f, a, last)) == Normal(e, b, Inner(e, f, a, last))
    ensures Inner(e, f, a, last) == Inner(e, f, b, last)
  {
    if f.Field? {
      var m1, m2 := f.siblings[f.key := a], f.siblings[f.key := b];
      GuidesFrom(e, m1, m2);
      assert Normal(e, Obj(m1), last).fields[f.key] == NormalField(e, Obj(m1), last, f.key);
      assert Normal(e, Obj(m2), last).fields[f.key] == NormalField(e, Obj(m2), last, f.key);
    } else {
      ElementInjective(e, f, a, b, last);
    }
  }

  /** The members of a normal array with x in the hole. */
  lemma HoleMembers(e: Env, f: Frame, x: Json, last: string)
    requires LawfulCodec(e) && f.Element?
    ensures multiset(Normal(e, Fill(f, x), last).items) ==
            multiset(Mapped(e, f.before, last)) + multiset(Mapped(e, f.after, last)) + multiset{Normal(e, x, last)}
  {
    var xs := f.before + [x] + f.after;
    MappedAround(e, f.before, x, f.after, last);
    NormalArray(e, xs, last);
    SortSorts(e, Mapped(e, xs, last));
  }

  lemma Cancel(rest: multiset<Json>, x: Json, y: Json)
    requires rest + multiset{x} == rest + multiset{y}
    ensures x == y
  {
    assert (rest + multiset{x})[x] == rest[x] + 1 && (rest + multiset{y})[x] == rest[x] + multiset{y}[x];
  }

  lemma {:induction false} ElementInjective(e: Env, f: Frame, a: Json, b: Json, last: string)
    requires LawfulCodec(e) && f.Element? && Normal(e, Fill(f, a), last) == Normal(e, Fill(f, b), last)
    ensures Normal(e, a, last) == Normal(e, b, last)
  {
    HoleMembers(e, f, a, last);
    HoleMembers(e, f, b, last);
    Cancel(multiset(Mapped(e, f.before, last)) + multiset(Mapped(e, f.after, last)), Normal(e, a, last),
      Normal(e, b, last));
  }

  /** A value inside nested objects and arrays, outermost frame first. */
  function Plug(fs: seq<Frame>, v: Json): Json {
    if fs == [] then v else Fill(fs[0], Plug(fs[1..], v))
  }

  function InnerAt(e: Env, fs: seq<Frame>, v: Json, last: string): string {
    if fs == [] then last else InnerAt(e, fs[1..], v, Inner(e, fs[0], Plug(fs[1..], v), last))
  }

  /** No frame drops the value or holds it verbatim. */
  predicate Open(e: Env, fs: seq<Frame>, v: Json, last: string) {
    fs != [] ==>
      var inner := Plug(fs[1..], v);
      Clear(e, fs[0], last) && Stays(e, fs[0], inner, last) && Open(e, fs[1..], v, Inner(e, fs[0], inner, last))
  }

  /** Values with one normal form can be exchanged anywhere inside a request. */
  lemma {:induction false} Congruent(e: Env, fs: seq<Frame>, a: Json, b: Json, last: string)
    requires Lawful(e) && Open(e, fs, a, last)
    requires Normal(e, a, InnerAt(e, fs, a, last)) == Normal(e, b, InnerAt(e, fs, a, last))
    ensures Normal(e, Plug(fs, a), last) == Normal(e, Plug(fs, b), last)
  {
    if fs != [] {
      Congruent(e, fs[1..], a, b, Inner(e, fs[0], Plug(fs[1..], a), last));
      FillCongruent(e, fs[0], Plug(fs[1..], a), Plug(fs[1..], b), last);
    }
  }

  /** A string at the bottom of the frames is just a string. */
  predicate PlainBottom(e: Env, fs: seq<Frame>, a: Json, b: Json) {
    fs != [] && (a.String? || b.String?) ==> Plain(e, fs[|fs| - 1])
  }

  lemma {:induction false} PeelFrame(e: Env, fs: seq<Frame>, a: Json, b: Json, last: string)
    requires fs != [] && Open(e, fs, a, last) && PlainBottom(e, fs, a, b)
    ensures var x, y := Plug(fs[1..], a), Plug(fs[1..], b); var inner := Inner(e, fs[0], x, last);
      && Plug(fs, a) == Fill(fs[0], x) && Plug(fs, b) == Fill(fs[0], y)
      && Clear(e, fs[0], last) && Stays(e, fs[0], x, last) && (x.String? || y.String? ==> Plain(e, fs[0]))
      && Open(e, fs[1..], a, inner) && PlainBottom(e, fs[1..], a, b)
      && InnerAt(e, fs, a, last) == InnerAt(e, fs[1..], a, inner)
  {
    var rest := fs[1..];
    assert rest != [] ==> rest[|rest| - 1] == fs[|fs| - 1];
  }

  /** Values with different normal forms keep whole requests apart; so do different strings
      where a string is just a string. */
  lemma {:induction false} Distinguishes(e: Env, fs: seq<Frame>, a: Json, b: Json, last: string)
    requires Lawful(e) && Open(e, fs, a, last) && PlainBottom(e, fs, a, b)
    requires Normal(e, Plug(fs, a), last) == Normal(e, Plug(fs, b), last)
    ensures Normal(e, a, InnerAt(e, fs, a, last)) == Normal(e, b, InnerAt(e, fs, a, last))
  {
    if fs != [] {
      PeelFrame(e, fs, a, b, last);
      FillInjective(e, fs[0], Plug(fs[1..], a), Plug(fs[1..], b), last);
      Distinguishes(e, fs[1..], a, b, Inner(e, fs[0], Plug(fs[1..], a), last));
    }
  }

  /* ----- tool output ----- */

  /** A core tool-return part: {"type": "tool-return", "data": {..., "content": x}}. */
  function ToolReturnPart(outer: map<string, Json>, tag: string, data: map<string, Json>, key: string, x: Json): Json {
    Obj(outer["type" := String(tag)]["data" := Obj(data[key := x])])
  }

  lemma PartKeepsContent(e: Env, outer: map<string, Json>, tag: string, data: map<string, Json>, key: string, x: Json,
      last: string)
    requires Lawful(e) && e.fold(tag) == "toolreturn" && e.fold(key) == "content"
    ensures var r := Normal(e, ToolReturnPart(outer, tag, data, key, x), last);
      "data" in r.fields && r.fields["data"].Obj? && key in r.fields["data"].fields && r.fields["data"].fields[key] == x
  {
    var v := ToolReturnPart(outer, tag, data, key, x);
    var inner := Obj(data[key := x]);
    assert "data" != "type" && Envelope(e, v.fields);
    assert "content" != "id";
    assert Keeps(e, v.fields, last, "data") && Keeps(e, inner.fields, MARKER, key);
    assert !HoldsJson(e, "data") || !v.fields["data"].String?;
    assert NormalField(e, v, last, "data") == Normal(e, inner, MARKER);
    assert NormalField(e, inner, MARKER, key) == x;
  }

  /** Requests that differ in the content of one tool result have different normal forms,
      wherever in the request the result stands. */
  lemma ToolOutputKeptApart(e: Env, fs: seq<Frame>, outer: map<string, Json>, tag: string, data: map<string, Json>,
      key: string, x: Json, y: Json, last: string)
    requires Lawful(e) && e.fold(tag) == "toolreturn" && e.fold(key) == "content" && x != y
    requires Open(e, fs, ToolReturnPart(outer, tag, data, key, x), last)
    ensures Normal(e, Plug(fs, ToolReturnPart(outer, tag, data, key, x)), last) !=
            Normal(e, Plug(fs, ToolReturnPart(outer, tag, data, key, y)), last)
  {
    var a, b := ToolReturnPart(outer, tag, data, key, x), ToolReturnPart(outer, tag, data, key, y);
    var inner := InnerAt(e, fs, a, last);
    PartKeepsContent(e, outer, tag, data, key, x, inner);
    PartKeepsContent(e, outer, tag, data, key, y, inner);
    if Normal(e, Plug(fs, a), last) == Normal(e, Plug(fs, b), last) {
      Distinguishes(e, fs, a, b, last);
    }
  }

  /* ----- the same place in two requests ----- */

  datatype Hop = Into(key: string) | Nth(i: nat)

  /** The value at the end of a path. */
  function Follow(v: Json, path: seq<Hop>): Option<Json> {
    if path == [] then Some(v)
    else
      match path[0]
      case Into(k) => if v.Obj? && k in v.fields then Follow(v.fields[k], path[1..]) else None
      case Nth(i) => if v.Arr? && i < |v.items| then Follow(v.items[i], path[1..]) else None
  }

  /** Arrays under this key keep their order. */
  predicate Unsorted(e: Env, key: string) {
    e.fold(key) !in e.scalarSets && e.fold(key) !in e.toolSets
  }

  /** The path goes through fields that are kept and not verbatim, and through arrays that
      keep their order; it does not enter JSON inside strings. */
  predicate Kept(e: Env, v: Json, path: seq<Hop>, last: string) {
    path != [] ==>
      match path[0]
      case Into(k) =>
        && v.Obj? && k in v.fields && !v.fields[k].String?
        && Keeps(e, v.fields, last, k) && !Verbatim(e, last, k)
        && Kept(e, v.fields[k], path[1..], ChildKey(e, v.fields, k))
      case Nth(i) => v.Arr? && i < |v.items| && Unsorted(e, last) && Kept(e, v.items[i], path[1..], last)
  }

  /** The path key at the end of the path. */
  function KeyAt(e: Env, v: Json, path: seq<Hop>, last: string): string
    requires Kept(e, v, path, last)
  {
    if path == [] then last
    else
      match path[0]
      case Into(k) => KeyAt(e, v.fields[k], path[1..], ChildKey(e, v.fields, k))
      case Nth(i) => KeyAt(e, v.items[i], path[1..], last)
  }

  lemma {:induction false} KeptLeads(e: Env, v: Json, path: seq<Hop>, last: string)
    requires Kept(e, v, path, last)
    ensures Follow(v, path).Some?
  {
    if path != [] {
      match path[0]
      case Into(k) => KeptLeads(e, v.fields[k], path[1..], ChildKey(e, v.fields, k));
      case Nth(i) => KeptLeads(e, v.items[i], path[1..], last);
    }
  }

  /** What stands at such a place in a request stands there in the normal form, normal. */
  lemma {:induction false} NormalKeepsPlaces(e: Env, v: Json, path: seq<Hop>, last: string)
    requires LawfulCodec(e) && Kept(e, v, path, last)
    ensures Follow(v, path).Some?
    ensures Follow(Normal(e, v, last), path) == Some(Normal(e, Follow(v, path).value, KeyAt(e, v, path, last)))
    decreases |path|
  {
    KeptLeads(e, v, path, last);
    if path != [] {
      match path[0]
      case Into(k) =>
        FieldPlace(e, v, k, last);
        NormalKeepsPlaces(e, v.fields[k], path[1..], ChildKey(e, v.fields, k));
      case Nth(i) =>
        ItemPlace(e, v, i, last);
        NormalKeepsPlaces(e, v.items[i], path[1..], last);
    }
  }

  lemma FieldPlace(e: Env, v: Json, k: string, last: string)
    requires LawfulCodec(e) && v.Obj? && k in v.fields && !v.fields[k].String?
    requires Keeps(e, v.fields, last, k) && !Verbatim(e, last, k)
    ensures var r := Normal(e, v, last);
      r.Obj? && k in r.fields && r.fields[k] == Normal(e, v.fields[k], ChildKey(e, v.fields, k))
  {
    NormalAt(e, v, last, k);
  }

  lemma ItemPlace(e: Env, v: Json, i: nat, last: string)
    requires LawfulCodec(e) && v.Arr? && i < |v.items| && Unsorted(e, last)
    ensures var r := Normal(e, v, last); r.Arr? && i < |r.items| && r.items[i] == Normal(e, v.items[i], last)
  {
    NormalArray(e, v.items, last);
    MappedAt(e, v.items, last, i);
  }

  /** The value is a tool-return part with this content. */
  predicate Returns(e: Env, v: Json, key: string, x: Json) {
    && v.Obj? && "type" in v.fields && v.fields["type"].String? && e.fold(v.fields["type"].s) == "toolreturn"
    && "data" in v.fields && v.fields["data"].Obj?
    && e.fold(key) == "content" && key in v.fields["data"].fields && v.fields["data"].fields[key] == x
  }

  lemma ContentSurvives(e: Env, v: Json, key: string, x: Json, last: string)
    requires Lawful(e) && Returns(e, v, key, x)
    ensures var r := Normal(e, v, last);
      r.Obj? && "data" in r.fields && r.fields["data"].Obj? && key in r.fields["data"].fields &&
        r.fields["data"].fields[key] == x
  {
    var outer, data := v.fields, v.fields["data"].fields;
    assert data[key := x] == data;
    assert outer["type" := String(outer["type"].s)]["data" := Obj(data)] == outer;
    PartKeepsContent(e, outer, outer["type"].s, data, key, x, last);
  }

  /** Any two requests that hold tool results with different content at the same place have
      different normal forms, whatever else differs between them. */
  lemma {:induction false} ToolOutputTellsApart(e: Env, v: Json, w: Json, path: seq<Hop>, key: string, x: Json, y: Json,
      last: string)
    requires Lawful(e) && Kept(e, v, path, last) && Kept(e, w, path, last) && x != y
    requires Follow(v, path).Some? && Returns(e, Follow(v, path).value, key, x)
    requires Follow(w, path).Some? && Returns(e, Follow(w, path).value, key, y)
    ensures Normal(e, v, last) != Normal(e, w, last)
  {
    NormalKeepsPlaces(e, v, path, last);
    NormalKeepsPlaces(e, w, path, last);
    ContentSurvives(e, Follow(v, path).value, key, x, KeyAt(e, v, path, last));
    ContentSurvives(e, Follow(w, path).value, key, y, KeyAt(e, w, path, last));
  }

  /** JSON kept in a string counts by its value, not by its spelling. */
  lemma SpellingForgotten(e: Env, m: map<string, Json>, k: string, s: string, s': string, last: string)
    requires Lawful(e) && HoldsJson(e, k) && !Verbatim(e, last, k)
    requires e.decode(s).Some? && e.decode(s').Some?
    requires var child := ChildKey(e, m[k := String(s)], k);
      Normal(e, e.decode(s).value, child) == Normal(e, e.decode(s').value, child)
    ensures Normal(e, Obj(m[k := String(s)]), last) == Normal(e, Obj(m[k := String(s')]), last)
  {
    assert k != "type";
    SameGuidesWith(e, m, k, String(s), String(s'));
    FieldFilled(e, m, k, String(s), String(s'), last);
  }

  /** So the normal form does not tell all tool calls apart: metadata keys are dropped even
      inside the JSON text of a call's arguments. */
  lemma ArgumentsLoseMetadata(e: Env, m: map<string, Json>, k: string, s: string, s': string, args: map<string, Json>,
      key: string, x: Json, last: string)
    requires Lawful(e) && HoldsJson(e, k) && !Verbatim(e, last, k) && e.fold(k) !in e.schema && k != "data"
    requires e.decode(s) == Some(Obj(args[key := x])) && e.decode(s') == Some(Obj(args - {key})) &&
      e.fold(key) in e.dropped
    ensures Normal(e, Obj(m[k := String(s)]), last) == Normal(e, Obj(m[k := String(s')]), last)
  {
    MetadataForgotten(e, args, key, x, k);
    SpellingForgotten(e, m, k, s, s', last);
  }
}
