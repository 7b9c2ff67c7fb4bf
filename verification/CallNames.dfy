/** The ids under which stored tool items are replayed as tool calls
    (appserver/runtime_history.go): made safe for providers, and numbered when a name
    comes up again. */
module CallNames {
  import opened Transcript
  import opened Trimming
  import opened StoredItems

  const MAX_ID := 64
  const DIGEST := 16
  const FALLBACK := "history_call"
  const GENERATED := "history_call_generated"

  /* ----- safe identifiers ----- */

  predicate IsSafe(c: char) {
    'a' <= c <= 'z' || 'A' <= c <= 'Z' || '0' <= c <= '9' || c == '_' || c == '-'
  }

  /** What providers accept as an identifier. */
  predicate SafeName(s: string) {
    0 < |s| <= MAX_ID && forall i :: 0 <= i < |s| ==> IsSafe(s[i])
  }

  function Cleaned(s: string): (r: string)
    ensures |r| == |s| && forall i :: 0 <= i < |s| ==> r[i] == if IsSafe(s[i]) then s[i] else '_'
  {
    if s == "" then "" else [if IsSafe(s[0]) then s[0] else '_'] + Cleaned(s[1..])
  }

  /** `digest` gives the first hexadecimal digits of a hash. */
  ghost predicate Digests(digest: string -> string) {
    forall s :: |digest(s)| == DIGEST && SafeName(digest(s))
  }

  /** runtimeReplayIdentifier. */
  function Identifier(digest: string -> string, value: string, fallback: string): string {
    var cleaned := Cleaned(TrimSpace(value));
    var name := if cleaned == "" then fallback else cleaned;
    if |name| <= MAX_ID then name else name[..MAX_ID - 1 - DIGEST] + "_" + digest(name)
  }

  lemma IdentifierIsSafe(digest: string -> string, value: string, fallback: string)
    requires Digests(digest) && SafeName(fallback)
    ensures SafeName(Identifier(digest, value, fallback))
  {
    var cleaned := Cleaned(TrimSpace(value));
    assert SafeName(digest(cleaned));
  }

  lemma SpaceIsUnsafe(c: char)
    requires IsSpace(c)
    ensures !IsSafe(c)
  {
  }

  lemma {:induction false} CleanedKeeps(s: string)
    requires forall i :: 0 <= i < |s| ==> IsSafe(s[i])
    ensures Cleaned(s) == s
  {
  }

  lemma SafeIsTrimmed(s: string)
    requires SafeName(s)
    ensures TrimSpace(s) == s
  {
    if IsSpace(s[0]) {
      SpaceIsUnsafe(s[0]);
    }
    if IsSpace(s[|s| - 1]) {
      SpaceIsUnsafe(s[|s| - 1]);
    }
  }

  /** A safe name is its own identifier. */
  lemma IdentifierKeeps(digest: string -> string, value: string, fallback: string)
    requires SafeName(value)
    ensures Identifier(digest, value, fallback) == value
  {
    SafeIsTrimmed(value);
    CleanedKeeps(value);
  }

  /* ----- numbering ----- */

  function Decimal(n: nat): (s: string)
    ensures s != "" && forall i :: 0 <= i < |s| ==> '0' <= s[i] <= '9'
  {
    if n < 10 then [('0' as int + n) as char] else Decimal(n / 10) + [('0' as int + n % 10) as char]
  }

  function Suffix(count: nat): string {
    "_" + Decimal(count)
  }

  lemma EndsInDigit(a: string, n: nat)
    ensures (a + Suffix(n))[|a + Suffix(n)| - 1] != '_'
  {
  }

  /** A number behind an underscore can be read back. */
  lemma {:induction false} SuffixReads(a: string, n: nat, a': string, n': nat)
    requires a + Suffix(n) == a' + Suffix(n')
    ensures a == a' && n == n'
  {
    var s, s' := a + Suffix(n), a' + Suffix(n');
    assert s[|s| - 1] == Suffix(n)[|Suffix(n)| - 1] && s'[|s'| - 1] == Suffix(n')[|Suffix(n')| - 1];
    if n >= 10 {
      assert s[..|s| - 1] == a + Suffix(n / 10);
      EndsInDigit(a, n / 10);
    } else {
      assert s[..|s| - 1] == a + "_";
    }
    if n' >= 10 {
      assert s'[..|s'| - 1] == a' + Suffix(n' / 10);
      EndsInDigit(a', n' / 10);
    } else {
      assert s'[..|s'| - 1] == a' + "_";
    }
    if n >= 10 && n' >= 10 {
      SuffixReads(a, n / 10, a', n' / 10);
    } else if n < 10 && n' < 10 {
      assert a == (a + "_")[..|a|] && a' == (a' + "_")[..|a'|];
    }
  }

  /** A base name cut so that the suffix fits behind it. */
  function CutFor(base: string, count: nat): (r: string)
    ensures r <= base && (|base| + |Suffix(count)| <= MAX_ID ==> r == base)
  {
    var room := if |Suffix(count)| <= MAX_ID then MAX_ID - |Suffix(count)| else 0;
    if |base| + |Suffix(count)| > MAX_ID && room <= |base| then base[..room] else base
  }

  /** The id of the count-th call with this base name. */
  function Numbered(base: string, count: nat): string {
    if count == 1 then base else CutFor(base, count) + Suffix(count)
  }

  /** Two calls, the n-th named `base` and the n'-th named `base'`, get one id: different
      names are numbered alike and are alike up to the cut, or one call is the first of a
      name that reads like the other's name and number. */
  predicate Clash(base: string, n: nat, base': string, n': nat) {
    || (n == n' && n > 1 && base != base' && CutFor(base, n) == CutFor(base', n))
    || (n == 1 && n' > 1 && base == CutFor(base', n') + Suffix(n'))
    || (n' == 1 && n > 1 && base' == CutFor(base, n) + Suffix(n))
  }

  lemma NumbersClash(base: string, n: nat, base': string, n': nat)
    requires n >= 1 && n' >= 1 && (base, n) != (base', n')
    ensures Numbered(base, n) == Numbered(base', n') <==> Clash(base, n, base', n')
  {
    if n > 1 && n' > 1 && Numbered(base, n) == Numbered(base', n') {
      SuffixReads(CutFor(base, n), n, CutFor(base', n'), n');
    }
  }

  lemma NumberedIsSafe(base: string, n: nat)
    requires SafeName(base) && n < Power(MAX_ID - 2)
    ensures SafeName(Numbered(base, n))
  {
    DecimalIsShort(n, MAX_ID - 2);
  }

  lemma {:induction false} DecimalIsShort(n: nat, k: nat)
    requires 0 < k && n < Power(k)
    ensures |Decimal(n)| <= k
    decreases k
  {
    if n >= 10 {
      DecimalIsShort(n / 10, k - 1);
    }
  }

  function Power(k: nat): (n: nat) {
    if k == 0 then 1 else 10 * Power(k - 1)
  }

  /* ----- the builder ----- */

  /** What an item's calls are named after: its id, else its sequence number, else a number
      of its own. */
  function BaseName(digest: string -> string, generated: nat, x: Item): (nat, string) {
    var base := if TrimSpace(x.id) == "" && x.seqno > 0 then FALLBACK + Suffix(x.seqno) else x.id;
    if TrimSpace(base) == "" then (generated + 1, Identifier(digest, GENERATED + Suffix(generated + 1), FALLBACK))
    else (generated, Identifier(digest, base, FALLBACK))
  }

  /** The builder's counters, and how it names items. */
  datatype Builder = Builder(counts: map<string, nat>, generated: nat, name: (nat, Item) -> (nat, string))

  function NewBuilder(digest: string -> string): (b: Builder)
    ensures Names(b, digest) && b.counts == map[]
  {
    Builder(map[], 0, (generated, x) => BaseName(digest, generated, x))
  }

  /** The builder names items by BaseName. */
  ghost predicate Names(b: Builder, digest: string -> string) {
    forall generated, x :: b.name(generated, x) == BaseName(digest, generated, x)
  }

  function NextCallId(b: Builder, x: Item): (Builder, string) {
    var (generated, base) := b.name(b.generated, x);
    var count := 1 + if base in b.counts then b.counts[base] else 0;
    (b.(counts := b.counts[base := count], generated := generated), Numbered(base, count))
  }

  /** The builder after it has named these items, and the ids it gave them. */
  function NameAll(b: Builder, xs: seq<Item>): (r: (Builder, seq<string>))
    ensures |r.1| == |xs|
  {
    if xs == [] then (b, [])
    else
      var n := |xs| - 1;
      var (b1, front) := NameAll(b, xs[..n]);
      var (b2, id) := NextCallId(b1, xs[n]);
      (b2, front + [id])
  }

  /** An id depends only on what was named before. */
  lemma {:induction false} NamedAt(b: Builder, xs: seq<Item>, i: nat)
    requires i < |xs|
    ensures NameAll(b, xs).1[i] == NextCallId(NameAll(b, xs[..i]).0, xs[i]).1
  {
    var n := |xs| - 1;
    if i < n {
      NamedAt(b, xs[..n], i);
      assert xs[..n][..i] == xs[..i];
    }
  }

  /** The base names it gave them. */
  function Bases(b: Builder, xs: seq<Item>): (r: seq<string>)
    ensures |r| == |xs|
  {
    if xs == [] then []
    else
      var n := |xs| - 1;
      var b1 := NameAll(b, xs[..n]).0;
      Bases(b, xs[..n]) + [b1.name(b1.generated, xs[n]).1]
  }

  /** How often `name` comes up. */
  function Occurs(names: seq<string>, name: string): nat {
    if names == [] then 0
    else Occurs(names[..|names| - 1], name) + if names[|names| - 1] == name then 1 else 0
  }

  lemma {:induction false} CountsOccurrences(b: Builder, xs: seq<Item>, name: string)
    requires b.counts == map[]
    ensures var counts := NameAll(b, xs).0.counts;
      Occurs(Bases(b, xs), name) == if name in counts then counts[name] else 0
  {
    if xs != [] {
      var n := |xs| - 1;
      CountsOccurrences(b, xs[..n], name);
      assert Bases(b, xs)[..n] == Bases(b, xs[..n]);
    }
  }

  /** The id of item i: its base name, numbered by how often that name has come up. */
  lemma {:induction false} IdsAreNumbered(b: Builder, xs: seq<Item>, i: nat)
    requires b.counts == map[] && i < |xs|
    ensures var bases := Bases(b, xs);
      NameAll(b, xs).1[i] == Numbered(bases[i], Occurs(bases[..i + 1], bases[i]))
  {
    var n := |xs| - 1;
    var bases := Bases(b, xs);
    if i < n {
      IdsAreNumbered(b, xs[..n], i);
      assert bases[..i + 1] == Bases(b, xs[..n])[..i + 1];
    } else {
      CountsOccurrences(b, xs[..n], bases[n]);
      assert bases[..i + 1] == bases && bases[..n] == Bases(b, xs[..n]);
    }
  }

  lemma {:induction false} OccursGrows(names: seq<string>, name: string, i: nat, j: nat)
    requires i < j < |names| && names[j] == name
    ensures Occurs(names[..i + 1], name) < Occurs(names[..j + 1], name)
    decreases j
  {
    assert names[..j + 1][..j] == names[..j];
    OccursKeeps(names, name, i + 1, j);
  }

  lemma {:induction false} OccursKeeps(names: seq<string>, name: string, i: nat, j: nat)
    requires i <= j <= |names|
    ensures Occurs(names[..i], name) <= Occurs(names[..j], name)
    decreases j
  {
    if i < j {
      OccursKeeps(names, name, i, j - 1);
      assert names[..j][..j - 1] == names[..j - 1];
    }
  }

  lemma {:induction false} OccursAtMost(names: seq<string>, name: string)
    ensures Occurs(names, name) <= |names|
  {
    if names != [] {
      OccursAtMost(names[..|names| - 1], name);
    }
  }

  /** Which of the calls with its base name item i makes. */
  function Nth(bases: seq<string>, i: nat): (n: nat)
    requires i < |bases|
    ensures n >= 1
  {
    assert bases[..i + 1][..i] == bases[..i];
    Occurs(bases[..i + 1], bases[i])
  }

  /** Two replayed calls share an id exactly when their base names clash. */
  lemma SameIdExactly(b: Builder, xs: seq<Item>, i: nat, j: nat)
    requires b.counts == map[] && i < j < |xs|
    ensures var bases := Bases(b, xs);
      NameAll(b, xs).1[i] == NameAll(b, xs).1[j] <==> Clash(bases[i], Nth(bases, i), bases[j], Nth(bases, j))
  {
    var bases := Bases(b, xs);
    IdsAreNumbered(b, xs, i);
    IdsAreNumbered(b, xs, j);
    OccursGrows(bases, bases[j], i, j);
    NumbersClash(bases[i], Nth(bases, i), bases[j], Nth(bases, j));
  }

  lemma {:induction false} BasesAre(b: Builder, xs: seq<Item>, i: nat) returns (generated: nat)
    requires i < |xs|
    ensures Bases(b, xs)[i] == b.name(generated, xs[i]).1
  {
    var n := |xs| - 1;
    if i < n {
      generated := BasesAre(b, xs[..n], i);
    } else {
      generated := NameAll(b, xs[..n]).0.generated;
      NamingStays(b, xs[..n]);
    }
  }

  lemma {:induction false} NamingStays(b: Builder, xs: seq<Item>)
    ensures NameAll(b, xs).0.name == b.name
  {
    if xs != [] {
      NamingStays(b, xs[..|xs| - 1]);
    }
  }

  /** Every id is one that providers accept. */
  lemma IdsAreSafe(b: Builder, digest: string -> string, xs: seq<Item>, i: nat)
    requires b.counts == map[] && Names(b, digest) && Digests(digest) && i < |xs| < Power(MAX_ID - 2)
    ensures SafeName(NameAll(b, xs).1[i])
  {
    var bases := Bases(b, xs);
    IdsAreNumbered(b, xs, i);
    OccursAtMost(bases[..i + 1], bases[i]);
    var generated := BasesAre(b, xs, i);
    BaseIsSafe(digest, generated, xs[i]);
    NumberedIsSafe(bases[i], Nth(bases, i));
  }

  lemma FallbackIsSafe()
    ensures SafeName(FALLBACK)
  {
  }

  lemma BaseIsSafe(digest: string -> string, generated: nat, x: Item)
    requires Digests(digest)
    ensures SafeName(BaseName(digest, generated, x).1)
  {
    var base := if TrimSpace(x.id) == "" && x.seqno > 0 then FALLBACK + Suffix(x.seqno) else x.id;
    FallbackIsSafe();
    IdentifierIsSafe(digest, base, FALLBACK);
    IdentifierIsSafe(digest, GENERATED + Suffix(generated + 1), FALLBACK);
  }

  lemma SafeBase(digest: string -> string, generated: nat, x: Item)
    requires SafeName(x.id)
    ensures BaseName(digest, generated, x) == (generated, x.id)
  {
    SafeIsTrimmed(x.id);
    IdentifierKeeps(digest, x.id, FALLBACK);
  }

  lemma SafeBaseAt(b: Builder, digest: string -> string, xs: seq<Item>, i: nat)
    requires Names(b, digest) && i < |xs| && SafeName(xs[i].id)
    ensures Bases(b, xs)[i] == xs[i].id
  {
    var generated := BasesAre(b, xs, i);
    SafeBase(digest, generated, xs[i]);
  }

  lemma {:induction false} OccursNot(names: seq<string>, name: string)
    requires name !in names
    ensures Occurs(names, name) == 0
  {
    if names != [] {
      OccursNot(names[..|names| - 1], name);
    }
  }

  /** Items with safe ids, each its own, are replayed under those ids. */
  lemma {:induction false} OwnIds(b: Builder, digest: string -> string, xs: seq<Item>, i: nat)
    requires b.counts == map[] && Names(b, digest) && i < |xs| && SafeName(xs[i].id)
    requires forall j :: 0 <= j < i ==> SafeName(xs[j].id) && xs[j].id != xs[i].id
    ensures NameAll(b, xs).1[i] == xs[i].id
  {
    var bases := Bases(b, xs);
    IdsAreNumbered(b, xs, i);
    SafeBaseAt(b, digest, xs, i);
    forall j | 0 <= j < i ensures bases[j] != bases[i] {
      SafeBaseAt(b, digest, xs, j);
    }
    FirstOfItsName(bases, i);
  }

  lemma FirstOfItsName(bases: seq<string>, i: nat)
    requires i < |bases| && forall j :: 0 <= j < i ==> bases[j] != bases[i]
    ensures Nth(bases, i) == 1
  {
    assert bases[..i + 1][..i] == bases[..i];
    OccursNot(bases[..i], bases[i]);
  }

  lemma GeneratedIsSafe()
    ensures SafeName(GENERATED) && |GENERATED| == 22 && |FALLBACK| == 12
  {
  }

  lemma NumberedNameIsSafe(name: string, n: nat)
    requires SafeName(name) && |name| <= 22 && n < Power(40)
    ensures SafeName(name + Suffix(n))
  {
    DecimalIsShort(n, 40);
  }

  /** An item without an id is named by its number, one without either by the next number of
      its own. (The bounds hold for the 64-bit numbers of the store.) */
  lemma UnnamedBase(digest: string -> string, generated: nat, x: Item)
    requires TrimSpace(x.id) == "" && x.seqno < Power(40) && generated + 1 < Power(40)
    ensures BaseName(digest, generated, x) ==
      if x.seqno > 0 then (generated, FALLBACK + Suffix(x.seqno))
      else (generated + 1, GENERATED + Suffix(generated + 1))
  {
    FallbackIsSafe();
    GeneratedIsSafe();
    if x.seqno > 0 {
      NumberedNameIsSafe(FALLBACK, x.seqno);
      SafeIsTrimmed(FALLBACK + Suffix(x.seqno));
      IdentifierKeeps(digest, FALLBACK + Suffix(x.seqno), FALLBACK);
    } else {
      NumberedNameIsSafe(GENERATED, generated + 1);
      IdentifierKeeps(digest, GENERATED + Suffix(generated + 1), FALLBACK);
    }
  }

  /** So stored items without ids have names of their own. */
  lemma UnnamedApart(digest: string -> string, generated: nat, x: Item, generated': nat, y: Item)
    requires TrimSpace(x.id) == "" && 0 < x.seqno < Power(40) && generated + 1 < Power(40)
    requires TrimSpace(y.id) == "" && 0 < y.seqno < Power(40) && generated' + 1 < Power(40)
    ensures BaseName(digest, generated, x).1 == BaseName(digest, generated', y).1 <==> x.seqno == y.seqno
  {
    UnnamedBase(digest, generated, x);
    UnnamedBase(digest, generated', y);
    if FALLBACK + Suffix(x.seqno) == FALLBACK + Suffix(y.seqno) {
      SuffixReads(FALLBACK, x.seqno, FALLBACK, y.seqno);
    }
  }

  function ToolItem(id: string): Item {
    Item(0, DynamicTool, Completed, 0, id, "", 1, None, Some(Record("tool", "{}", "", true)))
  }

  /** An id that looks numbered clashes with a repeated one: the last two of "a", "a" and
      "a_2" are replayed under one id. */
  lemma NumberedIdClashes(digest: string -> string)
    ensures var ids := NameAll(NewBuilder(digest), [ToolItem("a"), ToolItem("a"), ToolItem("a_2")]).1; ids[1] == ids[2]
  {
    assert Decimal(2) == ['2'];
    assert "a" + Suffix(2) == "a_2";
    SecondClashes(NewBuilder(digest), digest, "a", "a_2", [ToolItem("a"), ToolItem("a"), ToolItem("a_2")]);
  }

  lemma SecondClashes(b: Builder, digest: string -> string, a: string, a2: string, xs: seq<Item>)
    requires b.counts == map[] && Names(b, digest) && SafeName(a) && SafeName(a2) && a2 == a + Suffix(2)
    requires |xs| == 3 && xs[0].id == a && xs[1].id == a && xs[2].id == a2
    ensures NameAll(b, xs).1[1] == NameAll(b, xs).1[2]
  {
    SafeBaseAt(b, digest, xs, 0);
    SafeBaseAt(b, digest, xs, 1);
    SafeBaseAt(b, digest, xs, 2);
    ReadsLikeNumber(a, a2, Bases(b, xs));
    SameIdExactly(b, xs, 1, 2);
  }

  lemma ReadsLikeNumber(a: string, a2: string, bases: seq<string>)
    requires a2 == a + Suffix(2) && |a2| <= MAX_ID
    requires |bases| == 3 && bases[0] == a && bases[1] == a && bases[2] == a2
    ensures Clash(bases[1], Nth(bases, 1), bases[2], Nth(bases, 2))
  {
    assert |a2| > |a|;
    assert bases[..2][..1] == bases[..1] && bases[..1][..0] == [] && bases[..3][..2] == bases[..2];
    assert Occurs(bases[..1], a) == 1;
    assert Nth(bases, 1) == 2;
    FirstOfItsName(bases, 2);
  }
}
