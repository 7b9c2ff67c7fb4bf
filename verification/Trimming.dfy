/** White space around a text, as Go's strings.TrimSpace takes it. */
module Trimming {
  predicate IsSpace(c: char) {
    || c in [' ', '\t', '\n', '\r', '\U{0B}', '\U{0C}', '\U{85}', '\U{A0}', '\U{1680}', '\U{2028}', '\U{2029}',
      '\U{202F}', '\U{205F}', '\U{3000}']
    || '\U{2000}' <= c <= '\U{200A}'
  }

  predicate Blank(s: string) {
    forall i :: 0 <= i < |s| ==> IsSpace(s[i])
  }

  function TrimLeft(s: string): (r: string)
    ensures |r| <= |s|
  {
    if s != "" && IsSpace(s[0]) then TrimLeft(s[1..]) else s
  }

  function TrimSpace(s: string): string
    decreases |s|
  {
    var t := TrimLeft(s);
    if t != "" && IsSpace(t[|t| - 1]) then TrimSpace(t[..|t| - 1]) else t
  }

  lemma {:induction false} TrimLeftTrims(s: string) returns (a: string)
    ensures s == a + TrimLeft(s) && Blank(a) && (TrimLeft(s) != "" ==> !IsSpace(TrimLeft(s)[0]))
  {
    a := "";
    if s != "" && IsSpace(s[0]) {
      var rest := TrimLeftTrims(s[1..]);
      a := [s[0]] + rest;
    }
  }

  /** What is trimmed is blank, and what is left neither begins nor ends with white space. */
  lemma {:induction false} TrimSpaceTrims(s: string) returns (a: string, b: string)
    ensures s == a + TrimSpace(s) + b && Blank(a) && Blank(b)
    ensures var r := TrimSpace(s); r != "" ==> !IsSpace(r[0]) && !IsSpace(r[|r| - 1])
    decreases |s|
  {
    var t := TrimLeft(s);
    a := TrimLeftTrims(s);
    b := "";
    if t != "" && IsSpace(t[|t| - 1]) {
      var n := |t| - 1;
      var a', b' := TrimSpaceTrims(t[..n]);
      BlankAppend(a, a');
      BlankAppend(b', [t[n]]);
      Surrounded(s, a, t, a', TrimSpace(t[..n]), b');
      a, b := a + a', b' + [t[n]];
    }
  }

  lemma BlankAppend(a: string, b: string)
    requires Blank(a) && Blank(b)
    ensures Blank(a + b)
  {
  }

  lemma Surrounded(s: string, a: string, t: string, a': string, r: string, b': string)
    requires s == a + t && t != "" && t[..|t| - 1] == a' + r + b'
    ensures s == (a + a') + r + (b' + [t[|t| - 1]])
  {
    assert t == t[..|t| - 1] + [t[|t| - 1]];
  }

  /** Trimming leaves nothing exactly of a blank text. */
  lemma TrimmedAway(s: string)
    ensures TrimSpace(s) == "" <==> Blank(s)
  {
    var a, b := TrimSpaceTrims(s);
    var r := TrimSpace(s);
    if r != "" {
      assert s[|a|] == r[0];
    }
  }
}
