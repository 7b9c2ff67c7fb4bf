/** UTF-8 as defined by sections 3 and 4 of RFC 3629: well-formed byte sequences, and
    where they may be cut. */
module Utf8 {
  type Byte = b: nat | b < 256

  predicate Continuation(b: Byte) {
    0x80 <= b <= 0xBF
  }

  /** utf8.RuneStart. */
  predicate RuneStart(b: Byte) {
    !Continuation(b)
  }

  /** Length of the character that starts with bytes a, b, c, d; 0 if there is none. */
  function Width(a: Byte, b: Byte, c: Byte, d: Byte): (n: nat)
    ensures n <= 4 && (n > 0 ==> RuneStart(a))
    ensures (n > 1 ==> Continuation(b)) && (n > 2 ==> Continuation(c)) && (n > 3 ==> Continuation(d))
  {
    if a <= 0x7F then 1
    else if 0xC2 <= a <= 0xDF then if Continuation(b) then 2 else 0
    else if 0xE0 <= a <= 0xEF then
      if Continuation(b) && Continuation(c) && (a == 0xE0 ==> b >= 0xA0) && (a == 0xED ==> b <= 0x9F) then 3 else 0
    else if 0xF0 <= a <= 0xF4 then
      if Continuation(b) && Continuation(c) && Continuation(d) && (a == 0xF0 ==> b >= 0x90) &&
        (a == 0xF4 ==> b <= 0x8F) then 4 else 0
    else 0
  }

  /** Byte i of s, or one that continues no character. */
  function At(s: seq<Byte>, i: nat): (b: Byte) {
    if i < |s| then s[i] else 0
  }

  /** Length of the well-formed character that s begins with; 0 if there is none. */
  function RuneLen(s: seq<Byte>): (n: nat)
    ensures n <= |s| && n <= 4
    ensures n > 0 ==> RuneStart(s[0]) && forall i :: 0 < i < n ==> Continuation(s[i])
  {
    if s == [] then 0 else Width(s[0], At(s, 1), At(s, 2), At(s, 3))
  }

  /** utf8.Valid. */
  predicate Valid(s: seq<Byte>)
    decreases |s|
  {
    s == [] || (RuneLen(s) > 0 && Valid(s[RuneLen(s)..]))
  }

  /** A place where s may be cut without splitting a character. */
  predicate Boundary(s: seq<Byte>, i: nat)
    requires i <= |s|
  {
    i == |s| || RuneStart(s[i])
  }

  lemma RuneLenExtends(a: seq<Byte>, b: seq<Byte>)
    requires RuneLen(a) > 0
    ensures RuneLen(a + b) == RuneLen(a)
  {
  }

  lemma RuneLenOfRune(s: seq<Byte>)
    requires RuneLen(s) > 0
    ensures RuneLen(s[..RuneLen(s)]) == RuneLen(s)
  {
  }

  lemma DropFront(a: seq<Byte>, b: seq<Byte>, n: nat)
    requires n <= |a|
    ensures (a + b)[n..] == a[n..] + b
  {
  }

  lemma CutBehind(s: seq<Byte>, n: nat, i: nat)
    requires n <= i <= |s|
    ensures s[..i] == s[..n] + s[n..][..i - n] && s[i..] == s[n..][i - n..]
  {
  }

  /** A character in front of valid text. */
  lemma {:induction false} RuneInFront(s: seq<Byte>, n: nat, t: seq<Byte>)
    requires 0 < n == RuneLen(s) && Valid(t)
    ensures Valid(s[..n] + t)
  {
    RuneLenOfRune(s);
    RuneLenExtends(s[..n], t);
    assert (s[..n] + t)[n..] == t;
  }

  lemma {:induction false} ValidConcat(a: seq<Byte>, b: seq<Byte>)
    requires Valid(a) && Valid(b)
    ensures Valid(a + b)
    decreases |a|
  {
    if a == [] {
      assert a + b == b;
    } else {
      var n := RuneLen(a);
      RuneLenExtends(a, b);
      DropFront(a, b, n);
      ValidConcat(a[n..], b);
    }
  }

  /** No boundary lies inside a character. */
  lemma {:induction false} PastFirstRune(s: seq<Byte>, i: nat)
    requires RuneLen(s) > 0 && 0 < i <= |s| && Boundary(s, i)
    ensures RuneLen(s) <= i
  {
  }

  /** At a boundary both parts of a valid string are valid. */
  lemma {:induction false} ValidCut(s: seq<Byte>, i: nat)
    requires Valid(s) && i <= |s| && Boundary(s, i)
    ensures Valid(s[..i]) && Valid(s[i..])
    decreases |s|
  {
    if i == 0 {
      assert s[i..] == s;
    } else {
      var n := RuneLen(s);
      PastFirstRune(s, i);
      ValidCut(s[n..], i - n);
      RuneInFront(s, n, s[n..][..i - n]);
      CutBehind(s, n, i);
    }
  }

  lemma RuneLenOfPrefix(s: seq<Byte>, i: nat)
    requires i <= |s| && RuneLen(s[..i]) > 0
    ensures RuneLen(s) == RuneLen(s[..i])
  {
    RuneLenExtends(s[..i], s[i..]);
    assert s[..i] + s[i..] == s;
  }

  lemma CutInside(s: seq<Byte>, n: nat, i: nat)
    requires n <= i <= |s|
    ensures s[n..][..i - n] == s[..i][n..]
  {
  }

  /** A valid prefix of a valid string ends at a boundary. */
  lemma {:induction false} ValidPrefixEndsAtBoundary(s: seq<Byte>, i: nat)
    requires Valid(s) && i <= |s| && Valid(s[..i])
    ensures Boundary(s, i)
    decreases |s|
  {
    if 0 < i < |s| {
      var n := RuneLen(s[..i]);
      RuneLenOfPrefix(s, i);
      CutInside(s, n, i);
      ValidPrefixEndsAtBoundary(s[n..], i - n);
    }
  }

  predicate Ascii(s: seq<Byte>) {
    forall i :: 0 <= i < |s| ==> s[i] <= 0x7F
  }

  lemma {:induction false} AsciiIsValid(s: seq<Byte>)
    requires Ascii(s)
    ensures Valid(s)
  {
    if s != [] {
      AsciiIsValid(s[1..]);
    }
  }

  const REPLACEMENT: seq<Byte> := [0xEF, 0xBF, 0xBD]

  /** What follows the first run of bytes that begin no character. */
  function AfterInvalid(s: seq<Byte>): (r: seq<Byte>)
    ensures |r| <= |s| && (s != [] && RuneLen(s) == 0 ==> |r| < |s|)
  {
    if s == [] || RuneLen(s) > 0 then s else AfterInvalid(s[1..])
  }

  /** strings.ToValidUTF8 with U+FFFD. */
  function ToValid(s: seq<Byte>): (r: seq<Byte>)
    ensures Valid(r)
    ensures Valid(s) ==> r == s
    ensures r == [] <==> s == []
    decreases |s|
  {
    if s == [] then []
    else if RuneLen(s) > 0 then
      var n := RuneLen(s);
      RuneInFront(s, n, ToValid(s[n..]));
      assert s[..n] + s[n..] == s;
      s[..n] + ToValid(s[n..])
    else
      assert RuneLen(REPLACEMENT) == 3 && REPLACEMENT[3..] == [];
      ValidConcat(REPLACEMENT, ToValid(AfterInvalid(s)));
      REPLACEMENT + ToValid(AfterInvalid(s))
  }

  /** Making text valid can start anew behind a valid part. */
  lemma {:induction false} ToValidSplits(a: seq<Byte>, b: seq<Byte>)
    requires Valid(a)
    ensures ToValid(a + b) == a + ToValid(b)
    decreases |a|
  {
    if a == [] {
      assert a + b == b;
    } else {
      var n := RuneLen(a);
      RuneLenExtends(a, b);
      ToValidStep(a + b, n);
      DropFront(a, b, n);
      ToValidSplits(a[n..], b);
      Regroup(a, b, n, ToValid(b));
    }
  }

  lemma ToValidStep(s: seq<Byte>, n: nat)
    requires 0 < n == RuneLen(s)
    ensures ToValid(s) == s[..n] + ToValid(s[n..])
  {
  }

  lemma Regroup(a: seq<Byte>, b: seq<Byte>, n: nat, t: seq<Byte>)
    requires n <= |a|
    ensures (a + b)[..n] + (a[n..] + t) == a + t
  {
  }

  /** A run of bytes in which no character begins gives way to one replacement character. */
  lemma {:induction false} ToValidReplaces(good: seq<Byte>, bad: seq<Byte>, rest: seq<Byte>)
    requires Valid(good) && bad != [] && (rest == [] || RuneLen(rest) > 0)
    requires forall i :: 0 <= i < |bad| ==> RuneLen(bad[i..] + rest) == 0
    ensures ToValid(good + bad + rest) == good + REPLACEMENT + ToValid(rest)
  {
    ToValidSplits(good, bad + rest);
    AfterInvalidIs(bad, rest);
    assert bad[0..] == bad;
    ToValidSkips(bad + rest);
    Reassociate(good, bad, rest);
    Reassociate(good, REPLACEMENT, ToValid(rest));
  }

  lemma ToValidSkips(s: seq<Byte>)
    requires s != [] && RuneLen(s) == 0
    ensures ToValid(s) == REPLACEMENT + ToValid(AfterInvalid(s))
  {
  }

  lemma Reassociate(a: seq<Byte>, b: seq<Byte>, c: seq<Byte>)
    ensures a + b + c == a + (b + c)
  {
  }

  lemma {:induction false} AfterInvalidIs(bad: seq<Byte>, rest: seq<Byte>)
    requires rest == [] || RuneLen(rest) > 0
    requires forall i :: 0 <= i < |bad| ==> RuneLen(bad[i..] + rest) == 0
    ensures AfterInvalid(bad + rest) == rest
  {
    if bad == [] {
      assert bad + rest == rest;
    } else {
      assert bad[0..] == bad && (bad + rest)[1..] == bad[1..] + rest;
      forall i | 0 <= i < |bad[1..]| ensures RuneLen(bad[1..][i..] + rest) == 0 {
        assert bad[1..][i..] == bad[i + 1..];
      }
      AfterInvalidIs(bad[1..], rest);
    }
  }

  /* ----- characters ----- */

  /** A character number; surrogates are none. */
  type Scalar = n: nat | n < 0xD800 || 0xDFFF < n <= 0x10FFFF

  /** Section 3 of RFC 3629. */
  function Encode(c: Scalar): (s: seq<Byte>) {
    if c < 0x80 then [c]
    else if c < 0x800 then [0xC0 + c / 64, 0x80 + c % 64]
    else if c < 0x10000 then [0xE0 + c / 4096, 0x80 + c / 64 % 64, 0x80 + c % 64]
    else [0xF0 + c / 262144, 0x80 + c / 4096 % 64, 0x80 + c / 64 % 64, 0x80 + c % 64]
  }

  function EncodeAll(cs: seq<Scalar>): seq<Byte> {
    if cs == [] then [] else Encode(cs[0]) + EncodeAll(cs[1..])
  }

  lemma EncodeIsRune(c: Scalar)
    ensures Encode(c) != [] && RuneLen(Encode(c)) == |Encode(c)|
  {
    if c < 0x80 {
    } else if c < 0x800 {
      assert Width(0xC0 + c / 64, 0x80 + c % 64, 0, 0) == 2;
    } else if c < 0x10000 {
      EncodeIsRune3(c, c / 4096, c / 64 % 64, c % 64);
    } else {
      EncodeIsRune4(c, c / 262144, c / 4096 % 64, c / 64 % 64, c % 64);
    }
  }

  lemma EncodeIsRune3(c: Scalar, x: nat, y: nat, z: nat)
    requires 0x800 <= c < 0x10000 && x == c / 4096 && y == c / 64 % 64 && z == c % 64
    ensures Width(0xE0 + x, 0x80 + y, 0x80 + z, 0) == 3
  {
    assert c == x * 4096 + y * 64 + z;
  }

  lemma EncodeIsRune4(c: Scalar, w: nat, x: nat, y: nat, z: nat)
    requires 0x10000 <= c && w == c / 262144 && x == c / 4096 % 64 && y == c / 64 % 64 && z == c % 64
    ensures Width(0xF0 + w, 0x80 + x, 0x80 + y, 0x80 + z) == 4
  {
    var u := c / 64;
    var v := u / 64;
    assert v == c / 4096 && v / 64 == w;
    LargeIsRune(c, w, x, y, z);
  }

  lemma LargeIsRune(c: nat, w: nat, x: nat, y: nat, z: nat)
    requires 0x10000 <= c <= 0x10FFFF && x < 64 && y < 64 && z < 64 && c == w * 262144 + x * 4096 + y * 64 + z
    ensures Width(0xF0 + w, 0x80 + x, 0x80 + y, 0x80 + z) == 4
  {
  }

  /** Digits to the base of 64 can be read back. */
  lemma LastDigit(a: nat, b: nat)
    requires b < 64
    ensures (a * 64 + b) / 64 == a && (a * 64 + b) % 64 == b
  {
  }

  lemma Decode2(a: nat, b: nat) returns (c: Scalar)
    requires 0xC2 <= a <= 0xDF && 0x80 <= b <= 0xBF
    ensures Encode(c) == [a, b]
  {
    LastDigit(a - 0xC0, b - 0x80);
    c := (a - 0xC0) * 64 + (b - 0x80);
  }

  lemma Decode3(a: nat, b: nat, b': nat) returns (c: Scalar)
    requires 0xE0 <= a <= 0xEF && 0x80 <= b <= 0xBF && 0x80 <= b' <= 0xBF
    requires (a == 0xE0 ==> b >= 0xA0) && (a == 0xED ==> b <= 0x9F)
    ensures Encode(c) == [a, b, b']
  {
    var high := (a - 0xE0) * 64 + (b - 0x80);
    LastDigit(a - 0xE0, b - 0x80);
    LastDigit(high, b' - 0x80);
    c := high * 64 + (b' - 0x80);
    assert c / 4096 == c / 64 / 64;
  }

  lemma Decode4(a: nat, b: nat, b': nat, b'': nat) returns (c: Scalar)
    requires 0xF0 <= a <= 0xF4 && 0x80 <= b <= 0xBF && 0x80 <= b' <= 0xBF && 0x80 <= b'' <= 0xBF
    requires (a == 0xF0 ==> b >= 0x90) && (a == 0xF4 ==> b <= 0x8F)
    ensures Encode(c) == [a, b, b', b'']
  {
    var high := (a - 0xF0) * 64 + (b - 0x80);
    var middle := high * 64 + (b' - 0x80);
    LastDigit(a - 0xF0, b - 0x80);
    LastDigit(high, b' - 0x80);
    LastDigit(middle, b'' - 0x80);
    c := middle * 64 + (b'' - 0x80);
    assert c / 4096 == c / 64 / 64 && c / 262144 == c / 64 / 64 / 64;
  }

  /** The character that s begins with. */
  lemma DecodeRune(s: seq<Byte>) returns (c: Scalar)
    requires RuneLen(s) > 0
    ensures Encode(c) == s[..RuneLen(s)]
  {
    var n := RuneLen(s);
    if n == 1 {
      c := s[0];
    } else if n == 2 {
      c := Decode2(s[0], s[1]);
    } else if n == 3 {
      c := Decode3(s[0], s[1], s[2]);
    } else {
      c := Decode4(s[0], s[1], s[2], s[3]);
    }
  }

  lemma {:induction false} EncodedIsValid(cs: seq<Scalar>)
    ensures Valid(EncodeAll(cs))
  {
    if cs != [] {
      var rune, rest := Encode(cs[0]), EncodeAll(cs[1..]);
      EncodedIsValid(cs[1..]);
      EncodeIsRune(cs[0]);
      RuneLenExtends(rune, rest);
      assert (rune + rest)[|rune|..] == rest;
    }
  }

  lemma {:induction false} ValidIsEncoded(s: seq<Byte>) returns (cs: seq<Scalar>)
    requires Valid(s)
    ensures EncodeAll(cs) == s
    decreases |s|
  {
    cs := [];
    if s != [] {
      var c := DecodeRune(s);
      var rest := ValidIsEncoded(s[RuneLen(s)..]);
      cs := [c] + rest;
      assert cs[1..] == rest;
    }
  }

  /** Valid bytes are exactly the encodings of character sequences. */
  lemma ValidMeansEncoded(s: seq<Byte>)
    ensures Valid(s) <==> exists cs :: EncodeAll(cs) == s
  {
    if Valid(s) {
      var cs := ValidIsEncoded(s);
    }
    if cs :| EncodeAll(cs) == s {
      EncodedIsValid(cs);
    }
  }
}
