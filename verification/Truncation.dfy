/** Bounding text by bytes without breaking characters (core/truncate.go and the cutters
    of appserver/runtime_tool_items.go, runtime_mcp_tools.go, runtime_process_tools.go and
    runtime_command_items.go). */
module Truncation {
  import opened Utf8

  /* ----- cutting at a character ----- */

  /** The longest prefix of at most `limit` bytes that is itself valid. */
  ghost predicate IsLongestPrefix(s: seq<Byte>, limit: nat, r: seq<Byte>) {
    && r <= s && |r| <= limit && Valid(r)
    && forall j :: |r| < j <= limit && j <= |s| ==> !Valid(s[..j])
  }

  ghost predicate IsLongestSuffix(s: seq<Byte>, limit: nat, r: seq<Byte>) {
    && |r| <= |s| && r == s[|s| - |r|..] && |r| <= limit && Valid(r)
    && forall i :: 0 <= i < |s| - |r| && |s| - limit <= i ==> !Valid(s[i..])
  }

  lemma {:induction false} ValidSuffixStartsAtBoundary(s: seq<Byte>, i: nat)
    requires i <= |s| && Valid(s[i..])
    ensures Boundary(s, i)
  {
    if i < |s| {
      assert s[i..][0] == s[i];
    }
  }

  lemma {:induction false} ValidPrefixWithin(s: seq<Byte>, n: nat, limit: nat)
    requires Valid(s) && n <= limit < |s| && Boundary(s, n)
    requires forall j :: n < j <= limit ==> !RuneStart(s[j])
    ensures IsLongestPrefix(s, limit, s[..n])
  {
    ValidCut(s, n);
    forall j | n < j <= limit ensures !Valid(s[..j]) {
      if Valid(s[..j]) {
        ValidPrefixEndsAtBoundary(s, j);
      }
    }
  }

  lemma {:induction false} ValidSuffixWithin(s: seq<Byte>, limit: nat, start: nat)
    requires Valid(s) && limit < |s| && |s| - limit <= start <= |s| && Boundary(s, start)
    requires forall j :: |s| - limit <= j < start ==> !RuneStart(s[j])
    ensures IsLongestSuffix(s, limit, s[start..])
  {
    ValidCut(s, start);
    forall i | 0 <= i < start && |s| - limit <= i ensures !Valid(s[i..]) {
      if Valid(s[i..]) {
        ValidSuffixStartsAtBoundary(s, i);
      }
    }
  }

  lemma {:induction false} LongestPrefixUnique(s: seq<Byte>, limit: nat, r: seq<Byte>, r': seq<Byte>)
    requires IsLongestPrefix(s, limit, r) && IsLongestPrefix(s, limit, r')
    ensures r == r'
  {
    assert r == s[..|r|] && r' == s[..|r'|];
  }

  /** Step back to a rune start. */
  method RuneFloor(s: seq<Byte>, limit: nat) returns (n: nat)
    requires limit < |s|
    ensures n <= limit && (n == 0 || RuneStart(s[n]))
    ensures forall j :: n < j <= limit ==> !RuneStart(s[j])
  {
    n := limit;
    while n > 0 && !RuneStart(s[n])
      invariant 0 <= n <= limit
      invariant forall j :: n < j <= limit ==> !RuneStart(s[j])
    {
      n := n - 1;
    }
  }

  /** Step on to a rune start. */
  method RuneCeiling(s: seq<Byte>, start: nat) returns (n: nat)
    requires start <= |s|
    ensures start <= n <= |s| && Boundary(s, n)
    ensures forall j :: start <= j < n ==> !RuneStart(s[j])
  {
    n := start;
    while n < |s| && !RuneStart(s[n])
      invariant start <= n <= |s|
      invariant forall j :: start <= j < n ==> !RuneStart(s[j])
    {
      n := n + 1;
    }
  }

  /** boundedRuntimeToolOutputPrefix, boundedRuntimeMCPPrefix: step back to a rune start. */
  method RuneStartPrefix(s: seq<Byte>, limit: nat) returns (r: seq<Byte>)
    ensures r <= s && |r| <= limit
    ensures Valid(s) ==> IsLongestPrefix(s, limit, r)
  {
    if limit >= |s| {
      return s;
    }
    var n := RuneFloor(s, limit);
    r := s[..n];
    if Valid(s) {
      ValidPrefixWithin(s, n, limit);
    }
  }

  /** validRuntimeUTF8Prefix: drop bytes until what is left decodes. On valid text it is
      RuneStartPrefix, by LongestPrefixUnique. */
  method DecodingPrefix(s: seq<Byte>, limit: int) returns (r: seq<Byte>)
    ensures r <= s && |r| <= (if limit > 0 then limit else 0)
    ensures Valid(s) ==> IsLongestPrefix(s, if limit > 0 then limit else 0, r)
  {
    if limit <= 0 {
      return [];
    }
    if |s| <= limit {
      return s;
    }
    var n := limit;
    assert s[..0] == [];
    while n > 0 && !Valid(s[..n])
      invariant 0 <= n <= limit
      invariant forall j :: n < j <= limit ==> !Valid(s[..j])
    {
      n := n - 1;
    }
    r := s[..n];
  }

  /** boundedRuntimeToolOutputSuffix, boundedRuntimeMCPSuffix. */
  method RuneStartSuffix(s: seq<Byte>, limit: nat) returns (r: seq<Byte>)
    ensures |r| <= limit && |r| <= |s| && r == s[|s| - |r|..]
    ensures Valid(s) ==> IsLongestSuffix(s, limit, r)
  {
    if limit >= |s| {
      return s;
    }
    var start := RuneCeiling(s, |s| - limit);
    r := s[start..];
    if Valid(s) {
      ValidSuffixWithin(s, limit, start);
    }
  }

  /* ----- head, marker, tail ----- */

  /** Text of at most `limit` bytes: the input, or the marker between its head and tail,
      which are as long as their halves of the remaining room allow. */
  ghost predicate IsBounded(s: seq<Byte>, limit: nat, marker: seq<Byte>, r: seq<Byte>) {
    && |r| <= limit && Valid(r)
    && (|s| <= limit ==> r == s)
    && (|s| > limit ==> IsCut(s, limit - |marker|, marker, r))
  }

  ghost predicate IsCut(s: seq<Byte>, room: int, marker: seq<Byte>, r: seq<Byte>) {
    && room >= 0
    && exists head, tail ::
         r == head + marker + tail && IsLongestPrefix(s, room / 2, head) && IsLongestSuffix(s, room - room / 2, tail)
  }

  lemma {:induction false} MarkedIsValid(head: seq<Byte>, marker: seq<Byte>, tail: seq<Byte>)
    requires Valid(head) && Ascii(marker) && Valid(tail)
    ensures Valid(head + marker + tail)
  {
    AsciiIsValid(marker);
    ValidConcat(head, marker);
    ValidConcat(head + marker, tail);
  }

  method HeadMarkerTail(s: seq<Byte>, limit: nat, marker: seq<Byte>) returns (r: seq<Byte>)
    requires Valid(s) && Ascii(marker) && |marker| <= limit < |s|
    ensures IsBounded(s, limit, marker, r)
  {
    var remaining := limit - |marker|;
    var headBytes := remaining / 2;
    var head := RuneStartPrefix(s, headBytes);
    var tail := RuneStartSuffix(s, remaining - headBytes);
    r := head + marker + tail;
    PartsAreBounded(s, limit, marker, head, tail);
  }

  lemma {:induction false} PartsAreBounded(s: seq<Byte>, limit: nat, marker: seq<Byte>, head: seq<Byte>,
      tail: seq<Byte>)
    requires Ascii(marker) && |marker| <= limit < |s|
    requires var room := limit - |marker|;
      IsLongestPrefix(s, room / 2, head) && IsLongestSuffix(s, room - room / 2, tail)
    ensures IsBounded(s, limit, marker, head + marker + tail)
  {
    MarkedIsValid(head, marker, tail);
    assert IsCut(s, limit - |marker|, marker, head + marker + tail);
  }

  const TOOL_PAYLOAD_MAX := 64 * 1024

  /** boundedRuntimeToolOutput. */
  method BoundedToolOutput(output: seq<Byte>, marker: seq<Byte>) returns (r: seq<Byte>)
    requires Ascii(marker) && |marker| <= TOOL_PAYLOAD_MAX
    ensures IsBounded(ToValid(output), TOOL_PAYLOAD_MAX, marker, r)
  {
    AsciiIsValid(marker);
    var s := ToValid(output);
    if |s| <= TOOL_PAYLOAD_MAX {
      return s;
    }
    r := HeadMarkerTail(s, TOOL_PAYLOAD_MAX, marker);
  }

  /** boundedRuntimeMCPText: without a positive limit the text is not bounded, and a limit
      too small for the marker leaves only a piece of the marker. */
  method BoundedMcpText(value: seq<Byte>, limit: int, marker: seq<Byte>) returns (r: seq<Byte>, cut: bool)
    requires Ascii(marker)
    ensures Valid(r) && (cut <==> 0 < limit < |ToValid(value)|)
    ensures !cut ==> r == ToValid(value)
    ensures cut && |marker| < limit ==> IsBounded(ToValid(value), limit, marker, r)
    ensures cut && |marker| >= limit ==> r <= marker && |r| <= limit
  {
    AsciiIsValid(marker);
    var s := ToValid(value);
    if limit <= 0 || |s| <= limit {
      return s, false;
    }
    if |marker| >= limit {
      r := RuneStartPrefix(marker, limit);
      return r, true;
    }
    r := HeadMarkerTail(s, limit, marker);
    cut := true;
  }

  /** What boundedRuntimeProcessMetadata makes of a value: the value, or as much of it as
      the marker leaves room for, and the marker. */
  ghost predicate IsMetadata(value: seq<Byte>, limit: int, marker: seq<Byte>, r: seq<Byte>, cut: bool) {
    && Valid(r) && (cut <==> |ToValid(value)| > limit)
    && (!cut ==> r == ToValid(value))
    && (cut ==> exists head ::
          r == head + marker && IsLongestPrefix(ToValid(value), if limit > |marker| then limit - |marker| else 0, head))
  }

  /** A cut value ends with the marker, so it exceeds its limit exactly when the marker
      does. */
  lemma {:induction false} MetadataWithin(value: seq<Byte>, limit: int, marker: seq<Byte>, r: seq<Byte>, cut: bool)
    requires IsMetadata(value, limit, marker, r, cut)
    ensures |r| <= limit <==> |ToValid(value)| <= limit || |marker| <= limit
    ensures cut && |marker| > limit ==> r == marker
  {
    if cut {
      var head :| r == head + marker &&
        IsLongestPrefix(ToValid(value), if limit > |marker| then limit - |marker| else 0, head);
      assert |marker| > limit ==> head == [];
    }
  }

  method BoundedMetadata(value: seq<Byte>, limit: int, marker: seq<Byte>) returns (r: seq<Byte>, cut: bool)
    requires Ascii(marker)
    ensures IsMetadata(value, limit, marker, r, cut)
    ensures |r| <= limit <==> |ToValid(value)| <= limit || |marker| <= limit
  {
    AsciiIsValid(marker);
    var s := ToValid(value);
    if |s| <= limit {
      r, cut := s, false;
    } else {
      var head := DecodingPrefix(s, limit - |marker|);
      ValidConcat(head, marker);
      r, cut := head + marker, true;
    }
    MetadataWithin(value, limit, marker, r, cut);
  }

  /* ----- argument lists ----- */

  /** The sum of the first k sizes. */
  function Total(sizes: seq<nat>, k: nat): (n: nat)
    requires k <= |sizes|
  {
    if k == 0 then 0 else Total(sizes, k - 1) + sizes[k - 1]
  }

  lemma {:induction false} TotalGrows(sizes: seq<nat>, j: nat, k: nat)
    requires j <= k <= |sizes|
    ensures Total(sizes, j) <= Total(sizes, k)
    decreases k
  {
    if j < k {
      TotalGrows(sizes, j, k - 1);
    }
  }

  /** Argument k is the one that no longer fits. */
  predicate CutsAt(sizes: seq<nat>, limit: int, k: nat) {
    k < |sizes| && Total(sizes, k) < limit < Total(sizes, k + 1)
  }

  /** The room left for the argument that no longer fits is smaller than the marker. */
  ghost predicate Overruns(sizes: seq<nat>, limit: int, marker: nat) {
    exists k :: CutsAt(sizes, limit, k) && limit - Total(sizes, k) < marker
  }

  lemma {:induction false} CutsAtOnce(sizes: seq<nat>, limit: int, j: nat, k: nat)
    requires CutsAt(sizes, limit, j) && k <= |sizes|
    ensures k <= j ==> Total(sizes, k) < limit
    ensures k > j ==> Total(sizes, k) > limit
  {
    if k <= j {
      TotalGrows(sizes, k, j);
    } else {
      TotalGrows(sizes, j + 1, k);
    }
  }

  lemma {:induction false} NotOverrun(sizes: seq<nat>, limit: int, marker: nat, i: nat)
    requires i <= |sizes| && (Total(sizes, i) == limit || (i == |sizes| && Total(sizes, i) <= limit))
    ensures !Overruns(sizes, limit, marker)
  {
    forall k ensures !CutsAt(sizes, limit, k) {
      if CutsAt(sizes, limit, k) {
        CutsAtOnce(sizes, limit, k, i);
      }
    }
  }

  lemma {:induction false} CutArgument(sizes: seq<nat>, limit: int, marker: nat, i: nat)
    requires CutsAt(sizes, limit, i)
    ensures Overruns(sizes, limit, marker) <==> limit - Total(sizes, i) < marker
  {
    forall k | CutsAt(sizes, limit, k) ensures k == i {
      CutsAtOnce(sizes, limit, k, i);
      CutsAtOnce(sizes, limit, i, k);
    }
  }

  /** Bytes of the arguments, once valid. */
  function Sizes(args: seq<seq<Byte>>): (sizes: seq<nat>) {
    seq(|args|, i requires 0 <= i < |args| => |ToValid(args[i])|)
  }

  function Bytes(xs: seq<seq<Byte>>): (n: nat) {
    if xs == [] then 0 else Bytes(xs[..|xs| - 1]) + |xs[|xs| - 1]|
  }

  lemma {:induction false} BytesMore(xs: seq<seq<Byte>>, x: seq<Byte>)
    ensures Bytes(xs + [x]) == Bytes(xs) + |x|
  {
    assert (xs + [x])[..|xs|] == xs;
  }

  /** What boundedRuntimeProcessArguments makes of a list: the arguments in front of the one
      that no longer fits, and that one cut. It stays within the limit if and only if the
      argument that no longer fits, if any, leaves room for the marker. */
  ghost predicate IsArguments(args: seq<seq<Byte>>, limit: int, marker: nat, r: seq<seq<Byte>>, cut: bool) {
    && (limit <= 0 ==> r == [] && (cut <==> args != []))
    && (limit > 0 ==> (Bytes(r) <= limit <==> !Overruns(Sizes(args), limit, marker)))
    && |r| <= |args| && (!cut ==> |r| == |args|)
    && (forall i :: 0 <= i < |r| && (!cut || i < |r| - 1) ==> r[i] == ToValid(args[i]))
  }

  method BoundedArguments(args: seq<seq<Byte>>, limit: int, marker: seq<Byte>)
    returns (result: seq<seq<Byte>>, cut: bool)
    requires Ascii(marker)
    ensures IsArguments(args, limit, |marker|, result, cut)
  {
    if limit <= 0 {
      return [], args != [];
    }
    var used := 0;
    result := [];
    ghost var sizes := Sizes(args);
    for i := 0 to |args|
      invariant |result| == i && used == Total(sizes, i) == Bytes(result) <= limit
      invariant forall j :: 0 <= j < i ==> result[j] == ToValid(args[j])
    {
      var remaining := limit - used;
      if remaining <= 0 {
        NotOverrun(sizes, limit, |marker|, i);
        return result, true;
      }
      assert sizes[i] == |ToValid(args[i])|;
      var bounded, truncated := BoundedMetadata(args[i], remaining, marker);
      BytesMore(result, bounded);
      result := result + [bounded];
      used := used + |bounded|;
      if truncated {
        CutArgument(sizes, limit, |marker|, i);
        return result, true;
      }
    }
    NotOverrun(sizes, limit, |marker|, |args|);
    cut := false;
  }

  const SUMMARY_MAX := 1536
  const METADATA_MARKER_BYTES := 11

  /** The failing case: a process summary leaves the arguments what a two-byte command
      leaves of 1536 bytes; after 1530 bytes of one argument, four are left for the next
      one, and it is replaced by the eleven bytes of the marker. */
  lemma {:induction false} SummaryOverruns(first: seq<Byte>, second: seq<Byte>, r: seq<seq<Byte>>, cut: bool)
    requires Ascii(first) && Ascii(second) && |first| == 1530 && |second| == 10
    requires IsArguments([first, second], SUMMARY_MAX - 2, METADATA_MARKER_BYTES, r, cut)
    ensures Bytes(r) > SUMMARY_MAX - 2
  {
    AsciiIsValid(first);
    AsciiIsValid(second);
    var sizes := Sizes([first, second]);
    assert sizes[0] == 1530 && sizes[1] == 10;
    assert Total(sizes, 1) == Total(sizes, 0) + 1530 && Total(sizes, 2) == Total(sizes, 1) + 10;
    assert CutsAt(sizes, SUMMARY_MAX - 2, 1);
  }

  /* ----- tool output in history ----- */

  const NEWLINE: Byte := 10

  /** Last newline in s[..n], if any. */
  function LastNewline(s: seq<Byte>, n: nat): (i: int)
    requires n <= |s|
    ensures -1 <= i < n && (i >= 0 ==> s[i] == NEWLINE)
    ensures forall j :: i < j < n ==> s[j] != NEWLINE
  {
    if n == 0 then -1 else if s[n - 1] == NEWLINE then n - 1 else LastNewline(s, n - 1)
  }

  function FirstNewline(s: seq<Byte>, n: nat): (i: int)
    requires n <= |s|
    ensures i == -1 || (n <= i < |s| && s[i] == NEWLINE)
    ensures forall j :: n <= j < (if i == -1 then |s| else i) ==> s[j] != NEWLINE
    decreases |s| - n
  {
    if n == |s| then -1 else if s[n] == NEWLINE then n else FirstNewline(s, n + 1)
  }

  predicate NoBreak(s: seq<Byte>, i: nat, j: nat)
    requires j <= |s|
  {
    forall k :: i <= k < j ==> s[k] != NEWLINE
  }

  /** Behind the last line break before pos, or pos itself if there is none. */
  function LineEnd(s: seq<Byte>, pos: nat): (n: nat)
    ensures n <= |s| && (pos <= |s| ==> n <= pos)
    ensures pos < |s| ==>
      (n > 0 && s[n - 1] == NEWLINE && NoBreak(s, n, pos)) || (n == pos && NoBreak(s, 0, pos))
  {
    if pos >= |s| then |s| else if LastNewline(s, pos) < 0 then pos else LastNewline(s, pos) + 1
  }

  /** Behind the first line break from pos on, or pos itself if there is none. */
  function LineStart(s: seq<Byte>, pos: int): (n: nat)
    ensures n <= |s| && (0 <= pos <= |s| ==> n >= pos)
    ensures 0 < pos < |s| ==>
      (n > pos && s[n - 1] == NEWLINE && NoBreak(s, pos, n - 1)) || (n == pos && NoBreak(s, pos, |s|))
  {
    if pos <= 0 then 0 else if pos >= |s| then |s| else if FirstNewline(s, pos) < 0 then pos
      else FirstNewline(s, pos) + 1
  }

  const BYTES_PER_TOKEN := 4

  /** The head gets 60% of the byte budget, rounded down, the tail the rest. */
  function HeadBytes(maxTokens: nat): (n: nat)
    ensures n <= maxTokens * BYTES_PER_TOKEN
    ensures 5 * n <= 3 * (maxTokens * BYTES_PER_TOKEN) < 5 * n + 5
  {
    maxTokens * BYTES_PER_TOKEN * 60 / 100
  }

  function TailBytes(maxTokens: nat): (n: nat)
    ensures n + HeadBytes(maxTokens) == maxTokens * BYTES_PER_TOKEN
    ensures 2 * (maxTokens * BYTES_PER_TOKEN) <= 5 * n < 2 * (maxTokens * BYTES_PER_TOKEN) + 5
    ensures maxTokens > 0 ==> n > 0
  {
    maxTokens * BYTES_PER_TOKEN - HeadBytes(maxTokens)
  }

  /** Head s[..headEnd] and tail s[tailStart..] of at most these sizes: whole lines where
      there is a line break to cut at, whole characters always. */
  ghost predicate IsHeadTail(s: seq<Byte>, headBytes: nat, tailBytes: nat, headEnd: nat, tailStart: nat)
    requires tailBytes <= |s|
  {
    var headLine, tailLine := LineEnd(s, headBytes), LineStart(s, |s| - tailBytes);
    && headEnd <= headLine <= headBytes < |s| - tailBytes <= tailLine <= tailStart <= |s|
    && (headEnd == 0 || RuneStart(s[headEnd])) && Boundary(s, tailStart)
    && (forall j :: headEnd < j <= headLine ==> !RuneStart(s[j]))
    && (forall j :: tailLine <= j < tailStart ==> !RuneStart(s[j]))
  }

  /** On valid text these are the longest valid head and tail within the line cuts. */
  lemma {:induction false} HeadTailValid(s: seq<Byte>, headBytes: nat, tailBytes: nat, headEnd: nat, tailStart: nat,
      marker: seq<Byte>)
    requires Valid(s) && Ascii(marker) && tailBytes <= |s| && IsHeadTail(s, headBytes, tailBytes, headEnd, tailStart)
    ensures IsLongestPrefix(s, LineEnd(s, headBytes), s[..headEnd])
    ensures IsLongestSuffix(s, |s| - LineStart(s, |s| - tailBytes), s[tailStart..])
    ensures Valid(s[..headEnd] + marker + s[tailStart..])
  {
    ValidPrefixWithin(s, headEnd, LineEnd(s, headBytes));
    ValidSuffixWithin(s, |s| - LineStart(s, |s| - tailBytes), tailStart);
    MarkedIsValid(s[..headEnd], marker, s[tailStart..]);
  }

  method HeadTail(s: seq<Byte>, headBytes: nat, tailBytes: nat) returns (headEnd: nat, tailStart: nat)
    requires headBytes + tailBytes < |s|
    ensures IsHeadTail(s, headBytes, tailBytes, headEnd, tailStart)
  {
    headEnd := LineEnd(s, headBytes);
    tailStart := LineStart(s, |s| - tailBytes);
    if tailStart <= headEnd {
      assert false;
    }
    headEnd := RuneFloor(s, headEnd);
    tailStart := RuneCeiling(s, tailStart);
  }

  /** The marker between head and tail, which do not overlap and stay within the budget. */
  method CutOut(content: seq<Byte>, maxBytes: nat, headBytes: nat, tailBytes: nat, marker: nat -> seq<Byte>)
    returns (r: seq<Byte>, headEnd: nat, tailStart: nat)
    requires headBytes + tailBytes == maxBytes < |content| && forall n :: Ascii(marker(n))
    ensures IsHeadTail(content, headBytes, tailBytes, headEnd, tailStart)
    ensures headEnd < tailStart <= |content| && headEnd + (|content| - tailStart) <= maxBytes
    ensures r == content[..headEnd] + marker((tailStart - headEnd) / BYTES_PER_TOKEN) + content[tailStart..]
    ensures Valid(content) ==> Valid(r)
  {
    headEnd, tailStart := HeadTail(content, headBytes, tailBytes);
    if tailStart <= headEnd {
      assert false;
    }
    var dropped := marker((tailStart - headEnd) / BYTES_PER_TOKEN);
    r := content[..headEnd] + dropped + content[tailStart..];
    if Valid(content) {
      HeadTailValid(content, headBytes, tailBytes, headEnd, tailStart, dropped);
    }
  }

  /** TruncateToolOutput. The kept head and tail never overlap, so neither of the source's
      overlap fallbacks is taken, and together they stay within the budget. `marker` is
      the text that tells how many tokens were dropped. */
  method TruncateToolOutput(content: seq<Byte>, maxTokens: int, marker: nat -> seq<Byte>)
    returns (r: seq<Byte>, headEnd: nat, tailStart: nat)
    requires forall n :: Ascii(marker(n))
    ensures maxTokens <= 0 || |content| <= maxTokens * BYTES_PER_TOKEN ==> r == content
    ensures maxTokens > 0 && |content| > maxTokens * BYTES_PER_TOKEN ==>
      && IsHeadTail(content, HeadBytes(maxTokens), TailBytes(maxTokens), headEnd, tailStart)
      && headEnd < tailStart <= |content| && headEnd + (|content| - tailStart) <= maxTokens * BYTES_PER_TOKEN
      && 5 * headEnd <= 3 * (maxTokens * BYTES_PER_TOKEN)
      && 5 * (|content| - tailStart) < 2 * (maxTokens * BYTES_PER_TOKEN) + 5
      && r == content[..headEnd] + marker((tailStart - headEnd) / BYTES_PER_TOKEN) + content[tailStart..]
    ensures Valid(content) ==> Valid(r)
  {
    headEnd, tailStart := 0, 0;
    if maxTokens <= 0 {
      r := content;
      return;
    }
    var maxBytes := maxTokens * BYTES_PER_TOKEN;
    if |content| <= maxBytes {
      r := content;
      return;
    }
    r, headEnd, tailStart := CutOut(content, maxBytes, HeadBytes(maxTokens), TailBytes(maxTokens), marker);
  }

  /* ----- command output over a whole run ----- */

  const OUTPUT_MAX := 64 * 1024

  /** `output` shows all of the text if it leaves room for the marker; otherwise as much
      of it as does, and then the marker. */
  ghost predicate IsOutput(all: seq<Byte>, room: nat, marker: seq<Byte>, output: seq<Byte>, capped: bool) {
    && (capped <==> |all| > room)
    && exists shown :: IsLongestPrefix(all, room, shown) && output == if capped then shown + marker else shown
  }

  /** appendRuntimeCommandOutput: what to add, and whether the output is now capped. */
  method AppendOutput(current: seq<Byte>, data: seq<Byte>, marker: seq<Byte>) returns (delta: seq<Byte>, capped: bool)
    requires Ascii(marker) && |marker| <= OUTPUT_MAX
    ensures Valid(delta)
    ensures |current| < OUTPUT_MAX - |marker| ==>
      IsOutput(ToValid(data), OUTPUT_MAX - |marker| - |current|, marker, delta, capped)
    ensures |current| >= OUTPUT_MAX - |marker| ==> delta == marker && capped
  {
    AsciiIsValid(marker);
    var valid := ToValid(data);
    var remaining := OUTPUT_MAX - |marker| - |current|;
    if remaining <= 0 {
      return marker, true;
    }
    if |valid| <= remaining {
      WholeIsOutput(valid, remaining, marker);
      return valid, false;
    }
    var kept := DecodingPrefix(valid, remaining);
    ValidConcat(kept, marker);
    delta, capped := kept + marker, true;
  }

  /** Everything the command wrote. */
  function AllText(chunks: seq<seq<Byte>>): (t: seq<Byte>)
    ensures Valid(t)
  {
    if chunks == [] then []
    else
      var n := |chunks| - 1;
      ValidConcat(AllText(chunks[..n]), ToValid(chunks[n]));
      AllText(chunks[..n]) + ToValid(chunks[n])
  }

  /** The bytes themselves. */
  function Raw(chunks: seq<seq<Byte>>): (t: seq<Byte>) {
    if chunks == [] then [] else Raw(chunks[..|chunks| - 1]) + chunks[|chunks| - 1]
  }

  lemma {:induction false} WholeCharactersAreRaw(chunks: seq<seq<Byte>>)
    requires forall i :: 0 <= i < |chunks| ==> Valid(chunks[i])
    ensures AllText(chunks) == Raw(chunks)
  {
    if chunks != [] {
      WholeCharactersAreRaw(chunks[..|chunks| - 1]);
    }
  }

  /** How the bytes were split into events does not matter if no event but the last ends
      inside a character: the text is that of all the bytes. */
  lemma {:induction false} SplitDoesNotMatter(chunks: seq<seq<Byte>>)
    requires forall i :: 0 <= i < |chunks| - 1 ==> Valid(chunks[i])
    ensures AllText(chunks) == ToValid(Raw(chunks))
  {
    if chunks != [] {
      var n := |chunks| - 1;
      WholeCharactersAreRaw(chunks[..n]);
      ToValidSplits(Raw(chunks[..n]), chunks[n]);
    }
  }

  /** A split inside a character does matter: both halves are replaced. */
  lemma SplitInsideMatters()
    ensures AllText([[0xC3, 0xA9]]) != AllText([[0xC3], [0xA9]])
  {
    var whole: seq<Byte>, first: seq<Byte>, second: seq<Byte> := [0xC3, 0xA9], [0xC3], [0xA9];
    assert RuneLen(whole) == 2 && whole[2..] == [] && Valid(whole);
    OneText(whole);
    OneText(first);
    assert [first, second][..1] == [first];
    assert RuneLen(first) == 0 && first[1..] == [];
    assert |ToValid(first)| >= 3;
  }

  lemma OneText(chunk: seq<Byte>)
    ensures AllText([chunk]) == ToValid(chunk)
  {
    assert [chunk][..0] == [];
    assert [] + ToValid(chunk) == ToValid(chunk);
  }

  lemma {:induction false} UncappedIsAll(all: seq<Byte>, room: nat, marker: seq<Byte>, output: seq<Byte>)
    requires Valid(all) && IsOutput(all, room, marker, output, false)
    ensures output == all
  {
    assert all[..|all|] == all;
  }

  lemma {:induction false} WholeIsOutput(all: seq<Byte>, room: nat, marker: seq<Byte>)
    requires Valid(all) && |all| <= room
    ensures IsOutput(all, room, marker, all, false)
  {
    assert IsLongestPrefix(all, room, all);
  }

  lemma {:induction false} OutputContinues(a: seq<Byte>, b: seq<Byte>, room: nat, shown: seq<Byte>)
    requires Valid(a) && Valid(b) && |a| <= room && IsLongestPrefix(b, room - |a|, shown)
    ensures IsLongestPrefix(a + b, room, a + shown)
  {
    ValidConcat(a, shown);
    assert a + shown <= a + b;
    forall j | |a + shown| < j <= room && j <= |a + b| ensures !Valid((a + b)[..j]) {
      if Valid((a + b)[..j]) {
        ValidBehind(a, b, j);
      }
    }
  }

  lemma {:induction false} ValidBehind(a: seq<Byte>, b: seq<Byte>, j: nat)
    requires Valid(a) && Valid(b) && |a| <= j <= |a + b| && Valid((a + b)[..j])
    ensures Valid(b[..j - |a|])
  {
    ValidConcat(a, b);
    ValidPrefixEndsAtBoundary(a + b, j);
    assert Boundary(b, j - |a|);
    ValidCut(b, j - |a|);
  }

  lemma {:induction false} CappedOutputStays(a: seq<Byte>, b: seq<Byte>, room: nat, marker: seq<Byte>,
      output: seq<Byte>)
    requires IsOutput(a, room, marker, output, true)
    ensures IsOutput(a + b, room, marker, output, true)
  {
    var shown :| IsLongestPrefix(a, room, shown) && output == shown + marker;
    forall j | |shown| < j <= room ensures !Valid((a + b)[..j]) {
      assert (a + b)[..j] == a[..j];
    }
  }

  /** Adding what AppendOutput returns to an output that is not capped yet. */
  lemma {:induction false} OutputGrows(a: seq<Byte>, b: seq<Byte>, room: nat, marker: seq<Byte>, delta: seq<Byte>,
      capped: bool)
    requires Valid(a) && |a| <= room && b != [] && Valid(b)
    requires |a| < room ==> IsOutput(b, room - |a|, marker, delta, capped)
    requires |a| == room ==> delta == marker && capped
    ensures IsOutput(a + b, room, marker, a + delta, capped)
  {
    if capped {
      OutputFills(a, b, room, marker, CappedPart(a, b, room, marker, delta));
    } else {
      UncappedIsAll(b, room - |a|, marker, delta);
      ValidConcat(a, b);
      WholeIsOutput(a + b, room, marker);
    }
  }

  lemma {:induction false} OutputFills(a: seq<Byte>, b: seq<Byte>, room: nat, marker: seq<Byte>, shown: seq<Byte>)
    requires Valid(a) && Valid(b) && |a| <= room < |a| + |b|
    requires IsLongestPrefix(b, room - |a|, shown)
    ensures IsOutput(a + b, room, marker, a + (shown + marker), true)
  {
    OutputContinues(a, b, room, shown);
    CappedIsOutput(a + b, room, marker, a + shown);
    assert a + (shown + marker) == (a + shown) + marker;
  }

  lemma {:induction false} CappedIsOutput(all: seq<Byte>, room: nat, marker: seq<Byte>, shown: seq<Byte>)
    requires |all| > room && IsLongestPrefix(all, room, shown)
    ensures IsOutput(all, room, marker, shown + marker, true)
  {
  }

  ghost function CappedPart(a: seq<Byte>, b: seq<Byte>, room: nat, marker: seq<Byte>,
      delta: seq<Byte>): (shown: seq<Byte>)
    requires |a| <= room
    requires |a| < room ==> IsOutput(b, room - |a|, marker, delta, true)
    requires |a| == room ==> delta == marker
    ensures IsLongestPrefix(b, room - |a|, shown) && delta == shown + marker
  {
    if |a| == room then []
    else
      var shown :| IsLongestPrefix(b, room - |a|, shown) && delta == shown + marker;
      shown
  }

  /** The output a command item shows after these chunks (commandOutput events): the longest
      valid part of the chunks, each made valid, that leaves room for the marker, and the
      marker once, last, exactly when something is missing. */
  method CommandOutput(chunks: seq<seq<Byte>>, marker: seq<Byte>) returns (output: seq<Byte>, capped: bool)
    requires Ascii(marker) && |marker| <= OUTPUT_MAX
    ensures IsOutput(AllText(chunks), OUTPUT_MAX - |marker|, marker, output, capped)
    ensures |output| <= OUTPUT_MAX && Valid(output)
  {
    ghost var room := OUTPUT_MAX - |marker|;
    output, capped := [], false;
    WholeIsOutput([], room, marker);
    for i := 0 to |chunks|
      invariant Valid(output) && IsOutput(AllText(chunks[..i]), room, marker, output, capped)
    {
      AllTextSnoc(chunks, i);
      output, capped := ShowChunk(AllText(chunks[..i]), output, capped, chunks[i], marker);
    }
    assert chunks[..|chunks|] == chunks;
  }

  lemma {:induction false} AllTextSnoc(chunks: seq<seq<Byte>>, i: nat)
    requires i < |chunks|
    ensures AllText(chunks[..i + 1]) == AllText(chunks[..i]) + ToValid(chunks[i])
  {
    assert chunks[..i + 1][..i] == chunks[..i];
  }

  /** commandOutput: a capped item and an empty event change nothing. */
  method ShowChunk(ghost before: seq<Byte>, output: seq<Byte>, capped: bool, chunk: seq<Byte>, marker: seq<Byte>)
    returns (output': seq<Byte>, capped': bool)
    requires Ascii(marker) && |marker| <= OUTPUT_MAX && Valid(before) && Valid(output)
    requires IsOutput(before, OUTPUT_MAX - |marker|, marker, output, capped)
    ensures Valid(output') && IsOutput(before + ToValid(chunk), OUTPUT_MAX - |marker|, marker, output', capped')
  {
    ghost var room := OUTPUT_MAX - |marker|;
    output', capped' := output, capped;
    if capped {
      CappedOutputStays(before, ToValid(chunk), room, marker, output);
    } else if chunk == [] {
      assert before + ToValid(chunk) == before;
    } else {
      UncappedIsAll(before, room, marker, output);
      output', capped' := ShowMore(output, chunk, marker);
    }
  }

  /** The same for an output that shows everything so far. */
  method ShowMore(output: seq<Byte>, chunk: seq<Byte>, marker: seq<Byte>) returns (output': seq<Byte>, capped': bool)
    requires Ascii(marker) && Valid(output) && |output| + |marker| <= OUTPUT_MAX && chunk != []
    ensures Valid(output') && IsOutput(output + ToValid(chunk), OUTPUT_MAX - |marker|, marker, output', capped')
  {
    var delta, full := AppendOutput(output, chunk, marker);
    OutputGrows(output, ToValid(chunk), OUTPUT_MAX - |marker|, marker, delta, full);
    ValidConcat(output, delta);
    output', capped' := output + delta, full;
  }
}
