/** Automatic context compaction (core/autocontext.go): old messages give way to one
    summary, and tool results whose calls went with them become plain text. */
module Compaction {
  import opened Transcript

  /** `clip` is the byte-bounded excerpt kept of an orphaned result, `pin` the instructions
      in a history that a summary must repeat. */
  datatype AutoContext = AutoContext(maxTokens: int, keepLastN: int, clip: string -> string,
      pin: seq<Message> -> string)

  const PLACEHOLDER := UserPrompt("[Previous tool results removed during context recovery]")

  function CallIds(h: seq<Message>): set<string> {
    if h == [] then {}
    else
      var m := h[|h| - 1];
      var front := CallIds(h[..|h| - 1]);
      if m.Response? then front + (set c | c in Calls(m.parts) :: c.id) else front
  }

  function PlainText(c: Content): string {
    match c
    case Str(s) => s
    case Nothing => ""
    case Structured(json) => json
  }

  predicate Orphan(ids: set<string>, p: RequestPart) {
    (p.ToolReturn? && p.id !in ids) || (p.RetryPrompt? && p.retryId != "" && p.retryId !in ids)
  }

  /** What remains of one orphan: an excerpt, unless it had no content. */
  function Remains(cfg: AutoContext, p: RequestPart): seq<RequestPart> {
    match p
    case ToolReturn(tool, content, _) =>
      if PlainText(content) == "" then []
      else [UserPrompt("[Previous " + tool + " result] " + cfg.clip(PlainText(content)))]
    case RetryPrompt(feedback, _, _) =>
      if feedback == "" then [] else [UserPrompt("[Previous tool error] " + cfg.clip(feedback))]
    case _ => [p]
  }

  /** What is left of a part. */
  function Left(cfg: AutoContext, ids: set<string>, p: RequestPart): seq<RequestPart> {
    if Orphan(ids, p) then Remains(cfg, p) else [p]
  }

  function Filtered(cfg: AutoContext, ids: set<string>, parts: seq<RequestPart>): seq<RequestPart> {
    if parts == [] then []
    else Filtered(cfg, ids, parts[..|parts| - 1]) + Left(cfg, ids, parts[|parts| - 1])
  }

  function StripMessage(cfg: AutoContext, ids: set<string>, m: Message): Message {
    if m.Response? || forall p :: p in m.asked ==> !Orphan(ids, p) then m
    else
      var kept := Filtered(cfg, ids, m.asked);
      Request(if kept == [] then [PLACEHOLDER] else kept)
  }

  function StripAll(cfg: AutoContext, ids: set<string>, h: seq<Message>): (r: seq<Message>)
    ensures |r| == |h| && forall i :: 0 <= i < |h| ==> r[i] == StripMessage(cfg, ids, h[i])
  {
    if h == [] then [] else StripAll(cfg, ids, h[..|h| - 1]) + [StripMessage(cfg, ids, h[|h| - 1])]
  }

  /** stripOrphanedToolResults: one pass collects the call ids, a second rebuilds the messages. */
  method StripOrphans(cfg: AutoContext, h: seq<Message>) returns (out: seq<Message>)
    ensures out == StripAll(cfg, CallIds(h), h)
  {
    var ids := {};
    for i := 0 to |h|
      invariant ids == CallIds(h[..i])
    {
      assert h[..i + 1][..i] == h[..i];
      if h[i].Response? {
        ids := ids + set c | c in Calls(h[i].parts) :: c.id;
      }
    }
    assert h[..|h|] == h;
    out := [];
    for i := 0 to |h|
      invariant out == StripAll(cfg, ids, h[..i])
    {
      assert h[..i + 1][..i] == h[..i];
      var m := StripRequest(cfg, ids, h[i]);
      out := out + [m];
    }
  }

  /** One message of the second pass: it is rebuilt only if an orphan was found. */
  method StripRequest(cfg: AutoContext, ids: set<string>, m: Message) returns (m': Message)
    ensures m' == StripMessage(cfg, ids, m)
  {
    if m.Response? {
      return m;
    }
    var kept, modified := [], false;
    for k := 0 to |m.asked|
      invariant kept == Filtered(cfg, ids, m.asked[..k])
      invariant modified <==> exists j :: 0 <= j < k && Orphan(ids, m.asked[j])
    {
      assert m.asked[..k + 1][..k] == m.asked[..k];
      if Orphan(ids, m.asked[k]) {
        kept := kept + Remains(cfg, m.asked[k]);
        modified := true;
      } else {
        kept := kept + [m.asked[k]];
      }
    }
    assert m.asked[..|m.asked|] == m.asked;
    return if modified then Request(if kept == [] then [PLACEHOLDER] else kept) else m;
  }

  /** First message that is kept verbatim; it is moved back onto a request. */
  function StartRecent(cfg: AutoContext, h: seq<Message>): nat
    requires 1 <= cfg.keepLastN < |h|
  {
    var start := |h| - cfg.keepLastN;
    if start > 1 && h[start].Response? then start - 1 else start
  }

  function SummaryMessage(pin: string, summary: string): Message {
    var head := if pin == "" then " " else "\n" + pin + "\n\n";
    Response([Text("[Conversation Summary]" + head + summary)], Stop, Usage(0, 0, 0, 0, map[]))
  }

  function Rebuilt(cfg: AutoContext, h: seq<Message>, summary: string): seq<Message>
    requires 1 <= cfg.keepLastN < |h|
  {
    [h[0], SummaryMessage(cfg.pin(h), summary)] + h[StartRecent(cfg, h)..]
  }

  /** `summary` is what the summary model answered; none when it failed or said nothing. */
  function Compress(cfg: AutoContext, h: seq<Message>, tokens: int, summary: Option<string>): seq<Message>
    requires cfg.keepLastN >= 1
  {
    if tokens <= cfg.maxTokens || cfg.keepLastN >= |h| then h
    else if StartRecent(cfg, h) == 1 || summary.None? then h
    else
      var r := Rebuilt(cfg, h, summary.value);
      StripAll(cfg, CallIds(r), r)
  }

  /** The engines keep the compressed history only if it is shorter. */
  function Adopt(h: seq<Message>, compressed: seq<Message>): seq<Message> {
    if |compressed| < |h| then compressed else h
  }

  /** No tool result names a call that is not in the history. */
  ghost predicate NoOrphans(h: seq<Message>) {
    forall i, j :: 0 <= i < |h| && h[i].Request? && 0 <= j < |h[i].asked| ==> !Orphan(CallIds(h), h[i].asked[j])
  }

  lemma GivenOne(p: RequestPart, k: Key)
    ensures Given([p], k) == if Answers(p, k) then 1 else 0
  {
    GivenSnoc([], p, k);
    assert [] + [p] == [p];
  }

  /** An answer to a call that is present is left alone; what is left of another answers
      nothing. */
  lemma LeftKeepsAnswers(cfg: AutoContext, ids: set<string>, p: RequestPart, k: Key)
    requires k.1 in ids
    ensures Given(Left(cfg, ids, p), k) == if Answers(p, k) then 1 else 0
  {
    var left := Left(cfg, ids, p);
    if left != [] {
      GivenOne(left[0], k);
      assert left == [left[0]];
    }
  }

  lemma {:induction false} FilteredKeepsAnswers(cfg: AutoContext, ids: set<string>, parts: seq<RequestPart>, k: Key)
    requires k.1 in ids
    ensures Given(Filtered(cfg, ids, parts), k) == Given(parts, k)
  {
    if parts != [] {
      var n := |parts| - 1;
      FilteredKeepsAnswers(cfg, ids, parts[..n], k);
      LeftKeepsAnswers(cfg, ids, parts[n], k);
      GivenAppend(Filtered(cfg, ids, parts[..n]), Left(cfg, ids, parts[n]), k);
    }
  }

  /** Stripping a request keeps its answers to every call that is present. */
  lemma StripKeepsGiven(cfg: AutoContext, ids: set<string>, m: Message, k: Key)
    requires m.Request? && k.1 in ids
    ensures Given(StripMessage(cfg, ids, m).asked, k) == Given(m.asked, k)
  {
    FilteredKeepsAnswers(cfg, ids, m.asked, k);
    GivenOne(PLACEHOLDER, k);
  }

  lemma {:induction false} FilteredHasNoOrphans(cfg: AutoContext, ids: set<string>, parts: seq<RequestPart>)
    ensures forall j :: 0 <= j < |Filtered(cfg, ids, parts)| ==> !Orphan(ids, Filtered(cfg, ids, parts)[j])
  {
    if parts != [] {
      FilteredHasNoOrphans(cfg, ids, parts[..|parts| - 1]);
    }
  }

  lemma StripKeepsAnswers(cfg: AutoContext, ids: set<string>, parts: seq<ResponsePart>, m: Message)
    requires m.Request? && Answered(parts, m)
    requires forall c :: c in Calls(parts) ==> c.id in ids
    ensures Answered(parts, StripMessage(cfg, ids, m))
  {
    forall k | Asked(Calls(parts), k) > 0 ensures Given(StripMessage(cfg, ids, m).asked, k) == Asked(Calls(parts), k) {
      AskedIsPresent(Calls(parts), k);
      StripKeepsGiven(cfg, ids, m, k);
    }
  }

  lemma {:induction false} AskedIsPresent(calls: seq<Call>, k: Key)
    requires Asked(calls, k) > 0
    ensures exists c :: c in calls && c.id == k.1
  {
    var n := |calls| - 1;
    if KeyOf(calls[n]) == k {
      assert calls[n] in calls;
    } else {
      AskedIsPresent(calls[..n], k);
    }
  }

  lemma {:induction false} CallIdsContain(h: seq<Message>, i: nat)
    requires i < |h| && h[i].Response?
    ensures forall c :: c in Calls(h[i].parts) ==> c.id in CallIds(h)
  {
    if i < |h| - 1 {
      assert h[..|h| - 1][i] == h[i];
      CallIdsContain(h[..|h| - 1], i);
    }
  }

  lemma {:induction false} StripKeepsCallIds(cfg: AutoContext, ids: set<string>, h: seq<Message>)
    ensures CallIds(StripAll(cfg, ids, h)) == CallIds(h)
  {
    if h != [] {
      StripKeepsCallIds(cfg, ids, h[..|h| - 1]);
      var r := StripAll(cfg, ids, h);
      assert r[..|h| - 1] == StripAll(cfg, ids, h[..|h| - 1]);
    }
  }

  /** Replacing the middle by a summary keeps the history well formed. */
  lemma RebuiltSendable(cfg: AutoContext, h: seq<Message>, summary: string)
    requires Sendable(h) && 1 <= cfg.keepLastN < |h| && StartRecent(cfg, h) > 1
    ensures Sendable(Rebuilt(cfg, h, summary))
  {
    var start := StartRecent(cfg, h);
    var r := Rebuilt(cfg, h, summary);
    assert h[start].Request?;
    forall i | 0 <= i < |r| && r[i].Response? && Calls(r[i].parts) != []
      ensures i + 1 < |r| && Answered(r[i].parts, r[i + 1])
    {
      var s := SummaryMessage(cfg.pin(h), summary).parts;
      assert s[..0] == [];
      assert Calls(s) == [];
      assert i >= 2 && r[i] == h[start + i - 2] && r[i + 1] == h[start + i - 1];
    }
    forall i | 0 <= i < |r| - 1 && r[i].Response? ensures r[i + 1].Request? {
      if i >= 2 {
        assert r[i] == h[start + i - 2] && r[i + 1] == h[start + i - 1];
      }
    }
  }

  lemma StripLeavesNoOrphans(cfg: AutoContext, h: seq<Message>)
    ensures NoOrphans(StripAll(cfg, CallIds(h), h))
  {
    var ids := CallIds(h);
    var r := StripAll(cfg, ids, h);
    StripKeepsCallIds(cfg, ids, h);
    forall i, j | 0 <= i < |r| && r[i].Request? && 0 <= j < |r[i].asked| ensures !Orphan(ids, r[i].asked[j]) {
      FilteredHasNoOrphans(cfg, ids, h[i].asked);
    }
  }

  lemma {:induction false} StripSendable(cfg: AutoContext, h: seq<Message>)
    requires Sendable(h)
    ensures Sendable(StripAll(cfg, CallIds(h), h))
  {
    var ids := CallIds(h);
    var r := StripAll(cfg, ids, h);
    forall i | 0 <= i < |r| && r[i].Response? && Calls(r[i].parts) != []
      ensures i + 1 < |r| && Answered(r[i].parts, r[i + 1])
    {
      assert r[i] == h[i];
      CallIdsContain(h, i);
      StripKeepsAnswers(cfg, ids, h[i].parts, h[i + 1]);
    }
  }

  /** Compaction keeps every history that may be sent sendable, leaves no tool result
      without its call, and is adopted only when strictly shorter. */
  lemma {:induction false} CompressSound(cfg: AutoContext, h: seq<Message>, tokens: int, summary: Option<string>)
    requires cfg.keepLastN >= 1 && Sendable(h)
    ensures var r := Compress(cfg, h, tokens, summary);
      Sendable(r) && Sendable(Adopt(h, r)) && (r != h ==> NoOrphans(r)) && (Adopt(h, r) != h ==> |Adopt(h, r)| < |h|)
  {
    if tokens > cfg.maxTokens && cfg.keepLastN < |h| && StartRecent(cfg, h) > 1 && summary.Some? {
      RebuiltSendable(cfg, h, summary.value);
      StripSendable(cfg, Rebuilt(cfg, h, summary.value));
      StripLeavesNoOrphans(cfg, Rebuilt(cfg, h, summary.value));
    }
  }

  /** A response stays as it is, a request keeps its answers with key k if that call is
      present. */
  predicate Keeps(ids: set<string>, m: Message, m': Message, k: Key) {
    if m.Response? then m' == m else m'.Request? && (k.1 in ids ==> Given(m'.asked, k) == Given(m.asked, k))
  }

  lemma StripKeeps(cfg: AutoContext, h: seq<Message>, i: nat, k: Key)
    requires i < |h|
    ensures CallIds(StripAll(cfg, CallIds(h), h)) == CallIds(h)
    ensures Keeps(CallIds(h), h[i], StripAll(cfg, CallIds(h), h)[i], k)
  {
    StripKeepsCallIds(cfg, CallIds(h), h);
    if h[i].Request? && k.1 in CallIds(h) {
      StripKeepsGiven(cfg, CallIds(h), h[i], k);
    }
  }

  /** The message that stands at place i of the rebuilt history, of length n. */
  function Source(cfg: AutoContext, h: seq<Message>, summary: string, n: nat, i: nat): Message
    requires h != [] && i < n && (i >= 2 ==> n - i <= |h|)
  {
    if i == 0 then h[0] else if i == 1 then SummaryMessage(cfg.pin(h), summary) else h[|h| - n + i]
  }

  /** A compacted history opens with the first message and the summary, and goes on with
      at least the last KeepLastN messages: each response as it was, each request with
      every answer to a call that is still present. */
  lemma {:induction false} CompressKeepsRecent(cfg: AutoContext, h: seq<Message>, tokens: int, summary: Option<string>,
      i: nat, k: Key)
    requires cfg.keepLastN >= 1 && Compress(cfg, h, tokens, summary) != h && i < |Compress(cfg, h, tokens, summary)|
    ensures var r := Compress(cfg, h, tokens, summary);
      && summary.Some? && cfg.keepLastN + 2 <= |r| <= |h| + 2
      && Keeps(CallIds(r), Source(cfg, h, summary.value, |r|, i), r[i], k)
  {
    var r := Rebuilt(cfg, h, summary.value);
    StripKeeps(cfg, r, i, k);
    assert r[i] == Source(cfg, h, summary.value, |r|, i);
  }

  /** A middle to summarize: something lies between the first message and the recent ones,
      which open with a request. `n` messages stand before the last KeepLastN. */
  predicate HasMiddle(h: seq<Message>, n: int, least: nat) {
    n > least || (n == least && least < |h| && h[least].Request?)
  }

  /** The history is compacted exactly when it exceeds the limit, has a middle and a summary
      came, and the result is adopted exactly when that middle held more than one message.
      (A middle that already is the summary may of course come out unchanged.) */
  lemma {:induction false} CompressesExactlyWhen(cfg: AutoContext, h: seq<Message>, tokens: int,
      summary: Option<string>)
    requires cfg.keepLastN >= 1
    ensures var r := Compress(cfg, h, tokens, summary); var n := |h| - cfg.keepLastN;
      && (r != h ==> tokens > cfg.maxTokens && summary.Some? && HasMiddle(h, n, 2))
      && (tokens > cfg.maxTokens && summary.Some? && HasMiddle(h, n, 2) ==>
            |r| >= 2 && r[0].Request? == h[0].Request? && r[1] == SummaryMessage(cfg.pin(h), summary.value))
      && (Adopt(h, r) != h <==> tokens > cfg.maxTokens && summary.Some? && HasMiddle(h, n, 3))
      && (HasMiddle(h, n, 3) && Adopt(h, r) != h ==> Adopt(h, r) == r)
  {
  }

  /** What the model reads of a part: an orphan leaves an excerpt that names its tool, or
      nothing if it had no content; everything else stays. */
  ghost predicate Readable(cfg: AutoContext, ids: set<string>, p: RequestPart, asked: seq<RequestPart>) {
    && (p.ToolReturn? && p.id !in ids ==>
          PlainText(p.content) == ""
          || UserPrompt("[Previous " + p.tool + " result] " + cfg.clip(PlainText(p.content))) in asked)
    && (p.RetryPrompt? && p.retryId != "" && p.retryId !in ids ==>
          p.feedback == "" || UserPrompt("[Previous tool error] " + cfg.clip(p.feedback)) in asked)
    && (!Orphan(ids, p) ==> p in asked)
  }

  lemma {:induction false} FilteredReadable(cfg: AutoContext, ids: set<string>, parts: seq<RequestPart>, j: nat)
    requires j < |parts|
    ensures Readable(cfg, ids, parts[j], Filtered(cfg, ids, parts))
  {
    var n := |parts| - 1;
    if j < n {
      FilteredReadable(cfg, ids, parts[..n], j);
      assert parts[..n][j] == parts[j];
    } else {
      var left := Left(cfg, ids, parts[n]);
      assert forall p :: p in left ==> p in Filtered(cfg, ids, parts);
      assert left != [] ==> left[0] in left;
    }
  }

  /** A stripped request is never empty, and each of its parts can still be read. */
  lemma StripKeepsText(cfg: AutoContext, ids: set<string>, m: Message, j: nat)
    requires m.Request? && j < |m.asked|
    ensures var m' := StripMessage(cfg, ids, m);
      m'.Request? && m'.asked != [] && Readable(cfg, ids, m.asked[j], m'.asked)
  {
    FilteredReadable(cfg, ids, m.asked, j);
    assert m.asked[j] in m.asked;
  }

  /** Compaction loses nothing that a recent request says: each of its parts stays, or
      stays as an excerpt; and no request becomes empty. */
  lemma {:induction false} CompressKeepsText(cfg: AutoContext, h: seq<Message>, tokens: int, summary: Option<string>,
      i: nat, j: nat)
    requires cfg.keepLastN >= 1 && Compress(cfg, h, tokens, summary) != h && i < |Compress(cfg, h, tokens, summary)|
    requires summary.Some? && (i >= 2 ==> |Compress(cfg, h, tokens, summary)| - i <= |h|)
    requires var m := Source(cfg, h, summary.value, |Compress(cfg, h, tokens, summary)|, i);
      m.Request? && j < |m.asked|
    ensures var r := Compress(cfg, h, tokens, summary);
      && r[i].Request? && r[i].asked != []
      && Readable(cfg, CallIds(r), Source(cfg, h, summary.value, |r|, i).asked[j], r[i].asked)
  {
    var r := Rebuilt(cfg, h, summary.value);
    assert r[i] == Source(cfg, h, summary.value, |r|, i);
    StripKeepsCallIds(cfg, CallIds(r), r);
    StripKeepsText(cfg, CallIds(r), r[i], j);
  }
}
