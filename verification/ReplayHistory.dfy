/** Rebuilding a model history from stored items (appserver/runtime_history.go). */
module ReplayHistory {
  import opened Transcript
  import opened StableSort
  import opened StoredItems
  import opened CallNames
  import SteerReplay

  const MAX_ITEMS := 512
  const MAX_BYTES := 4 * 1024 * 1024

  /* ----- the replay window ----- */

  predicate IsCompaction(x: Option<Item>) {
    x.Some? && x.value.kind.Compacted?
  }

  function Size(x: Option<Item>): nat {
    if x.Some? then x.value.size else 0
  }

  function Bytes(xs: seq<Option<Item>>): nat {
    if xs == [] then 0 else Size(xs[0]) + Bytes(xs[1..])
  }

  predicate Fits(xs: seq<Option<Item>>) {
    |xs| <= MAX_ITEMS && Bytes(xs) <= MAX_BYTES
  }

  /** Everything from the last compaction item on, or everything. */
  ghost predicate IsCompactionWindow(items: seq<Option<Item>>, w: seq<Option<Item>>) {
    exists start :: 0 <= start <= |items| && w == items[start..] &&
      (forall i :: start < i < |items| ==> !IsCompaction(items[i])) &&
      (start == 0 || (start < |items| && IsCompaction(items[start])))
  }

  method CompactionWindow(items: seq<Option<Item>>) returns (w: seq<Option<Item>>)
    ensures IsCompactionWindow(items, w)
  {
    var start := 0;
    for i := 0 to |items|
      invariant 0 <= start <= i && (start == 0 || (start < i && IsCompaction(items[start])))
      invariant forall k :: start < k < i ==> !IsCompaction(items[k])
    {
      if IsCompaction(items[i]) {
        start := i;
      }
    }
    w := items[start..];
  }

  /** The compaction item that heads the window, unless its payload is too large. */
  function Head(w: seq<Option<Item>>): seq<Option<Item>> {
    if w != [] && IsCompaction(w[0]) && Size(w[0]) <= MAX_BYTES then [w[0]] else []
  }

  function FirstTail(w: seq<Option<Item>>): nat {
    if w != [] && IsCompaction(w[0]) then 1 else 0
  }

  /** The head plus the longest suffix of the rest that fits with it. */
  ghost predicate IsReplay(w: seq<Option<Item>>, out: seq<Option<Item>>) {
    exists s :: FirstTail(w) <= s <= |w| && out == Head(w) + w[s..] && Fits(out) &&
      forall s' :: FirstTail(w) <= s' < s ==> !Fits(Head(w) + w[s'..])
  }

  lemma {:induction false} BytesAppend(a: seq<Option<Item>>, b: seq<Option<Item>>)
    ensures Bytes(a + b) == Bytes(a) + Bytes(b)
  {
    if a == [] {
      assert a + b == b;
    } else {
      assert (a + b)[1..] == a[1..] + b;
      BytesAppend(a[1..], b);
    }
  }

  /** What does not fit does not fit with more in front. */
  lemma LongerFitsLess(head: seq<Option<Item>>, w: seq<Option<Item>>, s: nat, s': nat)
    requires s' <= s <= |w| && !Fits(head + w[s..])
    ensures !Fits(head + w[s'..])
  {
    assert w[s'..] == w[s'..s] + w[s..];
    BytesAppend(w[s'..s], w[s..]);
    BytesAppend(head, w[s'..]);
    BytesAppend(head, w[s..]);
  }

  lemma FitsBySum(head: seq<Option<Item>>, w: seq<Option<Item>>, s: nat)
    requires s <= |w|
    ensures Fits(head + w[s..]) <==> |head| + |w| - s <= MAX_ITEMS && Bytes(head) + Bytes(w[s..]) <= MAX_BYTES
  {
    BytesAppend(head, w[s..]);
  }

  lemma BytesOneMore(w: seq<Option<Item>>, start: nat)
    requires 0 < start <= |w|
    ensures Bytes(w[start - 1..]) == Size(w[start - 1]) + Bytes(w[start..])
  {
    assert w[start - 1..][1..] == w[start..];
  }

  /** The scan stopped at `start`: what is kept fits, and one more item would not. */
  lemma ReplayFound(w: seq<Option<Item>>, start: nat)
    requires FirstTail(w) <= start <= |w| && Fits(Head(w) + w[start..])
    requires start > FirstTail(w) ==> !Fits(Head(w) + w[start - 1..])
    ensures IsReplay(w, Head(w) + w[start..])
  {
    forall s | FirstTail(w) <= s < start ensures !Fits(Head(w) + w[s..]) {
      LongerFitsLess(Head(w), w, start - 1, s);
    }
  }

  method BoundedReplay(w: seq<Option<Item>>) returns (out: seq<Option<Item>>)
    ensures IsReplay(w, out)
  {
    var firstTail, usedItems, usedBytes, head := 0, 0, 0, [];
    if w != [] && IsCompaction(w[0]) {
      firstTail := 1;
      if Size(w[0]) <= MAX_BYTES {
        head, usedItems, usedBytes := [w[0]], 1, Size(w[0]);
      }
    }
    var start := |w|;
    while start > firstTail && usedItems + 1 <= MAX_ITEMS && usedBytes + Size(w[start - 1]) <= MAX_BYTES
      invariant firstTail == FirstTail(w) <= start <= |w| && head == Head(w)
      invariant usedItems == |head| + |w| - start <= MAX_ITEMS
      invariant usedBytes == Bytes(head) + Bytes(w[start..]) <= MAX_BYTES
    {
      BytesOneMore(w, start);
      usedItems, usedBytes, start := usedItems + 1, usedBytes + Size(w[start - 1]), start - 1;
    }
    FitsBySum(head, w, start);
    if start > firstTail {
      BytesOneMore(w, start);
      FitsBySum(head, w, start - 1);
    }
    ReplayFound(w, start);
    out := head + w[start..];
  }

  /* ----- rebuilding messages ----- */

  function Spoken(s: Speech): Message {
    match s
    case FromUser(text) => Request([UserPrompt(text)])
    case FromSystem(text) => Request([SystemPrompt(text)])
    case FromAssistant(text) => Response([Text(text)], Stop, Usage(0, 0, 0, 0, map[]))
  }

  /** A call and, right behind it, its one answer. */
  function ToolExchange(id: string, r: Record): seq<Message> {
    [Response([ToolCall(Call(r.tool, r.args, id))], ToolUse, Usage(0, 0, 0, 0, map[])),
     Request([if r.success then ToolReturn(r.tool, Str(r.output), id) else RetryPrompt(r.output, r.tool, id)])]
  }

  /** An empty payload decodes to nothing. */
  function RecordOf(x: Item): Option<Record> {
    if x.size > 0 then x.record else None
  }

  predicate IsParent(x: Option<Item>) {
    x.Some? && x.value.id != "" && x.value.kind.DynamicTool? && RecordOf(x.value).Some?
  }

  function Parents(items: seq<Option<Item>>): set<string> {
    if items == [] then {}
    else
      var x := items[|items| - 1];
      Parents(items[..|items| - 1]) + if IsParent(x) then {x.value.id} else {}
  }

  predicate IsChildKind(k: Kind) {
    k.Command? || k.FileChange? || k.McpTool?
  }

  /** An item is replayed as a tool exchange: a tool call always, what a tool call did
      (a command, file change or MCP call) only if that tool call is not replayed. */
  predicate ShownAsTool(parents: set<string>, x: Item) {
    RecordOf(x).Some? &&
    (x.kind.DynamicTool? || (IsChildKind(x.kind) && !(x.parent != "" && x.parent in parents)))
  }

  predicate ShownAsSpeech(x: Item) {
    x.size > 0 && x.speech.Some? && (x.kind.Injected? || x.kind.Compacted? || x.kind.Chat? || Seen(x))
  }

  function Emit(parents: set<string>, b: Builder, x: Option<Item>): (Builder, seq<Message>) {
    if x.None? then (b, [])
    else if ShownAsSpeech(x.value) then (b, [Spoken(x.value.speech.value)])
    else if ShownAsTool(parents, x.value) then
      var (b', id) := NextCallId(b, x.value);
      (b', ToolExchange(id, x.value.record.value))
    else (b, [])
  }

  function Build(parents: set<string>, b: Builder, items: seq<Option<Item>>): (Builder, seq<Message>) {
    if items == [] then (b, [])
    else
      var (b1, front) := Build(parents, b, items[..|items| - 1]);
      var (b2, last) := Emit(parents, b1, items[|items| - 1]);
      (b2, front + last)
  }

  method CollectParents(items: seq<Option<Item>>) returns (parents: set<string>)
    ensures parents == Parents(items)
  {
    parents := {};
    for i := 0 to |items|
      invariant parents == Parents(items[..i])
    {
      assert items[..i + 1][..i] == items[..i];
      if IsParent(items[i]) {
        parents := parents + {items[i].value.id};
      }
    }
    assert items[..|items|] == items;
  }

  method EmitItem(parents: set<string>, b: Builder, x: Option<Item>) returns (b': Builder, messages: seq<Message>)
    ensures (b', messages) == Emit(parents, b, x)
  {
    b', messages := b, [];
    if x.None? || x.value.size == 0 {
      return;
    }
    var kind, isTool := x.value.kind, false;
    match kind {
      case Injected | Compacted | Chat =>
        if x.value.speech.Some? {
          messages := [Spoken(x.value.speech.value)];
        }
      case Steered =>
        if Seen(x.value) && x.value.speech.Some? {
          messages := [Spoken(x.value.speech.value)];
        }
      case DynamicTool =>
        isTool := true;
      case Command | FileChange | McpTool =>
        var replayedChild := x.value.parent != "" && x.value.parent in parents;
        isTool := !replayedChild;
      case Other =>
    }
    if isTool && x.value.record.Some? {
      var (next, id) := NextCallId(b, x.value);
      b', messages := next, ToolExchange(id, x.value.record.value);
    }
  }

  /** The history of a list of stored items: put into replay order, then built. */
  function History(items: seq<Option<Item>>, b: Builder): (m: seq<Message>) {
    var ordered := ReplayOrder(items);
    Build(Parents(ordered), b, ordered).1
  }

  /** runtimeMessagesFromItems. */
  method RuntimeMessages(items: seq<Option<Item>>, b: Builder) returns (messages: seq<Message>)
    ensures messages == History(items, b) && AnsweredNext(messages)
  {
    var ordered := ReplayOrder(items);
    var parents := CollectParents(ordered);
    messages := [];
    var builder := b;
    for i := 0 to |ordered|
      invariant (builder, messages) == Build(parents, b, ordered[..i])
    {
      assert ordered[..i + 1][..i] == ordered[..i];
      var emitted;
      builder, emitted := EmitItem(parents, builder, ordered[i]);
      messages := messages + emitted;
    }
    assert ordered[..|ordered|] == ordered;
    BuildIsAnswered(parents, b, ordered);
  }

  /** What a new turn is told of the thread (appserver/server.go 1747): the window, what
      of it fits, in replay order, as messages. */
  method ReplayedHistory(items: seq<Option<Item>>, b: Builder) returns (messages: seq<Message>)
    ensures exists w, kept :: IsCompactionWindow(items, w) && IsReplay(w, kept) && messages == History(kept, b)
    ensures AnsweredNext(messages)
  {
    var w := CompactionWindow(items);
    var kept := BoundedReplay(w);
    messages := RuntimeMessages(kept, b);
  }

  lemma ConcatAnswered(a: seq<Message>, b: seq<Message>)
    requires AnsweredNext(a) && AnsweredNext(b)
    ensures AnsweredNext(a + b)
  {
    var h := a + b;
    forall i | 0 <= i < |h| && h[i].Response? && Calls(h[i].parts) != []
      ensures i + 1 < |h| && Answered(h[i].parts, h[i + 1])
    {
      if i < |a| {
        assert h[i] == a[i] && h[i + 1] == a[i + 1];
      } else {
        assert h[i] == b[i - |a|] && h[i + 1] == b[i - |a| + 1];
      }
    }
  }

  lemma OneCall(c: Call)
    ensures Calls([ToolCall(c)]) == [c]
  {
    assert [ToolCall(c)][..0] == [];
  }

  lemma OneAnswer(c: Call, p: RequestPart, k: Key)
    requires Answers(p, k) <==> KeyOf(c) == k
    ensures Given([p], k) == Asked([c], k)
  {
    assert [p][..0] == [] && [c][..0] == [];
  }

  lemma ExchangeIsAnswered(id: string, r: Record)
    ensures AnsweredNext(ToolExchange(id, r))
  {
    var h := ToolExchange(id, r);
    var c, p := Call(r.tool, r.args, id), h[1].asked[0];
    OneCall(c);
    forall k ensures Given([p], k) == Asked([c], k) {
      OneAnswer(c, p, k);
    }
    assert Answered(h[0].parts, h[1]);
  }

  lemma SpeechIsAnswered(s: Speech)
    ensures AnsweredNext([Spoken(s)])
  {
    if s.FromAssistant? {
      assert Spoken(s).parts[..0] == [];
      assert Calls(Spoken(s).parts) == [];
    }
  }

  /** Whatever is stored, each call in the rebuilt history is answered in the next message. */
  lemma {:induction false} BuildIsAnswered(parents: set<string>, b: Builder, items: seq<Option<Item>>)
    ensures AnsweredNext(Build(parents, b, items).1)
  {
    if items != [] {
      var n := |items| - 1;
      BuildIsAnswered(parents, b, items[..n]);
      var (b1, front) := Build(parents, b, items[..n]);
      var last := Emit(parents, b1, items[n]).1;
      if items[n].Some? && ShownAsSpeech(items[n].value) {
        SpeechIsAnswered(items[n].value.speech.value);
      } else if items[n].Some? && ShownAsTool(parents, items[n].value) {
        ExchangeIsAnswered(NextCallId(b1, items[n].value).1, items[n].value.record.value);
      }
      ConcatAnswered(front, last);
    }
  }

  /** Where the messages of the i-th item are in the rebuilt history. */
  lemma {:induction false} BuildSplits(parents: set<string>, b: Builder, items: seq<Option<Item>>, i: nat)
      returns (b': Builder, before: seq<Message>, behind: seq<Message>)
    requires i < |items|
    ensures Build(parents, b, items[..i]) == (b', before)
    ensures Build(parents, b, items).1 == before + Emit(parents, b', items[i]).1 + behind
  {
    var n := |items| - 1;
    if i == n {
      b', before := Build(parents, b, items[..n]).0, Build(parents, b, items[..n]).1;
      behind := [];
      assert before + Emit(parents, b', items[i]).1 + [] == before + Emit(parents, b', items[i]).1;
    } else {
      var rest;
      b', before, rest := BuildSplits(parents, b, items[..n], i);
      assert items[..n][..i] == items[..i];
      var (b1, front) := Build(parents, b, items[..n]);
      behind := rest + Emit(parents, b1, items[n]).1;
      assert before + Emit(parents, b', items[i]).1 + behind == front + Emit(parents, b1, items[n]).1;
    }
  }

  /** What item i adds to the rebuilt history, and where: a tool item one response with its
      one call and behind it one request with that call's one answer, a spoken item its
      message, anything else nothing. */
  lemma {:induction false} HistoryShowsItem(items: seq<Option<Item>>, b: Builder, i: nat) returns (at: nat, id: string)
    requires i < |items|
    ensures var m, x := Build(Parents(items), b, items).1, items[i];
      var upTo := |Build(Parents(items), b, items[..i + 1]).1|;
      && at == |Build(Parents(items), b, items[..i]).1| && at <= upTo <= |m|
      && (x.None? ==> upTo == at)
      && (x.Some? && ShownAsSpeech(x.value) ==> upTo == at + 1 && Says(m[at], x.value.speech.value))
      && (x.Some? && ShownAsTool(Parents(items), x.value) ==>
            && upTo == at + 2 && ShowsExchange(m[at], m[at + 1], id, x.value.record.value)
            && id == NextCallId(Build(Parents(items), b, items[..i]).0, x.value).1)
      && (x.Some? && !ShownAsSpeech(x.value) && !ShownAsTool(Parents(items), x.value) ==> upTo == at)
  {
    var parents := Parents(items);
    var b', before, behind := BuildSplits(parents, b, items, i);
    at := |before|;
    assert items[..i + 1][..i] == items[..i];
    id := if items[i].Some? then NextCallId(b', items[i].value).1 else "";
    if items[i].Some? && ShownAsTool(parents, items[i].value) {
      OneCall(Call(items[i].value.record.value.tool, items[i].value.record.value.args, id));
    }
    if items[i].Some? && ShownAsSpeech(items[i].value) {
      SpokenSays(items[i].value.speech.value);
    }
  }

  /** A user's or the system's words are a request with that one part, the assistant's a
      response with that text and no call. */
  predicate Says(m: Message, s: Speech) {
    match s
    case FromUser(text) => m.Request? && m.asked == [UserPrompt(text)]
    case FromSystem(text) => m.Request? && m.asked == [SystemPrompt(text)]
    case FromAssistant(text) => m.Response? && TextContent(m.parts) == text && Calls(m.parts) == []
  }

  lemma SpokenSays(s: Speech)
    ensures Says(Spoken(s), s)
  {
    if s.FromAssistant? {
      assert Spoken(s).parts[..0] == [];
    }
  }

  /** The items that are replayed as tool exchanges. */
  function ToolItems(parents: set<string>, items: seq<Option<Item>>): (r: seq<Item>) {
    if items == [] then []
    else
      var n := |items| - 1;
      ToolItems(parents, items[..n]) +
      if items[n].Some? && ShownAsTool(parents, items[n].value) then [items[n].value] else []
  }

  lemma {:induction false} BuildNames(parents: set<string>, b: Builder, items: seq<Option<Item>>)
    ensures Build(parents, b, items).0 == NameAll(b, ToolItems(parents, items)).0
  {
    if items != [] {
      var n := |items| - 1;
      BuildNames(parents, b, items[..n]);
      var front := ToolItems(parents, items[..n]);
      if items[n].Some? && ShownAsTool(parents, items[n].value) {
        assert (front + [items[n].value])[..|front|] == front;
      } else {
        assert ToolItems(parents, items) == front;
      }
    }
  }

  /** The place of item i among the tool items. */
  lemma {:induction false} ToolItemPlace(parents: set<string>, items: seq<Option<Item>>, i: nat)
    requires i < |items| && items[i].Some? && ShownAsTool(parents, items[i].value)
    ensures ToolItems(parents, items[..i]) + [items[i].value] <= ToolItems(parents, items)
  {
    var last := |items| - 1;
    if i < last {
      ToolItemPlace(parents, items[..last], i);
      assert items[..last][..i] == items[..i];
    }
  }

  /** The exchange of a tool item stands in the history under the id that CallNames gives
      it: its own, if the tool items have safe ids, each its own. */
  lemma HistoryNamesCall(items: seq<Option<Item>>, b: Builder, digest: string -> string, i: nat)
      returns (at: nat, n: nat)
    requires b.counts == map[] && Names(b, digest)
    requires i < |items| && items[i].Some? && ShownAsTool(Parents(items), items[i].value)
    ensures var xs := ToolItems(Parents(items), items);
      && n == |ToolItems(Parents(items), items[..i])| < |xs| && xs[n] == items[i].value
      && ExchangeAt(Build(Parents(items), b, items).1, at, NameAll(b, xs).1[n], items[i].value.record.value)
      && ((forall j :: 0 <= j <= n ==> SafeName(xs[j].id)) && (forall j :: 0 <= j < n ==> xs[j].id != xs[n].id) ==>
            NameAll(b, xs).1[n] == items[i].value.id)
  {
    var xs := ToolItems(Parents(items), items);
    var id;
    at, id := HistoryShowsItem(items, b, i);
    n := |ToolItems(Parents(items), items[..i])|;
    BuildNames(Parents(items), b, items[..i]);
    ToolItemPlace(Parents(items), items, i);
    NamedAt(b, xs, n);
    assert xs[..n] == ToolItems(Parents(items), items[..i]);
    if (forall j :: 0 <= j <= n ==> SafeName(xs[j].id)) && forall j :: 0 <= j < n ==> xs[j].id != xs[n].id {
      OwnIds(b, digest, xs, n);
    }
  }

  /** A response with this one call, and the request that answers it as the tool ended. */
  predicate ShowsExchange(call: Message, answer: Message, id: string, r: Record) {
    && call.Response? && Calls(call.parts) == [Call(r.tool, r.args, id)] && TextContent(call.parts) == ""
    && answer.Request? && |answer.asked| == 1 && Answers(answer.asked[0], (r.tool, id))
    && (r.success <==> answer.asked[0].ToolReturn?)
    && (if r.success then answer.asked[0].content == Str(r.output) else answer.asked[0].feedback == r.output)
  }

  lemma {:induction false} ParentsAre(items: seq<Option<Item>>, id: string)
    ensures id in Parents(items) <==> exists i :: 0 <= i < |items| && IsParent(items[i]) && items[i].value.id == id
  {
    if items != [] {
      var n := |items| - 1;
      ParentsAre(items[..n], id);
      if id in Parents(items[..n]) {
        var i :| 0 <= i < n && IsParent(items[..n][i]) && items[..n][i].value.id == id;
        assert items[i] == items[..n][i];
      }
      assert forall i :: 0 <= i < n ==> items[..n][i] == items[i];
    }
  }

  /** A command, file change or MCP item is shown exactly when no replayed tool call is its
      parent. */
  lemma ChildShownUnlessParentIs(items: seq<Option<Item>>, i: nat)
    requires i < |items| && items[i].Some? && RecordOf(items[i].value).Some? && IsChildKind(items[i].value.kind)
    ensures ShownAsTool(Parents(items), items[i].value) <==>
            !exists k :: 0 <= k < |items| && items[k].Some? && items[k].value.kind.DynamicTool? &&
                         ShownAsTool(Parents(items), items[k].value) && items[k].value.id != "" &&
                           items[k].value.id == items[i].value.parent
  {
    ParentsAre(items, items[i].value.parent);
    if k :| 0 <= k < |items| && items[k].Some? && items[k].value.kind.DynamicTool? &&
            ShownAsTool(Parents(items), items[k].value) && items[k].value.id != "" &&
              items[k].value.id == items[i].value.parent {
      assert IsParent(items[k]);
    }
  }

  /* ----- the whole of it ----- */

  /** Where the messages of the first n items end. */
  function EndOf(items: seq<Option<Item>>, b: Builder, n: nat): nat
    requires n <= |items|
  {
    |Build(Parents(items), b, items[..n]).1|
  }

  lemma {:induction false} EndsGrow(items: seq<Option<Item>>, b: Builder, n: nat, k: nat)
    requires n <= k <= |items|
    ensures EndOf(items, b, n) <= EndOf(items, b, k)
    decreases k
  {
    if n < k {
      EndsGrow(items, b, n, k - 1);
      assert items[..k][..k - 1] == items[..k - 1];
    }
  }

  predicate ExchangeAt(m: seq<Message>, at: nat, id: string, r: Record) {
    at + 1 < |m| && ShowsExchange(m[at], m[at + 1], id, r)
  }

  /** The item's messages stand in m from `at` up to `end`. */
  ghost predicate Shown(m: seq<Message>, parents: set<string>, x: Item, at: nat, end: nat) {
    && at <= end <= |m|
    && (ShownAsSpeech(x) ==> end == at + 1 && Says(m[at], x.speech.value))
    && (ShownAsTool(parents, x) ==> end == at + 2 && exists id :: ExchangeAt(m, at, id, x.record.value))
    && (!ShownAsSpeech(x) && !ShownAsTool(parents, x) ==> end == at)
  }

  lemma {:induction false} ItemIsShown(items: seq<Option<Item>>, b: Builder, i: nat)
    requires i < |items| && items[i].Some?
    ensures Shown(Build(Parents(items), b, items).1, Parents(items), items[i].value, EndOf(items, b, i),
      EndOf(items, b, i + 1))
  {
    var at, id := HistoryShowsItem(items, b, i);
    if ShownAsTool(Parents(items), items[i].value) {
      assert ExchangeAt(Build(Parents(items), b, items).1, at, id, items[i].value.record.value);
    }
  }

  /** Of two items, the one that replay puts first has its messages first. */
  lemma {:induction false} HistoryKeepsOrder(w: seq<Option<Item>>, b: Builder, x: Option<Item>, y: Option<Item>)
      returns (at: nat, end: nat, at': nat, end': nat)
    requires Before(ReplayOrder(w), x, y) && x.Some? && y.Some?
    ensures Shown(History(w, b), Parents(ReplayOrder(w)), x.value, at, end)
    ensures Shown(History(w, b), Parents(ReplayOrder(w)), y.value, at', end')
    ensures end <= at'
  {
    var r := ReplayOrder(w);
    var p, q :| 0 <= p < q < |r| && r[p] == x && r[q] == y;
    ItemIsShown(r, b, p);
    ItemIsShown(r, b, q);
    at, end, at', end' := EndOf(r, b, p), EndOf(r, b, p + 1), EndOf(r, b, q), EndOf(r, b, q + 1);
    EndsGrow(r, b, p + 1, q);
  }

  /** The rebuilt history tells a turn as the model saw it: in whatever window of a turn's
      items is replayed, a consumed steer's message stands behind those of every other
      item up to its boundary and before those of every item beyond it. */
  lemma HistoryFollowsConsumption(run: seq<SteerReplay.Turn>, steps: seq<SteerReplay.Step>, k: nat,
      w: seq<Option<Item>>, b: Builder, i: nat, j: nat)
    returns (at: nat, end: nat, at': nat, end': nat)
    requires SteerReplay.IsRun(run, steps) && k < |run| && SteerReplay.Window(run[k].items, w)
    requires i < |w| && j < |w| && i != j && SteerReplay.Consumed(w[i].value)
    requires w[j].value.seqno <= w[i].value.boundary ==> !w[j].value.kind.Steered?
    ensures var x, y, parents := w[i].value, w[j].value, Parents(ReplayOrder(w));
      && Shown(History(w, b), parents, x, at, end) && Shown(History(w, b), parents, y, at', end')
      && (x.size > 0 && x.speech.Some? ==> end == at + 1 && Says(History(w, b)[at], x.speech.value))
      && (if y.seqno <= x.boundary then end' <= at else end <= at')
  {
    SteerReplay.ReplayFollowsConsumption(run, steps, k, w, i, j);
    if w[j].value.seqno <= w[i].value.boundary {
      at', end', at, end := HistoryKeepsOrder(w, b, w[j], w[i]);
    } else {
      at, end, at', end' := HistoryKeepsOrder(w, b, w[i], w[j]);
    }
  }

  /** Consumed steers speak in the order they were accepted. */
  lemma SteersSpeakInOrder(run: seq<SteerReplay.Turn>, steps: seq<SteerReplay.Step>, k: nat, w: seq<Option<Item>>,
      b: Builder, i: nat, j: nat)
    returns (at: nat, end: nat, at': nat, end': nat)
    requires SteerReplay.IsRun(run, steps) && k < |run| && SteerReplay.Window(run[k].items, w)
    requires i < j < |w| && SteerReplay.Consumed(w[i].value) && SteerReplay.Consumed(w[j].value)
    ensures Shown(History(w, b), Parents(ReplayOrder(w)), w[i].value, at, end) &&
      Shown(History(w, b), Parents(ReplayOrder(w)), w[j].value, at', end')
    ensures end <= at'
  {
    SteerReplay.ReplayFollowsConsumption(run, steps, k, w, i, j);
    at, end, at', end' := HistoryKeepsOrder(w, b, w[i], w[j]);
  }
}
