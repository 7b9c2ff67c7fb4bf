/** Conversation messages, and the shape every provider demands of a history:
    it opens with a request, no two responses are adjacent, and each tool call
    is answered in the very next message. */
module Transcript {
  datatype Option<+T> = None | Some(value: T)

  datatype Call = Call(tool: string, args: string, id: string)

  datatype Content = Str(text: string) | Nothing | Structured(json: string)

  datatype RequestPart =
    | SystemPrompt(system: string)
    | UserPrompt(user: string)
    | ToolReturn(tool: string, content: Content, id: string)
    | RetryPrompt(feedback: string, retryTool: string, retryId: string)
    | Media(url: string)

  datatype ResponsePart =
    | Text(text: string)
    | ToolCall(call: Call)
    | Thinking(thought: string)
    | ProviderMetadata(payload: string)

  datatype FinishReason = Stop | Length | ContentFilter | ToolUse | Error

  datatype Usage = Usage(input: int, output: int, cacheWrite: int, cacheRead: int, details: map<string, int>)

  datatype Message =
    | Request(asked: seq<RequestPart>)
    | Response(parts: seq<ResponsePart>, finish: FinishReason, usage: Usage)

  /** A call, and the part that answers it, are matched by tool name and call id. */
  type Key = (string, string)

  function KeyOf(c: Call): Key {
    (c.tool, c.id)
  }

  /** The tool calls of a response, in order (core/message.go ToolCalls). */
  function Calls(parts: seq<ResponsePart>): seq<Call> {
    if parts == [] then []
    else
      var n := |parts| - 1;
      if parts[n].ToolCall? then Calls(parts[..n]) + [parts[n].call] else Calls(parts[..n])
  }

  function TextContent(parts: seq<ResponsePart>): string {
    if parts == [] then ""
    else
      var n := |parts| - 1;
      TextContent(parts[..n]) + if parts[n].Text? then parts[n].text else ""
  }

  /** What a response says and calls is what its parts say and call, in order ... */
  lemma {:induction false} ReadsAppend(a: seq<ResponsePart>, b: seq<ResponsePart>)
    ensures Calls(a + b) == Calls(a) + Calls(b) && TextContent(a + b) == TextContent(a) + TextContent(b)
  {
    if b == [] {
      assert a + b == a;
    } else {
      assert (a + b)[..|a + b| - 1] == a + b[..|b| - 1];
      ReadsAppend(a, b[..|b| - 1]);
    }
  }

  /** ... of which only a text says, and only a tool call calls something. */
  lemma ReadsOne(p: ResponsePart)
    ensures Calls([p]) == (if p.ToolCall? then [p.call] else []) && TextContent([p]) == if p.Text? then p.text else ""
  {
    assert [p][..0] == [];
  }

  /** How many of the calls have key `k`. */
  function Asked(calls: seq<Call>, k: Key): nat {
    if calls == [] then 0
    else Asked(calls[..|calls| - 1], k) + if KeyOf(calls[|calls| - 1]) == k then 1 else 0
  }

  /** Does this part answer a call with key `k`? */
  predicate Answers(p: RequestPart, k: Key) {
    match p
    case ToolReturn(tool, _, id) => k == (tool, id)
    case RetryPrompt(_, tool, id) => k == (tool, id)
    case _ => false
  }

  /** How many answers to calls with key `k` the request carries. */
  function Given(parts: seq<RequestPart>, k: Key): nat {
    if parts == [] then 0
    else Given(parts[..|parts| - 1], k) + if Answers(parts[|parts| - 1], k) then 1 else 0
  }

  /** Every call of the response is answered by the message, exactly once. */
  ghost predicate Answered(parts: seq<ResponsePart>, next: Message) {
    next.Request? &&
    forall k :: Asked(Calls(parts), k) > 0 ==> Given(next.asked, k) == Asked(Calls(parts), k)
  }

  ghost predicate AnsweredNext(h: seq<Message>) {
    forall i :: 0 <= i < |h| && h[i].Response? && Calls(h[i].parts) != [] ==>
      i + 1 < |h| && Answered(h[i].parts, h[i + 1])
  }

  ghost predicate NoAdjacentResponses(h: seq<Message>) {
    forall i :: 0 <= i < |h| - 1 && h[i].Response? ==> h[i + 1].Request?
  }

  ghost predicate WellFormed(h: seq<Message>) {
    |h| > 0 && h[0].Request? && NoAdjacentResponses(h) && AnsweredNext(h)
  }

  /** A history that may be sent: well formed, and it is the model's turn. */
  ghost predicate Sendable(h: seq<Message>) {
    WellFormed(h) && h[|h| - 1].Request?
  }

  /** A finished conversation that a new run may continue. */
  ghost predicate Settled(h: seq<Message>) {
    h == [] || WellFormed(h)
  }

  lemma GivenSnoc(a: seq<RequestPart>, p: RequestPart, k: Key)
    ensures Given(a + [p], k) == Given(a, k) + if Answers(p, k) then 1 else 0
  {
    assert (a + [p])[..|a|] == a;
  }

  lemma AskedSnoc(a: seq<Call>, c: Call, k: Key)
    ensures Asked(a + [c], k) == Asked(a, k) + if KeyOf(c) == k then 1 else 0
  {
    assert (a + [c])[..|a|] == a;
  }

  lemma {:induction false} GivenAppend(a: seq<RequestPart>, b: seq<RequestPart>, k: Key)
    ensures Given(a + b, k) == Given(a, k) + Given(b, k)
  {
    if b == [] {
      assert a + b == a;
    } else {
      var n := |b| - 1;
      assert (a + b)[..|a + b| - 1] == a + b[..n];
      GivenAppend(a, b[..n], k);
    }
  }

  lemma {:induction false} AskedAppend(a: seq<Call>, b: seq<Call>, k: Key)
    ensures Asked(a + b, k) == Asked(a, k) + Asked(b, k)
  {
    if b == [] {
      assert a + b == a;
    } else {
      var n := |b| - 1;
      assert (a + b)[..|a + b| - 1] == a + b[..n];
      AskedAppend(a, b[..n], k);
    }
  }

  /** A new prompt turns any finished conversation into one that may be sent. */
  lemma PromptIsSendable(h: seq<Message>, prompt: seq<RequestPart>)
    requires Settled(h)
    ensures Sendable(h + [Request(prompt)])
  {
    var h' := h + [Request(prompt)];
    forall i | 0 <= i < |h'| && h'[i].Response? && Calls(h'[i].parts) != []
      ensures i + 1 < |h'| && Answered(h'[i].parts, h'[i + 1])
    {
      assert h'[i] == h[i] && h'[i + 1] == h[i + 1];
    }
  }

  /** A response followed by a request that answers its calls may be sent again. */
  lemma ExchangeIsSendable(h: seq<Message>, resp: Message, answers: seq<RequestPart>)
    requires Sendable(h) && resp.Response?
    requires Answered(resp.parts, Request(answers))
    ensures Sendable(h + [resp, Request(answers)])
  {
    var h' := h + [resp, Request(answers)];
    forall i | 0 <= i < |h'| && h'[i].Response? && Calls(h'[i].parts) != []
      ensures i + 1 < |h'| && Answered(h'[i].parts, h'[i + 1])
    {
      if i < |h| {
        assert i < |h| - 1 && h'[i] == h[i] && h'[i + 1] == h[i + 1];
      }
    }
  }
}
