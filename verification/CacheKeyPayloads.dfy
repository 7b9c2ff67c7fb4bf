/** What the normal form keeps of a request as the program writes it
    (modelutil/cache_key.go 60-83, core/serialize.go): the way to a message part, the
    settings, and the order of arrays that are no sets. */
module CacheKeyPayloads {
  import opened Transcript
  import opened CacheKey
  import opened CacheKeyLaws
  import opened CacheKeyStandard

  /* ----- keys that stay ----- */

  /** The word's length and first letter tell it from every word the rules know: "request",
      "messages", "data", "parts", "model" and "temperature" are such. */
  predicate Telling(k: string) {
    && (forall i :: 0 <= i < |k| ==> 'a' <= k[i] <= 'z')
    && ((|k| == 7 && k[0] == 'r') || (|k| == 8 && k[0] == 'm') || (|k| == 4 && k[0] == 'd')
        || (|k| == 5 && (k[0] == 'p' || k[0] == 'm')) || (|k| == 11 && k[0] == 't'))
  }

  /** The field stays where it is, and an array in it keeps its order. */
  ghost predicate KeyStays(e: Env, k: string) {
    e.fold(k) !in e.dropped && e.fold(k) != "id" && e.fold(k) != "content" && e.fold(k) !in e.jsonText && Unsorted(e, k)
  }

  lemma NotDropped(k: string)
    requires Telling(k)
    ensures k !in StandardDropped()
  {
  }

  lemma NotListed(e: Env, k: string)
    requires e == StandardEnv(e.encode, e.decode) && Telling(k)
    ensures k !in e.jsonText && k !in e.scalarSets && k !in e.toolSets && k != "id" && k != "content"
  {
  }

  lemma TellingStays(e: Env, k: string)
    requires e == StandardEnv(e.encode, e.decode) && Telling(k)
    ensures KeyStays(e, k)
  {
    LowerWord(e, k);
    NotDropped(k);
    NotListed(e, k);
  }

  lemma FieldKept(e: Env, m: map<string, Json>, k: string, last: string)
    requires LawfulCodec(e) && KeyStays(e, k) && k in m
    ensures var r := Normal(e, Obj(m), last);
      k in r.fields && r.fields[k] == if m[k].String? then m[k] else Normal(e, m[k], ChildKey(e, m, k))
  {
    NormalAt(e, Obj(m), last, k);
  }

  /** Such a field of any object stays; a string in it as it is, anything else normal. */
  lemma StandardFieldKept(e: Env, m: map<string, Json>, k: string, last: string)
    requires e == StandardEnv(e.encode, e.decode) && LawfulCodec(e) && Telling(k) && k in m
    ensures var r := Normal(e, Obj(m), last);
      k in r.fields && r.fields[k] == if m[k].String? then m[k] else Normal(e, m[k], ChildKey(e, m, k))
  {
    TellingStays(e, k);
    FieldKept(e, m, k, last);
  }

  /** Requests that differ in such a setting have different normal forms. */
  lemma StandardSettingTellsApart(e: Env, m: map<string, Json>, k: string, x: Json, y: Json, last: string)
    requires e == StandardEnv(e.encode, e.decode) && LawfulCodec(e) && Telling(k) && Scalar(x) && Scalar(y) && x != y
    ensures Normal(e, Obj(m[k := x]), last) != Normal(e, Obj(m[k := y]), last)
  {
    StandardFieldKept(e, m[k := x], k, last);
    StandardFieldKept(e, m[k := y], k, last);
  }

  /* ----- what every message carries ----- */

  lemma FoldModelName()
    ensures Fold("model_name") == "modelname"
  {
    FoldWords("model", '_', "name");
    assert "model" + ['_'] + "name" == "model_name" && "model" + "" + "name" == "modelname";
  }

  lemma FoldFinishReason()
    ensures Fold("finish_reason") == "finishreason"
  {
    FoldWords("finish", '_', "reason");
    assert "finish" + ['_'] + "reason" == "finish_reason" && "finish" + "" + "reason" == "finishreason";
  }

  lemma FoldTimestamp()
    ensures Fold("timestamp") == "timestamp"
  {
    LowerCaseFolds("timestamp");
  }

  lemma FoldUsage()
    ensures Fold("usage") == "usage"
  {
    LowerCaseFolds("usage");
  }

  lemma MessageWordsDropped()
    ensures "modelname" in StandardDropped() && "finishreason" in StandardDropped()
    ensures "timestamp" in StandardDropped() && "usage" in StandardDropped()
  {
  }

  lemma MessageKeyDropped(e: Env, k: string)
    requires e == StandardEnv(e.encode, e.decode) && k in ["timestamp", "usage", "model_name", "finish_reason"]
    ensures e.fold(k) in e.dropped
  {
    FoldModelName();
    FoldFinishReason();
    FoldTimestamp();
    FoldUsage();
    MessageWordsDropped();
    assert e.fold(k) == Fold(k);
  }

  /** When a message was written, what it cost, and which model wrote it and why it stopped
      leave no trace. */
  lemma StandardMessageMetadataForgotten(e: Env, m: map<string, Json>, k: string, x: Json)
    requires e == StandardEnv(e.encode, e.decode) && LawfulCodec(e)
    requires k in ["timestamp", "usage", "model_name", "finish_reason"]
    ensures Normal(e, Obj(m[k := x]), "") == Normal(e, Obj(m - {k}), "")
  {
    StandardRulesLawful(e);
    MessageKeyDropped(e, k);
    TopIsNoSchema(e);
    MetadataForgotten(e, m, k, x, "");
  }

  /* ----- tool results in a request ----- */

  lemma KeptInto(e: Env, v: Json, k: string, path: seq<Hop>, last: string)
    requires KeyStays(e, k) && v.Obj? && k in v.fields && !v.fields[k].String?
    requires Kept(e, v.fields[k], path, ChildKey(e, v.fields, k))
    ensures Kept(e, v, [Into(k)] + path, last)
  {
    assert ([Into(k)] + path)[1..] == path;
  }

  lemma KeptNth(e: Env, v: Json, i: nat, path: seq<Hop>, last: string)
    requires v.Arr? && i < |v.items| && Unsorted(e, last) && Kept(e, v.items[i], path, last)
    ensures Kept(e, v, [Nth(i)] + path, last)
  {
    assert ([Nth(i)] + path)[1..] == path;
  }

  lemma FollowInto(v: Json, k: string, path: seq<Hop>)
    requires v.Obj? && k in v.fields
    ensures Follow(v, [Into(k)] + path) == Follow(v.fields[k], path)
  {
    assert ([Into(k)] + path)[1..] == path;
  }

  lemma FollowNth(v: Json, i: nat, path: seq<Hop>)
    requires v.Arr? && i < |v.items|
    ensures Follow(v, [Nth(i)] + path) == Follow(v.items[i], path)
  {
    assert ([Nth(i)] + path)[1..] == path;
  }

  /** Part j of a serialized message is p: {"kind": ..., "data": {"parts": [..., p, ...]}}. */
  predicate HasPart(v: Json, j: nat, p: Json) {
    && v.Obj? && "data" in v.fields && v.fields["data"].Obj?
    && "parts" in v.fields["data"].fields && v.fields["data"].fields["parts"].Arr?
    && j < |v.fields["data"].fields["parts"].items| && v.fields["data"].fields["parts"].items[j] == p
  }

  /** Message i of what is hashed is msg: {"request": {"messages": [..., msg, ...]}, ...}. */
  predicate HasMessage(v: Json, i: nat, msg: Json) {
    && v.Obj? && "request" in v.fields && v.fields["request"].Obj?
    && "messages" in v.fields["request"].fields && v.fields["request"].fields["messages"].Arr?
    && i < |v.fields["request"].fields["messages"].items|
    && v.fields["request"].fields["messages"].items[i] == msg
  }

  function PartPath(j: nat): seq<Hop> {
    [Into("data")] + ([Into("parts")] + ([Nth(j)] + []))
  }

  function MessagePath(i: nat, path: seq<Hop>): seq<Hop> {
    [Into("request")] + ([Into("messages")] + ([Nth(i)] + path))
  }

  lemma PartKept(e: Env, v: Json, j: nat, p: Json, last: string)
    requires KeyStays(e, "data") && KeyStays(e, "parts") && HasPart(v, j, p)
    ensures Kept(e, v, PartPath(j), last) && Follow(v, PartPath(j)) == Some(p)
  {
    var data := v.fields["data"];
    var parts := data.fields["parts"];
    KeptNth(e, parts, j, [], "parts");
    KeptInto(e, data, "parts", [Nth(j)] + [], ChildKey(e, v.fields, "data"));
    KeptInto(e, v, "data", [Into("parts")] + ([Nth(j)] + []), last);
    FollowNth(parts, j, []);
    FollowInto(data, "parts", [Nth(j)] + []);
    FollowInto(v, "data", [Into("parts")] + ([Nth(j)] + []));
  }

  lemma MessageKept(e: Env, v: Json, i: nat, msg: Json, path: seq<Hop>, last: string)
    requires KeyStays(e, "request") && KeyStays(e, "messages") && HasMessage(v, i, msg)
    requires Kept(e, msg, path, "messages")
    ensures Kept(e, v, MessagePath(i, path), last) && Follow(v, MessagePath(i, path)) == Follow(msg, path)
  {
    var request := v.fields["request"];
    var messages := request.fields["messages"];
    KeptNth(e, messages, i, path, "messages");
    KeptInto(e, request, "messages", [Nth(i)] + path, "request");
    KeptInto(e, v, "request", [Into("messages")] + ([Nth(i)] + path), last);
    FollowNth(messages, i, path);
    FollowInto(request, "messages", [Nth(i)] + path);
    FollowInto(v, "request", [Into("messages")] + ([Nth(i)] + path));
  }

  lemma RequestTells()
    ensures Telling("request")
  {
  }

  lemma MessagesTells()
    ensures Telling("messages")
  {
  }

  lemma DataTells()
    ensures Telling("data")
  {
  }

  lemma PartsTells()
    ensures Telling("parts")
  {
  }

  lemma StandardStays(e: Env, request: string, messages: string, data: string, parts: string)
    requires e == StandardEnv(e.encode, e.decode)
    requires Telling(request) && Telling(messages) && Telling(data) && Telling(parts)
    ensures KeyStays(e, request) && KeyStays(e, messages) && KeyStays(e, data) && KeyStays(e, parts)
  {
    TellingStays(e, request);
    TellingStays(e, messages);
    TellingStays(e, data);
    TellingStays(e, parts);
  }

  /** What is hashed for two requests that differ in the content of some tool result, part j
      of message i, has different normal forms, whatever else differs. */
  lemma PayloadsToldApart(e: Env, v: Json, w: Json, i: nat, j: nat, msg: Json, msg': Json, p: Json, p': Json,
      x: Json, y: Json)
    requires e == StandardEnv(e.encode, e.decode) && LawfulCodec(e) && x != y
    requires HasMessage(v, i, msg) && HasPart(msg, j, p) && RealReturn(p, x)
    requires HasMessage(w, i, msg') && HasPart(msg', j, p') && RealReturn(p', y)
    ensures Normal(e, v, "") != Normal(e, w, "")
  {
    RequestTells();
    MessagesTells();
    DataTells();
    PartsTells();
    StandardStays(e, "request", "messages", "data", "parts");
    PartKept(e, msg, j, p, "messages");
    PartKept(e, msg', j, p', "messages");
    MessageKept(e, v, i, msg, PartPath(j), "");
    MessageKept(e, w, i, msg', PartPath(j), "");
    StandardToolOutputTellsApart(e, v, w, MessagePath(i, PartPath(j)), x, y);
  }

  /** Content is verbatim in tool results only: anywhere else metadata in it leaves no
      trace. */
  lemma OtherContentLosesMetadata(e: Env, m: map<string, Json>, c: map<string, Json>, k: string, x: Json, last: string)
    requires Lawful(e) && ReturnRules(e) && e.fold(k) in e.dropped && last != MARKER && "content" !in e.schema
    requires e.fold("content") !in e.jsonText
    ensures Normal(e, Obj(m["content" := Obj(c[k := x])]), last) == Normal(e, Obj(m["content" := Obj(c - {k})]), last)
  {
    MetadataForgotten(e, c, k, x, "content");
    var a, b := Obj(c[k := x]), Obj(c - {k});
    FieldFilled(e, m, "content", a, b, last);
  }

  lemma ContentIsPlain(e: Env)
    requires e == StandardEnv(e.encode, e.decode)
    ensures "content" !in e.schema && "content" !in e.jsonText
  {
    assert |"content"| == 7;
  }

  /** So it is under the repository's rules: a user's or the system's content, say. */
  lemma StandardContentLosesMetadata(e: Env, m: map<string, Json>, c: map<string, Json>, k: string, x: Json)
    requires e == StandardEnv(e.encode, e.decode) && LawfulCodec(e)
    requires k in ["timestamp", "usage", "model_name", "finish_reason"]
    ensures Normal(e, Obj(m["content" := Obj(c[k := x])]), "") == Normal(e, Obj(m["content" := Obj(c - {k})]), "")
  {
    StandardRulesLawful(e);
    StandardReturnRules(e);
    MessageKeyDropped(e, k);
    ContentIsPlain(e);
    OtherContentLosesMetadata(e, m, c, k, x, "");
  }

  /* ----- arrays that are no sets ----- */

  /** An array with a member that is no scalar, or no object, is no set of scalars or tools,
      whatever its key: it keeps its order. */
  lemma MixedArrayKeepsOrder(e: Env, a: seq<Json>, last: string, i: nat, j: nat)
    requires LawfulCodec(e) && i < |a| && j < |a|
    requires if e.fold(last) in e.scalarSets then a[j].Arr? || a[j].Obj? else !a[j].Obj?
    ensures var r := Normal(e, Arr(a), last); r.Arr? && |r.items| == |a| && r.items[i] == Normal(e, a[i], last)
  {
    NormalArray(e, a, last);
    MappedAt(e, a, last, i);
    MappedAt(e, a, last, j);
    assert Mapped(e, a, last)[j] in Mapped(e, a, last);
  }
}
