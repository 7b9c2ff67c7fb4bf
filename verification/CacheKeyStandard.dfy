/** The laws of CacheKeyLaws at work under the repository's own rules: which keys, as real
    requests spell them, the normal form forgets, sorts, opens and keeps
    (modelutil/cache_key.go 161-178, 213-270, 309-376). */
module CacheKeyStandard {
  import opened Transcript
  import opened CacheKey
  import opened CacheKeyLaws

  /* ----- what the rules say about keys as real requests spell them ----- */

  ghost predicate DropRules(e: Env) {
    e.fold("tool_call_id") in e.dropped && e.fold("requestID") in e.dropped && e.fold("created_at") in e.dropped
  }

  ghost predicate IdRules(e: Env) {
    e.fold("id") == "id" && "id" !in e.dropped
  }

  ghost predicate NameRules(e: Env) {
    e.fold("name") !in e.dropped && e.fold("name") != "id" && e.fold("Name") == e.fold("name")
  }

  ghost predicate SortRules(e: Env) {
    && e.fold("required") in e.scalarSets && e.fold("enum") in e.scalarSets
    && e.fold("functionTools") in e.toolSets && e.fold("functionTools") !in e.scalarSets
  }

  ghost predicate TextRules(e: Env) {
    e.fold("args_json") in e.jsonText && e.fold("arguments") in e.jsonText
  }

  ghost predicate SchemaRules(e: Env) {
    e.fold("properties") in e.schema && e.fold("$defs") in e.schema
  }

  ghost predicate ReturnRules(e: Env) {
    e.fold("tool-return") == "toolreturn" && e.fold("content") == "content"
  }

  /* ----- folding ----- */

  predicate Separator(c: char) {
    c in ['_', '-', '.']
  }

  lemma {:induction false} FoldAppend(a: string, b: string)
    ensures Fold(a + b) == Fold(a) + Fold(b)
  {
    if a == "" {
      assert a + b == b;
    } else {
      assert (a + b)[1..] == a[1..] + b;
      FoldAppend(a[1..], b);
    }
  }

  /** A folded key has no separator and no upper-case letter. */
  lemma {:induction false} FoldIsPlain(k: string, i: nat)
    requires i < |Fold(k)|
    ensures !Separator(Fold(k)[i]) && !('A' <= Fold(k)[i] <= 'Z')
  {
    if Separator(k[0]) {
      FoldIsPlain(k[1..], i);
    } else if i > 0 {
      FoldIsPlain(k[1..], i - 1);
    }
  }

  /** Nothing but separators and the case of letters is lost. */
  lemma {:induction false} FoldKeepsRest(k: string)
    requires forall i :: 0 <= i < |k| ==> !Separator(k[i]) && !('A' <= k[i] <= 'Z')
    ensures Fold(k) == k
  {
    if k != "" {
      FoldKeepsRest(k[1..]);
      assert k == [k[0]] + k[1..];
    }
  }

  /** A word in capitals, as in "ID". */
  lemma {:induction false} FoldOne(c: char)
    ensures Fold([c]) == if Separator(c) then "" else [Lower(c)]
  {
    assert [c][1..] == "";
  }

  /** Two lower-case words and what stands between them. */
  lemma FoldWords(a: string, c: char, b: string)
    requires forall i :: 0 <= i < |a| ==> 'a' <= a[i] <= 'z'
    requires forall i :: 0 <= i < |b| ==> 'a' <= b[i] <= 'z'
    ensures Fold(a + [c] + b) == a + (if Separator(c) then "" else [Lower(c)]) + b
  {
    FoldAppend(a + [c], b);
    FoldAppend(a, [c]);
    FoldOne(c);
    LowerCaseFolds(a);
    LowerCaseFolds(b);
  }

  lemma FoldToolReturn()
    ensures Fold("tool-return") == "toolreturn"
  {
    FoldWords("tool", '-', "return");
    assert "tool" + ['-'] + "return" == "tool-return" && "tool" + "" + "return" == "toolreturn";
  }

  lemma FoldToolCallId()
    ensures Fold("tool_call_id") == "toolcallid"
  {
    FoldToolCall();
    FoldTailId();
    FoldAppend("tool_call", "_id");
    assert "tool_call" + "_id" == "tool_call_id" && "toolcall" + "id" == "toolcallid";
  }

  lemma FoldToolCall()
    ensures Fold("tool_call") == "toolcall"
  {
    FoldWords("tool", '_', "call");
    assert "tool" + ['_'] + "call" == "tool_call" && "tool" + "" + "call" == "toolcall";
  }

  lemma FoldTailId()
    ensures Fold("_id") == "id"
  {
    FoldWords("", '_', "id");
    assert "" + ['_'] + "id" == "_id" && "" + "" + "id" == "id";
  }

  lemma FoldRequestId()
    ensures Fold("requestID") == "requestid"
  {
    FoldWords("request", 'I', "");
    FoldOne('D');
    FoldAppend("requestI", "D");
    assert "request" + ['I'] + "" == "requestI" && "requestI" + "D" == "requestID";
    assert "request" + ['i'] + "" == "requesti" && "requesti" + "d" == "requestid";
  }

  lemma FoldCreatedAt()
    ensures Fold("created_at") == "createdat"
  {
    FoldWords("created", '_', "at");
    assert "created" + ['_'] + "at" == "created_at" && "created" + "" + "at" == "createdat";
  }

  lemma FoldFunctionTools()
    ensures Fold("functionTools") == "functiontools"
  {
    FoldWords("function", 'T', "ools");
    assert "function" + ['T'] + "ools" == "functionTools" && "function" + ['t'] + "ools" == "functiontools";
  }

  lemma FoldName()
    ensures Fold("Name") == "name"
  {
    FoldWords("", 'N', "ame");
    assert "" + ['N'] + "ame" == "Name" && "" + ['n'] + "ame" == "name";
  }

  lemma FoldArgsJson()
    ensures Fold("args_json") == "argsjson"
  {
    FoldWords("args", '_', "json");
    assert "args" + ['_'] + "json" == "args_json" && "args" + "" + "json" == "argsjson";
  }

  /* ----- the repository's rules ----- */

  lemma DroppedWords()
    ensures "toolcallid" in StandardDropped() && "requestid" in StandardDropped() && "createdat" in StandardDropped()
  {
  }

  lemma LowerWord(e: Env, k: string)
    requires e == StandardEnv(e.encode, e.decode) && forall i :: 0 <= i < |k| ==> 'a' <= k[i] <= 'z'
    ensures e.fold(k) == k
  {
    LowerCaseFolds(k);
  }

  lemma StandardDropRules(e: Env)
    requires e == StandardEnv(e.encode, e.decode)
    ensures DropRules(e)
  {
    FoldToolCallId();
    FoldRequestId();
    FoldCreatedAt();
    DroppedWords();
  }

  lemma NotShort(k: string)
    requires |k| == 2
    ensures k !in StandardDropped()
  {
  }

  lemma StandardIdRules(e: Env)
    requires e == StandardEnv(e.encode, e.decode)
    ensures IdRules(e)
  {
    LowerWord(e, "id");
    NotShort("id");
  }

  lemma StandardNameRules(e: Env)
    requires e == StandardEnv(e.encode, e.decode)
    ensures NameRules(e)
  {
    LowerWord(e, "name");
    NotMetadata("name");
    FoldName();
    assert e.fold("Name") == Fold("Name");
  }

  /** A word of one of the rules' sets, and a key that folds to it. */
  lemma SetWords(e: Env, k: string, w: string)
    requires e == StandardEnv(e.encode, e.decode) && Fold(k) == w
    ensures w in ["required", "enum"] ==> e.fold(k) in e.scalarSets
    ensures w == "functiontools" ==> e.fold(k) in e.toolSets && e.fold(k) !in e.scalarSets
    ensures w in ["argsjson", "arguments"] ==> e.fold(k) in e.jsonText
    ensures w in ["properties", "$defs"] ==> e.fold(k) in e.schema
  {
    assert |"required"| == 8 && |"enum"| == 4 && |"functiontools"| == 13;
  }

  lemma StandardRequired(e: Env)
    requires e == StandardEnv(e.encode, e.decode)
    ensures e.fold("required") in e.scalarSets
  {
    LowerCaseFolds("required");
    SetWords(e, "required", "required");
  }

  lemma StandardEnum(e: Env)
    requires e == StandardEnv(e.encode, e.decode)
    ensures e.fold("enum") in e.scalarSets
  {
    LowerCaseFolds("enum");
    SetWords(e, "enum", "enum");
  }

  lemma StandardTools(e: Env)
    requires e == StandardEnv(e.encode, e.decode)
    ensures e.fold("functionTools") in e.toolSets && e.fold("functionTools") !in e.scalarSets
  {
    FoldFunctionTools();
    SetWords(e, "functionTools", "functiontools");
  }

  lemma StandardSortRules(e: Env)
    requires e == StandardEnv(e.encode, e.decode)
    ensures SortRules(e)
  {
    StandardRequired(e);
    StandardEnum(e);
    StandardTools(e);
  }

  lemma StandardArguments(e: Env)
    requires e == StandardEnv(e.encode, e.decode)
    ensures e.fold("arguments") in e.jsonText
  {
    LowerCaseFolds("arguments");
    SetWords(e, "arguments", "arguments");
  }

  lemma StandardTextRules(e: Env)
    requires e == StandardEnv(e.encode, e.decode)
    ensures TextRules(e)
  {
    StandardArguments(e);
    FoldArgsJson();
    SetWords(e, "args_json", "argsjson");
  }

  lemma StandardProperties(e: Env)
    requires e == StandardEnv(e.encode, e.decode)
    ensures e.fold("properties") in e.schema
  {
    LowerCaseFolds("properties");
    SetWords(e, "properties", "properties");
  }

  lemma StandardSchemaRules(e: Env)
    requires e == StandardEnv(e.encode, e.decode)
    ensures SchemaRules(e)
  {
    StandardProperties(e);
    StandardDefs(e);
  }

  lemma StandardDefs(e: Env)
    requires e == StandardEnv(e.encode, e.decode)
    ensures e.fold("$defs") in e.schema
  {
    FoldKeepsRest("$defs");
    SetWords(e, "$defs", "$defs");
  }

  lemma StandardReturnRules(e: Env)
    requires e == StandardEnv(e.encode, e.decode)
    ensures ReturnRules(e)
  {
    LowerWord(e, "content");
    FoldToolReturn();
  }

  /* ----- what is forgotten ----- */

  /** Request metadata leaves no trace, however its key is spelt: here as providers and the
      transcript spell it. */
  lemma RealMetadataForgotten(e: Env, m: map<string, Json>, k: string, x: Json, last: string)
    requires Lawful(e) && DropRules(e) && e.fold(last) !in e.schema
    requires k in ["tool_call_id", "requestID", "created_at"]
    ensures Normal(e, Obj(m[k := x]), last) == Normal(e, Obj(m - {k}), last)
  {
    MetadataForgotten(e, m, k, x, last);
  }

  /** Tool calls and functions have generated ids, which do not matter ... */
  lemma GeneratedIdForgotten(e: Env, m: map<string, Json>, x: Json, last: string)
    requires Lawful(e) && IdRules(e) && e.fold(last) !in e.schema
    requires "function" in m || ("type" in m && (m["type"] == String("tool_use") || m["type"] == String("function")))
    ensures Normal(e, Obj(m["id" := x]), last) == Normal(e, Obj(m - {"id"}), last)
  {
    var m1, m2 := m["id" := x], m - {"id"};
    assert "type" != "id" && "data" != "id" && "function" != "id";
    GuidesFrom(e, m1, m2);
    forall k | k in m1 && k in m2 ensures NormalField(e, Obj(m1), last, k) == NormalField(e, Obj(m2), last, k) {
      SameField(e, m1, m2, last, k);
    }
    SameObject(e, m1, m2, last);
  }

  /** ... any other id does. */
  lemma PlainIdKept(e: Env, m: map<string, Json>, x: Json, last: string)
    requires Lawful(e) && IdRules(e) && "function" !in m && !x.String? && last != MARKER
    requires "type" in m ==> m["type"] != String("tool_use") && m["type"] != String("function")
    ensures var r := Normal(e, Obj(m["id" := x]), last); "id" in r.fields && r.fields["id"] == Normal(e, x, "id")
  {
    var m1 := m["id" := x];
    assert Keeps(e, m1, last, "id");
    FieldPlace(e, Obj(m1), "id", last);
  }

  /** The order of required and enum lists does not matter ... */
  lemma RealOrderForgotten(e: Env, a: seq<Json>, b: seq<Json>, last: string)
    requires Lawful(e) && SortRules(e) && multiset(a) == multiset(b) && last in ["required", "enum"]
    requires forall i :: 0 <= i < |a| ==> !a[i].Arr? && !a[i].Obj?
    ensures Normal(e, Arr(a), last) == Normal(e, Arr(b), last)
  {
    assert |a| == |multiset(a)| == |multiset(b)| == |b|;
    if |a| >= 2 {
      MappedIsScalar(e, a, last);
      OrderForgotten(e, a, b, last);
    } else {
      ShortMultiset(a, b);
    }
  }

  lemma MappedIsScalar(e: Env, a: seq<Json>, last: string)
    requires LawfulCodec(e) && |a| >= 2 && e.fold(last) in e.scalarSets
    requires forall i :: 0 <= i < |a| ==> !a[i].Arr? && !a[i].Obj?
    ensures Sorts(e, last, Mapped(e, a, last))
  {
    forall v | v in Mapped(e, a, last) ensures Scalar(v) {
      var i :| 0 <= i < |Mapped(e, a, last)| && Mapped(e, a, last)[i] == v;
      MappedAt(e, a, last, i);
    }
  }

  lemma ShortMultiset(a: seq<Json>, b: seq<Json>)
    requires |a| == |b| < 2 && multiset(a) == multiset(b)
    ensures a == b
  {
    if a != [] {
      assert a[0] in multiset(b);
    }
  }

  /** ... nor that of a list of named tools. */
  lemma RealToolsForgotten(e: Env, a: seq<Json>, b: seq<Json>, last: string)
    requires Lawful(e) && SortRules(e) && NameRules(e) && multiset(a) == multiset(b) && last == "functionTools"
    requires forall i :: 0 <= i < |a| ==> NamedTool(a[i])
    ensures Normal(e, Arr(a), last) == Normal(e, Arr(b), last)
  {
    assert |a| == |multiset(a)| == |multiset(b)| == |b|;
    if |a| >= 2 {
      MappedIsToolLike(e, a, last);
      OrderForgotten(e, a, b, last);
    } else {
      ShortMultiset(a, b);
    }
  }

  lemma MappedIsToolLike(e: Env, a: seq<Json>, last: string)
    requires Lawful(e) && NameRules(e) && |a| >= 2 && e.fold(last) in e.toolSets && e.fold(last) !in e.scalarSets
    requires forall i :: 0 <= i < |a| ==> NamedTool(a[i])
    ensures Sorts(e, last, Mapped(e, a, last))
  {
    forall v | v in Mapped(e, a, last) ensures ToolLike(v) {
      var i :| 0 <= i < |Mapped(e, a, last)| && Mapped(e, a, last)[i] == v;
      MappedAt(e, a, last, i);
      NormalStaysNamed(e, a[i], last);
    }
  }

  /** A tool as the program or a provider names it: by "name" or "Name", or inside a
      function. */
  predicate NamedTool(v: Json) {
    || HasKey(v, "name") || HasKey(v, "Name")
    || (HasKey(v, "function") && HasKey(v.fields["function"], "name"))
  }

  predicate HasKey(v: Json, k: string) {
    v.Obj? && k in v.fields
  }

  lemma NameStays(e: Env, v: Json, k: string, last: string)
    requires LawfulCodec(e) && v.Obj? && k in v.fields && e.fold(k) !in e.dropped && e.fold(k) != "id"
    ensures HasKey(Normal(e, v, last), k)
  {
    NormalAt(e, v, last, k);
  }

  lemma FunctionStays(e: Env, v: Json, last: string)
    requires Lawful(e) && v.Obj? && HasKey(v, "function") && v.fields["function"].Obj?
    ensures HasKey(Normal(e, v, last), "function")
    ensures Normal(e, v, last).fields["function"] ==
      Normal(e, v.fields["function"], ChildKey(e, v.fields, "function"))
  {
    NormalAt(e, v, last, "function");
  }

  lemma NormalStaysNamed(e: Env, v: Json, last: string)
    requires Lawful(e) && NameRules(e) && NamedTool(v)
    ensures ToolLike(Normal(e, v, last))
  {
    if HasKey(v, "name") {
      NameStays(e, v, "name", last);
    } else if HasKey(v, "Name") {
      NameStays(e, v, "Name", last);
    } else {
      FunctionStays(e, v, last);
      NameStays(e, v.fields["function"], "name", ChildKey(e, v.fields, "function"));
    }
  }

  /** The spelling of a call's arguments does not matter. */
  lemma RealSpellingForgotten(e: Env, m: map<string, Json>, k: string, s: string, s': string, last: string)
    requires Lawful(e) && TextRules(e) && k in ["args_json", "arguments"] && last != MARKER
    requires e.decode(s).Some? && e.decode(s) == e.decode(s')
    ensures Normal(e, Obj(m[k := String(s)]), last) == Normal(e, Obj(m[k := String(s')]), last)
  {
    SpellingForgotten(e, m, k, s, s', last);
  }

  /* ----- what is kept ----- */

  /** Under a schema's properties every key stays, even one that is metadata elsewhere. */
  lemma SchemaPropertiesKept(e: Env, m: map<string, Json>, last: string)
    requires Lawful(e) && SchemaRules(e) && last in ["properties", "$defs"]
    ensures Normal(e, Obj(m), last).fields.Keys == m.Keys
  {
    forall k ensures k in Normal(e, Obj(m), last).fields <==> k in m {
      NormalAt(e, Obj(m), last, k);
    }
  }

  /** A tool result as the transcript writes it: {"type":"tool-return","data":{"content":x}}. */
  predicate RealReturn(v: Json, x: Json) {
    && v.Obj? && "type" in v.fields && v.fields["type"] == String("tool-return")
    && "data" in v.fields && v.fields["data"].Obj?
    && "content" in v.fields["data"].fields && v.fields["data"].fields["content"] == x
  }

  /** Two requests with different tool results at the same place have different normal
      forms, whatever else differs. */
  lemma RealToolOutputTellsApart(e: Env, v: Json, w: Json, path: seq<Hop>, x: Json, y: Json, last: string)
    requires Lawful(e) && ReturnRules(e) && Kept(e, v, path, last) && Kept(e, w, path, last) && x != y
    requires Follow(v, path).Some? && RealReturn(Follow(v, path).value, x)
    requires Follow(w, path).Some? && RealReturn(Follow(w, path).value, y)
    ensures Normal(e, v, last) != Normal(e, w, last)
  {
    ToolOutputTellsApart(e, v, w, path, "content", x, y, last);
  }

  /* ----- under the repository's rules ----- */

  /** Request metadata leaves no trace in a request. */
  lemma StandardMetadataForgotten(e: Env, m: map<string, Json>, k: string, x: Json)
    requires e == StandardEnv(e.encode, e.decode) && LawfulCodec(e)
    requires k in ["tool_call_id", "requestID", "created_at"]
    ensures Normal(e, Obj(m[k := x]), "") == Normal(e, Obj(m - {k}), "")
  {
    StandardRulesLawful(e);
    StandardDropRules(e);
    TopIsNoSchema(e);
    RealMetadataForgotten(e, m, k, x, "");
  }

  lemma TopIsNoSchema(e: Env)
    requires e == StandardEnv(e.encode, e.decode)
    ensures e.fold("") !in e.schema
  {
    assert e.fold("") == "";
  }

  /** Different tool results at the same place keep two requests apart. */
  lemma StandardToolOutputTellsApart(e: Env, v: Json, w: Json, path: seq<Hop>, x: Json, y: Json)
    requires e == StandardEnv(e.encode, e.decode) && LawfulCodec(e) && Kept(e, v, path, "") && Kept(e, w, path, "")
    requires Follow(v, path).Some? && RealReturn(Follow(v, path).value, x)
    requires Follow(w, path).Some? && RealReturn(Follow(w, path).value, y) && x != y
    ensures Normal(e, v, "") != Normal(e, w, "")
  {
    StandardRulesLawful(e);
    StandardReturnRules(e);
    RealToolOutputTellsApart(e, v, w, path, x, y, "");
  }

  /** The id of a tool call does not matter. */
  lemma StandardIdForgotten(e: Env, m: map<string, Json>, x: Json)
    requires e == StandardEnv(e.encode, e.decode) && LawfulCodec(e)
    requires "function" in m || ("type" in m && (m["type"] == String("tool_use") || m["type"] == String("function")))
    ensures Normal(e, Obj(m["id" := x]), "") == Normal(e, Obj(m - {"id"}), "")
  {
    StandardRulesLawful(e);
    StandardIdRules(e);
    TopIsNoSchema(e);
    GeneratedIdForgotten(e, m, x, "");
  }

  /** Nor does the order of required and enum lists and of named tools ... */
  lemma StandardOrderForgotten(e: Env, a: seq<Json>, b: seq<Json>, last: string)
    requires e == StandardEnv(e.encode, e.decode) && LawfulCodec(e) && multiset(a) == multiset(b)
    requires forall i :: 0 <= i < |a| ==>
      if last == "functionTools" then NamedTool(a[i]) else !a[i].Arr? && !a[i].Obj?
    requires last in ["required", "enum", "functionTools"]
    ensures Normal(e, Arr(a), last) == Normal(e, Arr(b), last)
  {
    StandardRulesLawful(e);
    StandardSortRules(e);
    if last == "functionTools" {
      StandardNameRules(e);
      RealToolsForgotten(e, a, b, last);
    } else {
      RealOrderForgotten(e, a, b, last);
    }
  }

  /** ... nor the spelling of a call's arguments. */
  lemma StandardSpellingForgotten(e: Env, m: map<string, Json>, k: string, s: string, s': string)
    requires e == StandardEnv(e.encode, e.decode) && LawfulCodec(e) && k in ["args_json", "arguments"]
    requires e.decode(s).Some? && e.decode(s) == e.decode(s')
    ensures Normal(e, Obj(m[k := String(s)]), "") == Normal(e, Obj(m[k := String(s')]), "")
  {
    StandardRulesLawful(e);
    StandardTextRules(e);
    RealSpellingForgotten(e, m, k, s, s', "");
  }

  /** Properties of a schema are all kept, whatever their names. */
  lemma StandardPropertiesKept(e: Env, m: map<string, Json>, last: string)
    requires e == StandardEnv(e.encode, e.decode) && LawfulCodec(e) && last in ["properties", "$defs"]
    ensures Normal(e, Obj(m), last).fields.Keys == m.Keys
  {
    StandardRulesLawful(e);
    StandardSchemaRules(e);
    SchemaPropertiesKept(e, m, last);
  }
}
