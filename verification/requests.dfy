/** packages/core/src/llm.ts: LLM requests and the two texts a step's hash is computed over. */
module Requests {
  import opened Wrappers
  import opened Texts
  import opened Json
  import opened CanonicalForm

  datatype Message = Message(role: Text, content: Text)

  datatype ToolDefinition = ToolDefinition(name: Text, description: Option<Text>, inputSchema: Json)

  // Absent params are JUndefined.
  datatype LlmRequest = LlmRequest(
    model: Text, messages: seq<Message>, params: Json, tools: Option<seq<ToolDefinition>>)

  const MODEL: Text := Lit("model")
  const MESSAGES: Text := Lit("messages")
  const PARAMS: Text := Lit("params")
  const TOOLS: Text := Lit("tools")
  const ROLE: Text := Lit("role")
  const CONTENT: Text := Lit("content")
  const NAME: Text := Lit("name")
  const DESCRIPTION: Text := Lit("description")
  const INPUT_SCHEMA: Text := Lit("inputSchema")
  const TOOL: Text := Lit("tool")
  const ARGS: Text := Lit("args")

  ghost predicate ProperRequest(r: LlmRequest) {
    Proper(r.params) && (r.tools.Some? ==> forall t :: t in r.tools.value ==> Proper(t.inputSchema))
  }

  function MessageJson(m: Message): Json {
    JObject([Member(ROLE, JString(m.role)), Member(CONTENT, JString(m.content))])
  }

  function ToolJson(t: ToolDefinition): Json {
    JObject([
      Member(NAME, JString(t.name)),
      Member(DESCRIPTION, match t.description case Some(d) => JString(d) case None => JUndefined),
      Member(INPUT_SCHEMA, t.inputSchema)])
  }

  function MessagesJson(ms: seq<Message>): Json {
    JArray(seq(|ms|, i requires 0 <= i < |ms| => MessageJson(ms[i])))
  }

  function ToolsJson(ts: seq<ToolDefinition>): Json {
    JArray(seq(|ts|, i requires 0 <= i < |ts| => ToolJson(ts[i])))
  }

  function RequestObject(r: LlmRequest, params: Json, tools: Json): Json {
    JObject([
      Member(MODEL, JString(r.model)),
      Member(MESSAGES, MessagesJson(r.messages)),
      Member(PARAMS, params),
      Member(TOOLS, tools)])
  }

  // The request as it stands.
  function RequestJson(r: LlmRequest): Json {
    RequestObject(r, r.params, match r.tools case Some(ts) => ToolsJson(ts) case None => JUndefined)
  }

  function ToolsOf(r: LlmRequest): seq<ToolDefinition> {
    match r.tools case Some(ts) => ts case None => []
  }

  function OrEmpty(v: Json): Json {
    if v.JUndefined? || v.JNull? then JObject([]) else v
  }

  function OrNull(v: Json): Json {
    if v.JUndefined? then JNull else v
  }

  // normalizeLlmRequest: absent params and tools read as empty ones.
  function NormalizedJson(r: LlmRequest): Json {
    RequestObject(r, OrEmpty(r.params), ToolsJson(ToolsOf(r)))
  }

  function CanonicalLlmRequest(r: LlmRequest): Text {
    Stringify(Canonical(NormalizedJson(r)))
  }

  function ToolCallJson(tool: Text, args: Json): Json {
    JObject([Member(TOOL, JString(tool)), Member(ARGS, OrNull(args))])
  }

  function CanonicalToolCall(tool: Text, args: Json): Text {
    Stringify(Canonical(ToolCallJson(tool, args)))
  }

  // ---------------------------------------------------------------- what the hashes cover

  // Two values that JSON text does not tell apart.
  predicate SameValue(v: Json, w: Json) {
    MeaningOf(v, false) == MeaningOf(w, false)
  }

  predicate SameTool(t: ToolDefinition, u: ToolDefinition) {
    t.name == u.name && t.description == u.description && SameValue(t.inputSchema, u.inputSchema)
  }

  // Model, messages, params and tools agree, the last two up to canonical form.
  predicate SameRequest(r: LlmRequest, s: LlmRequest) {
    var ts := ToolsOf(r);
    var us := ToolsOf(s);
    && r.model == s.model
    && r.messages == s.messages
    && SameValue(OrEmpty(r.params), OrEmpty(s.params))
    && |ts| == |us|
    && forall i :: 0 <= i < |ts| ==> SameTool(ts[i], us[i])
  }

  predicate SameToolCall(tool: Text, args: Json, tool': Text, args': Json) {
    tool == tool' && SameValue(OrNull(args), OrNull(args'))
  }

  lemma SameKeySameMember(ms: seq<Member>, i: nat, x: Member)
    requires DistinctKeys(ms) && i < |ms| && x in ms && x.key == ms[i].key
    ensures x == ms[i]
  {
    var j :| 0 <= j < |ms| && ms[j] == x;
  }

  // An object's meaning at a key is that of the member it holds there.
  lemma MeaningAtKey(ms: seq<Member>, i: nat)
    requires DistinctKeys(ms) && i < |ms| && ms[i].key != PROTO
    ensures ms[i].key in MembersMeaning(ms, false) <==> !ms[i].value.JUndefined?
    ensures ms[i].key in MembersMeaning(ms, false) ==>
      MembersMeaning(ms, false)[ms[i].key] == MeaningOf(ms[i].value, false)
  {
    var x := ms[i];
    if x.value.JUndefined? {
      MembersMeaningKeys(ms, x.key, false);
      if Names(ms, x.key, false) {
        var y :| y in ms && y.key == x.key && Counts(y, false);
        SameKeySameMember(ms, i, y);
      }
    } else {
      assert x in ms;
      MembersMeaningAt(ms, x, false);
    }
  }

  lemma MeaningKeys(ms: seq<Member>, k: Text)
    requires DistinctKeys(ms) && k in MembersMeaning(ms, false)
    ensures exists i :: 0 <= i < |ms| && ms[i].key == k
  {
    MembersMeaningHolds(ms, false);
    var x :| x in ms && x.key == k && Counts(x, false);
  }

  lemma KeysDiffer()
    ensures MODEL != MESSAGES && MODEL != PARAMS && MODEL != TOOLS && MESSAGES != PARAMS && MESSAGES != TOOLS
    ensures PARAMS != TOOLS
    ensures ROLE != CONTENT && NAME != DESCRIPTION && NAME != INPUT_SCHEMA && DESCRIPTION != INPUT_SCHEMA
    ensures TOOL != ARGS
    ensures forall k ::
      k in [MODEL, MESSAGES, PARAMS, TOOLS, ROLE, CONTENT, NAME, DESCRIPTION, INPUT_SCHEMA, TOOL, ARGS] ==> k != PROTO
  {
    assert MODEL[0] == 109 && TOOLS[0] == 116 && NAME[0] == 110 && ROLE[0] == 114 && TOOL[0] == 116 && ARGS[0] == 97;
    assert DESCRIPTION[0] == 100 && INPUT_SCHEMA[0] == 105;
    assert PROTO[0] == 95;
  }

  lemma MessageMeaning(m: Message, n: Message)
    ensures SameValue(MessageJson(m), MessageJson(n)) <==> m == n
  {
    KeysDiffer();
    var a, b := MessageJson(m).members, MessageJson(n).members;
    MeaningAtKey(a, 0);
    MeaningAtKey(a, 1);
    MeaningAtKey(b, 0);
    MeaningAtKey(b, 1);
    var x, y := MembersMeaning(a, false), MembersMeaning(b, false);
    assert x[ROLE] == MString(m.role) && x[CONTENT] == MString(m.content);
    assert y[ROLE] == MString(n.role) && y[CONTENT] == MString(n.content);
  }

  lemma ObjectsMeaning(ms: seq<Member>, ns: seq<Member>)
    ensures SameValue(JObject(ms), JObject(ns)) <==> MembersMeaning(ms, false) == MembersMeaning(ns, false)
  {
  }

  // Maps over the same few keys are compared key by key.
  lemma SameAtKeys<K, V>(x: map<K, V>, y: map<K, V>, keys: set<K>)
    requires x.Keys <= keys && y.Keys <= keys
    ensures x == y <==> forall k :: k in keys ==> Get(x, k) == Get(y, k)
  {
    if forall k :: k in keys ==> Get(x, k) == Get(y, k) {
      assert forall k :: k in x ==> Get(y, k) == Some(x[k]);
      assert forall k :: k in y ==> Get(x, k) == Some(y[k]);
    }
  }

  // What a member with this value contributes.
  function Contribution(v: Json): Option<Meaning> {
    if v.JUndefined? then None else Some(MeaningOf(v, false))
  }

  lemma SameContribution(v: Json, w: Json)
    ensures SameValue(v, w) <==> Contribution(v) == Contribution(w)
  {
  }

  lemma ContributionAt(ms: seq<Member>, i: nat)
    requires DistinctKeys(ms) && i < |ms| && ms[i].key != PROTO
    ensures Get(MembersMeaning(ms, false), ms[i].key) == Contribution(ms[i].value)
  {
    MeaningAtKey(ms, i);
  }

  lemma ToolMeaning(t: ToolDefinition, u: ToolDefinition)
    ensures SameValue(ToolJson(t), ToolJson(u)) <==> SameTool(t, u)
  {
    ObjectsMeaning(ToolJson(t).members, ToolJson(u).members);
    SameContribution(t.inputSchema, u.inputSchema);
    hide MembersMeaning, MeaningOf, SameValue, Contribution;
    ToolMembers(t);
    ToolMembers(u);
    SameAtKeys(MembersMeaning(ToolJson(t).members, false), MembersMeaning(ToolJson(u).members, false),
      {NAME, DESCRIPTION, INPUT_SCHEMA});
  }

  lemma ToolMembers(t: ToolDefinition)
    ensures var m := MembersMeaning(ToolJson(t).members, false);
      && Get(m, NAME) == Some(MString(t.name))
      && Get(m, DESCRIPTION) == (match t.description case Some(d) => Some(MString(d)) case None => None)
      && Get(m, INPUT_SCHEMA) == Contribution(t.inputSchema)
      && m.Keys <= {NAME, DESCRIPTION, INPUT_SCHEMA}
  {
    KeysDiffer();
    var ms := ToolJson(t).members;
    ContributionAt(ms, 0);
    ContributionAt(ms, 1);
    ContributionAt(ms, 2);
    forall k | k in MembersMeaning(ms, false) ensures k in {NAME, DESCRIPTION, INPUT_SCHEMA} {
      MeaningKeys(ms, k);
    }
  }

  lemma ArrayMeaning(xs: seq<Json>, ys: seq<Json>)
    requires forall x :: x in xs ==> !x.JUndefined?
    requires forall y :: y in ys ==> !y.JUndefined?
    ensures SameValue(JArray(xs), JArray(ys)) <==> |xs| == |ys| && forall i :: 0 <= i < |xs| ==> SameValue(xs[i], ys[i])
  {
    var a, b := MeaningOf(JArray(xs), false).items, MeaningOf(JArray(ys), false).items;
    assert |a| == |xs| && |b| == |ys|;
    forall i | 0 <= i < |xs| ensures a[i] == MeaningOf(xs[i], false) { assert xs[i] in xs; }
    forall i | 0 <= i < |ys| ensures b[i] == MeaningOf(ys[i], false) { assert ys[i] in ys; }
    if |xs| == |ys| && forall i :: 0 <= i < |xs| ==> SameValue(xs[i], ys[i]) {
      assert forall i :: 0 <= i < |a| ==> a[i] == b[i];
    }
  }

  lemma MessagesMeaning(ms: seq<Message>, ns: seq<Message>)
    ensures SameValue(MessagesJson(ms), MessagesJson(ns)) <==> ms == ns
  {
    ArrayMeaning(MessagesJson(ms).items, MessagesJson(ns).items);
    forall i | 0 <= i < |ms| && i < |ns|
      ensures SameValue(MessagesJson(ms).items[i], MessagesJson(ns).items[i]) <==> ms[i] == ns[i]
    {
      MessageMeaning(ms[i], ns[i]);
    }
  }

  lemma ToolsMeaning(ts: seq<ToolDefinition>, us: seq<ToolDefinition>)
    ensures SameValue(ToolsJson(ts), ToolsJson(us)) <==>
      |ts| == |us| && forall i :: 0 <= i < |ts| ==> SameTool(ts[i], us[i])
  {
    ArrayMeaning(ToolsJson(ts).items, ToolsJson(us).items);
    forall i | 0 <= i < |ts| && i < |us|
      ensures SameValue(ToolsJson(ts).items[i], ToolsJson(us).items[i]) <==> SameTool(ts[i], us[i])
    {
      ToolMeaning(ts[i], us[i]);
    }
  }

  lemma RequestObjectMeaning(r: LlmRequest, p: Json, t: Json, s: LlmRequest, q: Json, u: Json)
    ensures SameValue(RequestObject(r, p, t), RequestObject(s, q, u)) <==>
      r.model == s.model && r.messages == s.messages && SameValue(p, q) && SameValue(t, u)
  {
    ObjectsMeaning(RequestObject(r, p, t).members, RequestObject(s, q, u).members);
    MessagesMeaning(r.messages, s.messages);
    SameContribution(MessagesJson(r.messages), MessagesJson(s.messages));
    SameContribution(p, q);
    SameContribution(t, u);
    hide MembersMeaning, MeaningOf, SameValue, Contribution, MessagesJson;
    RequestMembers(r, p, t);
    RequestMembers(s, q, u);
    SameAtKeys(MembersMeaning(RequestObject(r, p, t).members, false),
      MembersMeaning(RequestObject(s, q, u).members, false),
      {MODEL, MESSAGES, PARAMS, TOOLS});
  }

  lemma RequestMembers(r: LlmRequest, p: Json, t: Json)
    ensures var m := MembersMeaning(RequestObject(r, p, t).members, false);
      && Get(m, MODEL) == Some(MString(r.model))
      && Get(m, MESSAGES) == Contribution(MessagesJson(r.messages))
      && Get(m, PARAMS) == Contribution(p)
      && Get(m, TOOLS) == Contribution(t)
      && m.Keys <= {MODEL, MESSAGES, PARAMS, TOOLS}
  {
    KeysDiffer();
    var ms := RequestObject(r, p, t).members;
    ContributionAt(ms, 0);
    ContributionAt(ms, 1);
    ContributionAt(ms, 2);
    ContributionAt(ms, 3);
    forall k | k in MembersMeaning(ms, false) ensures k in {MODEL, MESSAGES, PARAMS, TOOLS} {
      MeaningKeys(ms, k);
    }
  }

  lemma MessagesProper(ms: seq<Message>)
    ensures Proper(MessagesJson(ms))
  {
    forall x | x in MessagesJson(ms).items ensures Proper(x) {
      KeysDiffer();
      var i :| 0 <= i < |ms| && x == MessageJson(ms[i]);
      assert forall m :: m in x.members ==> m.value.JString?;
    }
  }

  lemma ToolsProper(ts: seq<ToolDefinition>)
    requires forall t :: t in ts ==> Proper(t.inputSchema)
    ensures Proper(ToolsJson(ts))
  {
    forall x | x in ToolsJson(ts).items ensures Proper(x) {
      KeysDiffer();
      var i :| 0 <= i < |ts| && x == ToolJson(ts[i]);
      assert ts[i] in ts;
    }
  }

  lemma RequestProper(r: LlmRequest)
    requires ProperRequest(r)
    ensures Proper(NormalizedJson(r)) && Proper(RequestJson(r))
  {
    KeysDiffer();
    MessagesProper(r.messages);
    ToolsProper(ToolsOf(r));
  }

  // The request hash covers exactly the model, the messages, the params and the tools.
  lemma CanonicalRequestDecides(r: LlmRequest, s: LlmRequest)
    requires ProperRequest(r) && ProperRequest(s)
    ensures CanonicalLlmRequest(r) == CanonicalLlmRequest(s) <==> SameRequest(r, s)
  {
    RequestProper(r);
    RequestProper(s);
    TextsDecide(NormalizedJson(r), NormalizedJson(s));
    NormalizedDecides(r, s);
  }

  lemma TextsDecide(v: Json, w: Json)
    requires Proper(v) && Proper(w) && !v.JUndefined? && !w.JUndefined?
    ensures Stringify(Canonical(v)) == Stringify(Canonical(w)) <==> SameValue(v, w)
  {
    CanonicalJsonDecides(v, w);
  }

  lemma NormalizedDecides(r: LlmRequest, s: LlmRequest)
    ensures SameValue(NormalizedJson(r), NormalizedJson(s)) <==> SameRequest(r, s)
  {
    var ts := ToolsOf(r);
    var us := ToolsOf(s);
    ToolsMeaning(ts, us);
    RequestObjectMeaning(r, OrEmpty(r.params), ToolsJson(ts), s, OrEmpty(s.params), ToolsJson(us));
  }

  lemma ToolCallMeaning(tool: Text, args: Json, tool': Text, args': Json)
    ensures SameValue(ToolCallJson(tool, args), ToolCallJson(tool', args')) <==> SameToolCall(tool, args, tool', args')
  {
    KeysDiffer();
    var a, b := ToolCallJson(tool, args).members, ToolCallJson(tool', args').members;
    MeaningAtKey(a, 0);
    MeaningAtKey(a, 1);
    MeaningAtKey(b, 0);
    MeaningAtKey(b, 1);
    var x, y := MembersMeaning(a, false), MembersMeaning(b, false);
    assert x[TOOL] == MString(tool) && y[TOOL] == MString(tool');
    assert x[ARGS] == MeaningOf(OrNull(args), false) && y[ARGS] == MeaningOf(OrNull(args'), false);
    assert TOOL in x && TOOL in y && ARGS in x && ARGS in y;
    if SameToolCall(tool, args, tool', args') {
      forall k ensures k in x <==> k in y {
        if k in x { MeaningKeys(a, k); }
        if k in y { MeaningKeys(b, k); }
      }
      forall k | k in x ensures x[k] == y[k] { MeaningKeys(a, k); }
    }
  }

  // A tool call's hash covers exactly the tool name and its arguments, absent ones being null.
  lemma CanonicalToolCallDecides(tool: Text, args: Json, tool': Text, args': Json)
    requires Proper(args) && Proper(args')
    ensures CanonicalToolCall(tool, args) == CanonicalToolCall(tool', args') <==> SameToolCall(tool, args, tool', args')
  {
    KeysDiffer();
    TextsDecide(ToolCallJson(tool, args), ToolCallJson(tool', args'));
    ToolCallMeaning(tool, args, tool', args');
  }
}
