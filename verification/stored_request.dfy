/** packages/worker-sdk/src/llmConfig.ts: which copy of a prompt goes into the log. */
module StoredRequests {
  import opened Wrappers
  import opened Texts
  import opened Json
  import opened CanonicalForm
  import opened Requests
  import opened Events
  import opened SizeCaps

  // redact is whatever the deployment plugs in.
  datatype LlmStepConfig = LlmStepConfig(
    storePrompts: bool, maxStoredBytes: int, maxAttempts: int, toolMaxAttempts: int, redact: Text -> Text)

  datatype StoredRequest = StoredRequest(storage: RequestStorage, request: Option<LlmRequest>)

  // Every string inside a value; a member named __proto__ is lost as in canonicalize.
  function MapStrings(v: Json, f: Text -> Text): Json {
    match v
    case JString(s) => JString(f(s))
    case JArray(items) => JArray(seq(|items|, i requires 0 <= i < |items| => MapStrings(items[i], f)))
    case JObject(ms) => JObject(MapMembers(ms, f))
    case _ => v
  }

  function MapMembers(ms: seq<Member>, f: Text -> Text): seq<Member> {
    if ms == [] then []
    else if ms[0].key == PROTO then MapMembers(ms[1..], f)
    else [Member(ms[0].key, MapStrings(ms[0].value, f))] + MapMembers(ms[1..], f)
  }

  // mapStrings, as the loop it is; entries come in enumeration order, so they are defined in it.
  method MapStringsLoop(v: Json, f: Text -> Text) returns (r: Json)
    ensures r == MapStrings(v, f)
    decreases v
  {
    match v
    case JString(s) =>
      r := JString(f(s));
    case JArray(items) =>
      var out: seq<Json> := [];
      for i := 0 to |items|
        invariant |out| == i && forall j :: 0 <= j < i ==> out[j] == MapStrings(items[j], f)
      {
        var item := MapStringsLoop(items[i], f);
        out := out + [item];
      }
      r := JArray(out);
    case JObject(ms) =>
      var out: seq<Member> := [];
      for i := 0 to |ms|
        invariant out + MapMembers(ms[i..], f) == MapMembers(ms, f)
      {
        var value := MapStringsLoop(ms[i].value, f);
        assert ms[i..][0] == ms[i] && ms[i..][1..] == ms[i + 1..];
        if ms[i].key != PROTO {
          assert out + ([Member(ms[i].key, value)] + MapMembers(ms[i + 1..], f))
              == (out + [Member(ms[i].key, value)]) + MapMembers(ms[i + 1..], f);
          out := out + [Member(ms[i].key, value)];
        }
      }
      r := JObject(out);
    case _ =>
      r := v;
  }

  // The same on the parts of a request.
  function MapRequest(r: LlmRequest, f: Text -> Text): LlmRequest {
    LlmRequest(
      f(r.model),
      seq(|r.messages|, i requires 0 <= i < |r.messages| => Message(f(r.messages[i].role), f(r.messages[i].content))),
      MapStrings(r.params, f),
      match r.tools
      case None => None
      case Some(ts) => Some(seq(|ts|, i requires 0 <= i < |ts| => MapTool(ts[i], f))))
  }

  function MapTool(t: ToolDefinition, f: Text -> Text): ToolDefinition {
    var description := match t.description case None => None case Some(d) => Some(f(d));
    ToolDefinition(f(t.name), description, MapStrings(t.inputSchema, f))
  }

  // mapStrings of a request is the request with its strings mapped.
  lemma MapRequestIsMapStrings(r: LlmRequest, f: Text -> Text)
    ensures RequestJson(MapRequest(r, f)) == MapStrings(RequestJson(r), f)
  {
    KeysDiffer();
    var q := MapRequest(r, f);
    var ms, ns := RequestJson(r).members, RequestJson(q).members;
    MapMessages(r.messages, q.messages, f);
    if r.tools.Some? { MapTools(r.tools.value, q.tools.value, f); }
    assert ms[1..] == [ms[1], ms[2], ms[3]];
    MapThree(ms[1], ms[2], ms[3], f);
    assert MapMembers(ms, f) == [Member(ms[0].key, MapStrings(ms[0].value, f))] + MapMembers(ms[1..], f);
  }

  lemma MapThree(a: Member, b: Member, c: Member, f: Text -> Text)
    requires a.key != PROTO && b.key != PROTO && c.key != PROTO
    ensures MapMembers([a, b, c], f) ==
      [Member(a.key, MapStrings(a.value, f)), Member(b.key, MapStrings(b.value, f)),
        Member(c.key, MapStrings(c.value, f))]
  {
    assert [a, b, c][1..] == [b, c];
    MapTwo(b, c, f);
    assert MapMembers([a, b, c], f) == [Member(a.key, MapStrings(a.value, f))] + MapMembers([b, c], f);
  }

  lemma MapTwo(a: Member, b: Member, f: Text -> Text)
    requires a.key != PROTO && b.key != PROTO
    ensures MapMembers([a, b], f) == [Member(a.key, MapStrings(a.value, f)), Member(b.key, MapStrings(b.value, f))]
  {
    assert [a, b][1..] == [b] && [b][1..] == [];
    assert MapMembers([b], f) == [Member(b.key, MapStrings(b.value, f))] + MapMembers([], f);
  }

  lemma MapMessages(ms: seq<Message>, ns: seq<Message>, f: Text -> Text)
    requires |ns| == |ms| && forall i :: 0 <= i < |ms| ==> ns[i] == Message(f(ms[i].role), f(ms[i].content))
    ensures MessagesJson(ns) == MapStrings(MessagesJson(ms), f)
  {
    KeysDiffer();
    forall i | 0 <= i < |ms| ensures MessageJson(ns[i]) == MapStrings(MessageJson(ms[i]), f) {
      var xs := MessageJson(ms[i]).members;
      MapTwo(xs[0], xs[1], f);
    }
    assert MessagesJson(ns).items == MapStrings(MessagesJson(ms), f).items;
  }

  lemma MapTools(ts: seq<ToolDefinition>, us: seq<ToolDefinition>, f: Text -> Text)
    requires |us| == |ts| && forall i :: 0 <= i < |ts| ==> us[i] == MapTool(ts[i], f)
    ensures ToolsJson(us) == MapStrings(ToolsJson(ts), f)
  {
    KeysDiffer();
    forall i | 0 <= i < |ts| ensures ToolJson(us[i]) == MapStrings(ToolJson(ts[i]), f) {
      var xs := ToolJson(ts[i]).members;
      MapThree(xs[0], xs[1], xs[2], f);
    }
    assert ToolsJson(us).items == MapStrings(ToolsJson(ts), f).items;
  }

  // buildStoredRequest
  function BuildStoredRequest(r: LlmRequest, config: LlmStepConfig): StoredRequest {
    if !config.storePrompts then StoredRequest(NoCopy, None)
    else
      var redacted := MapRequest(r, config.redact);
      var changed := CanonicalJson(RequestJson(redacted)) != CanonicalJson(RequestJson(r));
      if RequestBytes(redacted) > config.maxStoredBytes then
        StoredRequest(TruncatedCopy, Some(ShrinkRequest(redacted, config.maxStoredBytes)))
      else StoredRequest(if changed then RedactedCopy else FullCopy, Some(redacted))
  }

  lemma {:induction false} MapMembersKeys(ms: seq<Member>, f: Text -> Text)
    ensures forall m :: m in MapMembers(ms, f) ==>
      exists x :: x in ms && x.key == m.key && m.value == MapStrings(x.value, f)
  {
    if ms != [] {
      MapMembersKeys(ms[1..], f);
      assert ms == [ms[0]] + ms[1..];
      forall m | m in MapMembers(ms, f)
        ensures exists x :: x in ms && x.key == m.key && m.value == MapStrings(x.value, f)
      {
        if m in MapMembers(ms[1..], f) {
          var x :| x in ms[1..] && x.key == m.key && m.value == MapStrings(x.value, f);
          assert x in ms;
        } else {
          assert ms[0] in ms;
        }
      }
    }
  }

  lemma {:induction false} MapMembersDistinct(ms: seq<Member>, f: Text -> Text)
    requires DistinctKeys(ms)
    ensures DistinctKeys(MapMembers(ms, f))
  {
    if ms != [] {
      MapMembersDistinct(ms[1..], f);
      MapMembersKeys(ms[1..], f);
      var rest := MapMembers(ms[1..], f);
      forall j | 0 <= j < |rest| ensures rest[j].key != ms[0].key {
        assert rest[j] in rest;
      }
    }
  }

  lemma {:induction false} MapStringsProper(v: Json, f: Text -> Text)
    requires Proper(v)
    ensures Proper(MapStrings(v, f))
  {
    match v
    case JArray(items) =>
      forall x | x in MapStrings(v, f).items ensures Proper(x) {
        var i :| 0 <= i < |items| && x == MapStrings(items[i], f);
        assert items[i] in items;
        MapStringsProper(items[i], f);
      }
    case JObject(ms) =>
      MapMembersDistinct(ms, f);
      MapMembersKeys(ms, f);
      forall m | m in MapMembers(ms, f) ensures Proper(m.value) {
        var x :| x in ms && x.key == m.key && m.value == MapStrings(x.value, f);
        MapStringsProper(x.value, f);
      }
    case _ =>
  }

  lemma MapRequestProper(r: LlmRequest, f: Text -> Text)
    requires ProperRequest(r)
    ensures ProperRequest(MapRequest(r, f))
  {
    MapStringsProper(r.params, f);
    if r.tools.Some? {
      forall t | t in MapRequest(r, f).tools.value ensures Proper(t.inputSchema) {
        var i :| 0 <= i < |r.tools.value| && t == MapTool(r.tools.value[i], f);
        assert r.tools.value[i] in r.tools.value;
        MapStringsProper(r.tools.value[i].inputSchema, f);
      }
    }
  }

  // A copy marked full asks the provider for the very same thing, so it has the same hash;
  // a copy marked redacted does not mean the same.
  lemma FullCopyIsFaithful(r: LlmRequest, config: LlmStepConfig)
    requires ProperRequest(r)
    ensures BuildStoredRequest(r, config).storage == NoCopy <==> !config.storePrompts
    ensures BuildStoredRequest(r, config).request.None? <==> !config.storePrompts
    ensures BuildStoredRequest(r, config).storage == FullCopy ==>
      var q := BuildStoredRequest(r, config).request.value;
      ProperRequest(q) && SameRequest(q, r) && CanonicalLlmRequest(q) == CanonicalLlmRequest(r)
    ensures BuildStoredRequest(r, config).storage == RedactedCopy ==>
      !SameValue(RequestJson(BuildStoredRequest(r, config).request.value), RequestJson(r))
  {
    if config.storePrompts {
      var q := MapRequest(r, config.redact);
      MapRequestProper(r, config.redact);
      CopyCompared(q, r);
    }
  }

  lemma CopyCompared(q: LlmRequest, r: LlmRequest)
    requires ProperRequest(q) && ProperRequest(r)
    ensures CanonicalJson(RequestJson(q)) == CanonicalJson(RequestJson(r)) <==>
      SameValue(RequestJson(q), RequestJson(r))
    ensures SameValue(RequestJson(q), RequestJson(r)) ==>
      SameRequest(q, r) && CanonicalLlmRequest(q) == CanonicalLlmRequest(r)
  {
    RequestProper(r);
    RequestProper(q);
    CanonicalJsonDecides(RequestJson(q), RequestJson(r));
    if SameValue(RequestJson(q), RequestJson(r)) {
      SameJsonSameRequest(q, r);
      CanonicalRequestDecides(q, r);
    }
  }

  lemma SameJsonSameRequest(q: LlmRequest, r: LlmRequest)
    requires SameValue(RequestJson(q), RequestJson(r))
    ensures SameRequest(q, r)
  {
    var t := match q.tools case Some(ts) => ToolsJson(ts) case None => JUndefined;
    var u := match r.tools case Some(ts) => ToolsJson(ts) case None => JUndefined;
    RequestObjectMeaning(q, q.params, t, r, r.params, u);
    if q.tools.Some? && r.tools.Some? {
      ToolsMeaning(q.tools.value, r.tools.value);
    }
  }
}
