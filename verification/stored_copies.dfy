/**
 packages/worker-sdk/src/llmConfig.ts: what is left of a prompt in the copy that goes into the log, field by field.
 Whatever redact removes from texts is gone from every string of the copy.
 */
module StoredCopies {
  import opened Wrappers
  import opened Texts
  import opened Json
  import opened CanonicalForm
  import opened Requests
  import opened Events
  import opened SizeCaps
  import opened StoredRequests

  // ---------------------------------------------------------------- values

  // Every string inside a value has the property, and no member is named __proto__.
  ghost predicate EveryString(v: Json, holds: Text -> bool) {
    match v
    case JString(s) => holds(s)
    case JArray(items) => forall x :: x in items ==> EveryString(x, holds)
    case JObject(ms) => forall m :: m in ms ==> m.key != PROTO && EveryString(m.value, holds)
    case _ => true
  }

  lemma {:induction false} MappedStrings(v: Json, f: Text -> Text, holds: Text -> bool)
    requires forall s :: holds(f(s))
    ensures EveryString(MapStrings(v, f), holds)
  {
    match v
    case JArray(items) =>
      forall x | x in MapStrings(v, f).items ensures EveryString(x, holds) {
        var i :| 0 <= i < |items| && x == MapStrings(items[i], f);
        MappedStrings(items[i], f, holds);
      }
    case JObject(ms) =>
      MapMembersKeys(ms, f);
      NoProtoMember(ms, f);
      forall m | m in MapMembers(ms, f) ensures EveryString(m.value, holds) {
        var x :| x in ms && x.key == m.key && m.value == MapStrings(x.value, f);
        MappedStrings(x.value, f, holds);
      }
    case _ =>
  }

  lemma {:induction false} NoProtoMember(ms: seq<Member>, f: Text -> Text)
    ensures forall m :: m in MapMembers(ms, f) ==> m.key != PROTO
  {
    if ms != [] { NoProtoMember(ms[1..], f); }
  }

  // What the strings are mapped by twice, they are mapped by once.
  lemma {:induction false} MappedTwice(v: Json, f: Text -> Text, g: Text -> Text)
    ensures MapStrings(MapStrings(v, f), g) == MapStrings(v, s => g(f(s)))
  {
    match v
    case JArray(items) =>
      forall i | 0 <= i < |items| ensures MapStrings(MapStrings(items[i], f), g) == MapStrings(items[i], s => g(f(s))) {
        MappedTwice(items[i], f, g);
      }
      assert MapStrings(MapStrings(v, f), g).items == MapStrings(v, s => g(f(s))).items;
    case JObject(ms) => MembersMappedTwice(ms, f, g);
    case _ =>
  }

  lemma {:induction false} MembersMappedTwice(ms: seq<Member>, f: Text -> Text, g: Text -> Text)
    ensures MapMembers(MapMembers(ms, f), g) == MapMembers(ms, s => g(f(s)))
  {
    if ms != [] {
      MembersMappedTwice(ms[1..], f, g);
      if ms[0].key != PROTO {
        MappedTwice(ms[0].value, f, g);
        var head, rest := Member(ms[0].key, MapStrings(ms[0].value, f)), MapMembers(ms[1..], f);
        assert ([head] + rest)[1..] == rest;
      }
    }
  }

  // A value without such members is what it was when no string changes.
  lemma {:induction false} MappedToItself(v: Json, f: Text -> Text)
    requires EveryString(v, s => f(s) == s)
    ensures MapStrings(v, f) == v
  {
    match v
    case JArray(items) =>
      forall i | 0 <= i < |items| ensures MapStrings(items[i], f) == items[i] {
        assert items[i] in items;
        MappedToItself(items[i], f);
      }
      assert MapStrings(v, f).items == items;
    case JObject(ms) => MembersMappedToThemselves(ms, f);
    case _ =>
  }

  lemma {:induction false} MembersMappedToThemselves(ms: seq<Member>, f: Text -> Text)
    requires forall m :: m in ms ==> m.key != PROTO && EveryString(m.value, s => f(s) == s)
    ensures MapMembers(ms, f) == ms
  {
    if ms != [] {
      assert ms[0] in ms && ms == [ms[0]] + ms[1..];
      MappedToItself(ms[0].value, f);
      MembersMappedToThemselves(ms[1..], f);
    }
  }

  // ---------------------------------------------------------------- copies

  // What each message may take of a prompt that has to be shrunk.
  function Share(r: LlmRequest, config: LlmStepConfig): int
    requires r.messages != []
  {
    (config.maxStoredBytes - Overhead(MapRequest(r, config.redact))) / |r.messages|
  }

  // The tool with its texts redacted.
  ghost predicate Redacts(t: ToolDefinition, u: ToolDefinition, f: Text -> Text) {
    && u.name == f(t.name)
    && (t.description.None? <==> u.description.None?)
    && (t.description.Some? ==> u.description == Some(f(t.description.value)))
    && u.inputSchema == MapStrings(t.inputSchema, f)
  }

  // A copy has the redacted model. Unless the rest leaves no room for contents it has every message, its role redacted
  // and its content redacted and, in a truncated copy, cut to its share; and params and tools redacted.
  lemma CopyIs(r: LlmRequest, config: LlmStepConfig)
    requires config.storePrompts
    ensures var stored, f := BuildStoredRequest(r, config), config.redact;
      && stored.request.Some?
      && var q := stored.request.value;
      && q.model == f(r.model)
      && (q.messages != [] || stored.storage != TruncatedCopy ==>
           && |q.messages| == |r.messages|
           && (forall i :: 0 <= i < |q.messages| ==>
                && q.messages[i].role == f(r.messages[i].role)
                && q.messages[i].content ==
                     if stored.storage != TruncatedCopy then f(r.messages[i].content)
                     else Truncated(f(r.messages[i].content), Share(r, config)).text)
           && q.params == MapStrings(r.params, f)
           && (q.tools.None? <==> r.tools.None?)
           && (r.tools.Some? ==>
                && |q.tools.value| == |r.tools.value|
                && forall i :: 0 <= i < |r.tools.value| ==> Redacts(r.tools.value[i], q.tools.value[i], f)))
      && (q.messages == [] && stored.storage == TruncatedCopy ==> q.params == JUndefined && q.tools == None)
      && (stored.storage == TruncatedCopy ==>
           (q.messages == [] <==> r.messages == [] || Overhead(MapRequest(r, f)) >= config.maxStoredBytes))
  {
    hide Truncated, Overhead, RequestBytes, CanonicalJson, MapStrings;
  }

  ghost predicate EveryStringOfTool(t: ToolDefinition, holds: Text -> bool) {
    holds(t.name) && (t.description.Some? ==> holds(t.description.value)) && EveryString(t.inputSchema, holds)
  }

  // What holds of every redacted text holds of every string in the copy, truncated contents aside.
  lemma CopyIsRedacted(r: LlmRequest, config: LlmStepConfig, holds: Text -> bool)
    requires forall s :: holds(config.redact(s))
    ensures var stored := BuildStoredRequest(r, config);
      stored.request.Some? ==>
        var q := stored.request.value;
        && holds(q.model)
        && (forall i :: 0 <= i < |q.messages| ==> holds(q.messages[i].role))
        && (stored.storage != TruncatedCopy ==> forall i :: 0 <= i < |q.messages| ==> holds(q.messages[i].content))
        && EveryString(q.params, holds)
        && (q.tools.Some? ==> forall i :: 0 <= i < |q.tools.value| ==> EveryStringOfTool(q.tools.value[i], holds))
  {
    if config.storePrompts {
      CopyIs(r, config);
      MappedStrings(r.params, config.redact, holds);
      hide BuildStoredRequest, MapStrings, Truncated;
      var q := BuildStoredRequest(r, config).request.value;
      if q.tools.Some? {
        forall i | 0 <= i < |q.tools.value| ensures EveryStringOfTool(q.tools.value[i], holds) {
          assert Redacts(r.tools.value[i], q.tools.value[i], config.redact);
          MappedStrings(r.tools.value[i].inputSchema, config.redact, holds);
        }
      }
    }
  }
}
