/**
 The texts the engine hashes, stores and measures, unit by unit: the escapes of JSON strings (section 7 of RFC 8259,
 as ECMA-262 prints them), UTF-8 (section 3 of RFC 3629), and the members of what packages/core/src/llm.ts and
 packages/worker-sdk/src/llmConfig.ts print.
 */
module Formats {
  import opened Wrappers
  import opened Texts
  import opened Json
  import opened Utf8
  import opened CanonicalForm
  import opened KeyOrder
  import opened Requests
  import opened Events
  import opened SizeCaps

  // ---------------------------------------------------------------- strings

  predicate Plain(u: CodeUnit) {
    32 <= u < 0xD800 && u != 34 && u != 92
  }

  lemma EscapeAlone(u: CodeUnit)
    ensures Escape([u]) == EscapeUnit(u)
  {
    assert [u][..1] == [u] && [u][1..] == [];
    assert Escape([]) == [];
  }

  // Quotes, backslashes and five control characters have an escape of their own.
  lemma ShortEscapes()
    ensures Escape([34]) == Lit("\\\"") && Escape([92]) == Lit("\\\\")
    ensures Escape([8]) == Lit("\\b") && Escape([9]) == Lit("\\t") && Escape([10]) == Lit("\\n")
    ensures Escape([12]) == Lit("\\f") && Escape([13]) == Lit("\\r")
  {
    hide Escape;
    EscapeAlone(34);
    EscapeAlone(92);
    EscapeAlone(8);
    EscapeAlone(9);
    EscapeAlone(10);
    EscapeAlone(12);
    EscapeAlone(13);
  }

  predicate IsLowerHex(u: CodeUnit) {
    48 <= u <= 57 || 97 <= u <= 102
  }

  function LowerHexValue(u: CodeUnit): int {
    if u <= 57 then u - 48 else u - 87
  }

  // The other control characters and lone surrogates are \\u and four lower-case hexadecimal digits of their value.
  lemma LongEscapes(u: CodeUnit)
    requires (u < 32 && u != 8 && u != 9 && u != 10 && u != 12 && u != 13) || 0xD800 <= u < 0xE000
    ensures var e := Escape([u]);
      && |e| == 6 && e[..2] == Lit("\\u") && (forall k :: 2 <= k < 6 ==> IsLowerHex(e[k]))
      && u == 4096 * LowerHexValue(e[2]) + 256 * LowerHexValue(e[3]) + 16 * LowerHexValue(e[4]) + LowerHexValue(e[5])
  {
    EscapeAlone(u);
    hide Escape;
    var a, b, c, d := u / 16 / 16 / 16, u / 16 / 16 % 16, u / 16 % 16, u % 16;
    assert u == 4096 * a + 256 * b + 16 * c + d;
    var e := EscapeUnit(u);
    assert e == [92, 117] + Hex4(u);
    assert e[..2] == [92, 117];
    assert LowerHexValue(e[2]) == a && LowerHexValue(e[3]) == b;
    assert LowerHexValue(e[4]) == c && LowerHexValue(e[5]) == d;
  }

  // A surrogate pair and every other unit stay as they are.
  lemma NotEscaped(u: CodeUnit, high: CodeUnit, low: CodeUnit)
    requires Plain(u) || u >= 0xE000
    requires 0xD800 <= high < 0xDC00 <= low < 0xE000
    ensures Escape([u]) == [u] && Escape([high, low]) == [high, low]
  {
    EscapeAlone(u);
    var pair: Text := [high, low];
    assert pair[..2] == pair && pair[2..] == [];
    assert Escape(pair) == EscapeChar(pair) + Escape([]);
  }

  lemma PlainStays(s: Text)
    requires forall i :: 0 <= i < |s| ==> Plain(s[i])
    ensures Quote(s) == [34] + s + [34]
  {
    PlainEscape(s);
  }

  lemma {:induction false} PlainEscape(s: Text)
    requires forall i :: 0 <= i < |s| ==> Plain(s[i])
    ensures Escape(s) == s
  {
    if s != [] {
      PlainEscape(s[1..]);
      assert s[..1] == [s[0]];
      assert s == [s[0]] + s[1..];
    }
  }

  // ---------------------------------------------------------------- other values

  // A number is its sign, if it is negative, and its digits; of the rest each has a name.
  lemma ScalarsAre(n: SafeInt)
    ensures Stringify(JNull) == Lit("null") && Stringify(JUndefined) == Lit("null")
    ensures Stringify(JBool(true)) == Lit("true") && Stringify(JBool(false)) == Lit("false")
    ensures var t := Stringify(JNumber(n));
      var digits := if n < 0 then t[1..] else t;
      && t != [] && (n < 0 ==> t[0] == 45)
      && (forall i :: 0 <= i < |digits| ==> IsDigit(digits[i]))
      && NumeralValue(digits) == (if n < 0 then -n else n)
      && (digits[..1] == Lit("0") ==> n == 0)
  {
    var m := if n < 0 then -n else n;
    assert (if n < 0 then Decimal(n)[1..] else Decimal(n)) == Digits(m);
    NumeralValueOfDigits(m);
    DigitsLead(m);
  }

  // ---------------------------------------------------------------- UTF-8

  // The number of a character; a surrogate standing alone counts as U+FFFD.
  function ScalarValue(c: Text): nat
    requires IsChar(c)
  {
    if |c| == 2 then 0x1_0000 + (c[0] as int - 0xD800) * 0x400 + (c[1] as int - 0xDC00)
    else if 0xD800 <= c[0] < 0xE000 then 0xFFFD
    else c[0]
  }

  // One to four bytes by the size of the number, whose bits they share out six to a byte, from the last byte on.
  lemma EncodingIs(c: Text)
    requires IsChar(c)
    ensures var p, b := ScalarValue(c), EncodeChar(c);
      && |b| == (if p < 0x80 then 1 else if p < 0x800 then 2 else if p < 0x1_0000 then 3 else 4)
      && (|b| == 1 ==> b[0] == p)
      && (|b| == 2 ==> 0xC0 <= b[0] < 0xE0 && p == (b[0] as int - 0xC0) * 64 + (b[1] as int - 0x80))
      && (|b| == 3 ==>
           && 0xE0 <= b[0] < 0xF0
           && p == (b[0] as int - 0xE0) * 0x1000 + (b[1] as int - 0x80) * 64 + (b[2] as int - 0x80))
      && (|b| == 4 ==>
           && 0xF0 <= b[0] < 0xF8
           && p == (b[0] as int - 0xF0) * 0x4_0000 + (b[1] as int - 0x80) * 0x1000 + (b[2] as int - 0x80) * 64
                + (b[3] as int - 0x80))
      && forall i :: 1 <= i < |b| ==> 0x80 <= b[i] < 0xC0
  {
    SixBitDigits(ScalarValue(c));
    SixBitShifts(ScalarValue(c));
  }

  // ---------------------------------------------------------------- what is hashed

  // Items with commas between.
  function Joined(xs: seq<Text>): Text {
    if xs == [] then [] else if |xs| == 1 then xs[0] else xs[0] + Lit(",") + Joined(xs[1..])
  }

  lemma JoinedMore(xs: seq<Text>)
    requires |xs| > 1
    ensures Joined(xs) == xs[0] + Lit(",") + Joined(xs[1..])
  {
  }

  lemma Regroup(a: Text, b: Text, c: Text, d: Text)
    ensures a + ((b + c) + d) == ((a + b) + c) + d
    ensures (b + a) + ((b + c) + d) == (b + ((a + b) + c)) + d
  {
  }

  lemma ItemSplit(items: seq<Json>)
    requires items != []
    ensures StringifyItems(items, true) == Stringify(items[0]) + StringifyItems(items[1..], false)
    ensures StringifyItems(items, false) == Lit(",") + Stringify(items[0]) + StringifyItems(items[1..], false)
  {
    hide Stringify;
    assert Comma(false) == Lit(",");
  }

  lemma {:induction false} ItemsAre(items: seq<Json>, xs: seq<Text>)
    requires |xs| == |items| && forall i :: 0 <= i < |items| ==> xs[i] == Stringify(items[i])
    ensures StringifyItems(items, true) == Joined(xs) + Lit("]")
    ensures items != [] ==> StringifyItems(items, false) == Lit(",") + Joined(xs) + Lit("]")
  {
    hide Stringify;
    if items == [] {
    } else if |items| == 1 {
      assert StringifyItems(items[1..], false) == [93];
    } else {
      ItemsAre(items[1..], xs[1..]);
      var t := Stringify(items[0]);
      ItemSplit(items);
      JoinedMore(xs);
      hide StringifyItems, Joined;
      Regroup(t, Lit(","), Joined(xs[1..]), Lit("]"));
    }
  }

  function Array(xs: seq<Text>): Text {
    Lit("[") + Joined(xs) + Lit("]")
  }

  function Object(xs: seq<Text>): Text {
    Lit("{") + Joined(xs) + Lit("}")
  }

  const MODEL_IS := Lit("\"model\":")
  const MESSAGES_IS := Lit("\"messages\":")
  const PARAMS_IS := Lit("\"params\":")
  const TOOLS_IS := Lit("\"tools\":")
  const ROLE_IS := Lit("\"role\":")
  const CONTENT_IS := Lit("\"content\":")
  const NAME_IS := Lit("\"name\":")
  const DESCRIPTION_IS := Lit("\"description\":")
  const INPUT_SCHEMA_IS := Lit("\"inputSchema\":")
  const TOOL_IS := Lit("\"tool\":")
  const ARGS_IS := Lit("\"args\":")

  // The prefix a member of this name is printed with.
  predicate Names(key: Text, prefix: Text) {
    prefix == Quote(key) + [58]
  }

  lemma OneName(key: Text, prefix: Text)
    requires prefix == [34] + key + [34, 58] && forall i :: 0 <= i < |key| ==> Plain(key[i])
    ensures Names(key, prefix)
  {
    PlainStays(key);
  }

  lemma RequestNames()
    ensures Names(MODEL, MODEL_IS) && Names(MESSAGES, MESSAGES_IS) && Names(PARAMS, PARAMS_IS) && Names(TOOLS, TOOLS_IS)
  {
    hide Names;
    OneName(MODEL, MODEL_IS);
    OneName(MESSAGES, MESSAGES_IS);
    OneName(PARAMS, PARAMS_IS);
    OneName(TOOLS, TOOLS_IS);
  }

  lemma ToolNames()
    ensures Names(NAME, NAME_IS) && Names(DESCRIPTION, DESCRIPTION_IS) && Names(INPUT_SCHEMA, INPUT_SCHEMA_IS)
  {
    hide Names;
    OneName(NAME, NAME_IS);
    OneName(DESCRIPTION, DESCRIPTION_IS);
    OneName(INPUT_SCHEMA, INPUT_SCHEMA_IS);
  }

  lemma OtherNames()
    ensures Names(ROLE, ROLE_IS) && Names(CONTENT, CONTENT_IS) && Names(TOOL, TOOL_IS) && Names(ARGS, ARGS_IS)
  {
    hide Names;
    OneName(ROLE, ROLE_IS);
    OneName(CONTENT, CONTENT_IS);
    OneName(TOOL, TOOL_IS);
    OneName(ARGS, ARGS_IS);
  }

  lemma ArrayIs(items: seq<Json>, xs: seq<Text>)
    requires |xs| == |items| && forall i :: 0 <= i < |items| ==> xs[i] == Stringify(items[i])
    ensures Stringify(JArray(items)) == Array(xs)
  {
    ItemsAre(items, xs);
    hide Joined, StringifyItems;
    assert Stringify(JArray(items)) == Lit("[") + (Joined(xs) + Lit("]"));
  }

  // This is how the member is printed.
  predicate Prints(m: Member, x: Text) {
    !m.value.JUndefined? && x == Quote(m.key) + [58] + Stringify(m.value)
  }

  lemma MemberSplit(ms: seq<Member>, x: Text)
    requires ms != [] && Prints(ms[0], x)
    ensures StringifyMembers(ms, true) == x + StringifyMembers(ms[1..], false)
    ensures StringifyMembers(ms, false) == Lit(",") + x + StringifyMembers(ms[1..], false)
  {
    hide Stringify, Quote;
    var r := StringifyMembers(ms[1..], false);
    assert Comma(false) == Lit(",") && Comma(true) == [];
    assert [] + Quote(ms[0].key) == Quote(ms[0].key);
    assert StringifyMembers(ms, false) == Comma(false) + Quote(ms[0].key) + [58] + Stringify(ms[0].value) + r;
  }

  lemma {:induction false} MembersAre(ms: seq<Member>, xs: seq<Text>)
    requires |xs| == |ms| && forall i :: 0 <= i < |ms| ==> Prints(ms[i], xs[i])
    ensures StringifyMembers(ms, true) == Joined(xs) + Lit("}")
    ensures ms != [] ==> StringifyMembers(ms, false) == Lit(",") + Joined(xs) + Lit("}")
  {
    hide Stringify, Prints;
    if ms == [] {
    } else {
      MemberSplit(ms, xs[0]);
      if |ms| == 1 {
        assert StringifyMembers(ms[1..], false) == [125];
      } else {
        MembersAre(ms[1..], xs[1..]);
        JoinedMore(xs);
        hide StringifyMembers, Joined;
        Regroup(xs[0], Lit(","), Joined(xs[1..]), Lit("}"));
      }
    }
  }

  lemma ObjectIs(ms: seq<Member>, xs: seq<Text>)
    requires |xs| == |ms| && forall i :: 0 <= i < |ms| ==> Prints(ms[i], xs[i])
    ensures Stringify(JObject(ms)) == Object(xs)
  {
    MembersAre(ms, xs);
    hide Joined, StringifyMembers;
    assert Stringify(JObject(ms)) == Lit("{") + (Joined(xs) + Lit("}"));
  }

  // Sorted members that are those that count are what canonicalize makes of an object.
  lemma CanonicalIs(ms: seq<Member>, want: seq<Member>)
    requires DistinctKeys(ms) && Ordered(want) && forall m :: m in want <==> CanonicalForm.Kept(m, ms)
    ensures Canonical(JObject(ms)) == JObject(want)
  {
    CanonicalMembersHolds(ms);
    OrderedUnique(CanonicalMembers(ms), want);
  }

  lemma Sooner(a: Text, b: Text, i: nat)
    requires a != [] && b != [] && !IsDigit(a[0]) && !IsDigit(b[0]) && LessAt(a, b, i)
    ensures EnumBefore(a, b)
  {
    FirstDifference(a, b);
  }

  lemma NamesInOrder()
    ensures EnumBefore(CONTENT, ROLE) && EnumBefore(ARGS, TOOL)
    ensures EnumBefore(DESCRIPTION, INPUT_SCHEMA) && EnumBefore(INPUT_SCHEMA, NAME) && EnumBefore(DESCRIPTION, NAME)
    ensures EnumBefore(MESSAGES, MODEL) && EnumBefore(MODEL, PARAMS) && EnumBefore(PARAMS, TOOLS)
  {
    hide EnumBefore;
    Sooner(CONTENT, ROLE, 0);
    Sooner(ARGS, TOOL, 0);
    Sooner(DESCRIPTION, INPUT_SCHEMA, 0);
    Sooner(INPUT_SCHEMA, NAME, 0);
    Sooner(DESCRIPTION, NAME, 0);
    assert MESSAGES[..1] == MODEL[..1];
    Sooner(MESSAGES, MODEL, 1);
    Sooner(MODEL, PARAMS, 0);
    Sooner(PARAMS, TOOLS, 0);
  }

  function CanonicalText(v: Json): Text {
    Stringify(Canonical(v))
  }

  function MessageText(m: Message): Text {
    Object([CONTENT_IS + Quote(m.content), ROLE_IS + Quote(m.role)])
  }

  predicate Stays(m: Member) {
    !m.value.JUndefined? && m.key != PROTO
  }

  function Canonically(m: Member): Member {
    Member(m.key, Canonical(m.value))
  }

  ghost predicate ComesFrom(m: Member, ms: seq<Member>) {
    exists x :: x in ms && Stays(x) && m == Canonically(x)
  }

  lemma Comes(x: Member, ms: seq<Member>)
    requires x in ms && Stays(x)
    ensures ComesFrom(Canonically(x), ms)
  {
  }

  // The members `want` are those of `ms` that stay, in order.
  lemma SortedInto(ms: seq<Member>, want: seq<Member>)
    requires DistinctKeys(ms)
    requires forall i, j :: 0 <= i < j < |want| ==> EnumBefore(want[i].key, want[j].key)
    requires forall x :: x in ms && Stays(x) ==> Canonically(x) in want
    requires forall i :: 0 <= i < |want| ==> ComesFrom(want[i], ms)
    ensures CanonicalText(JObject(ms)) == Stringify(JObject(want))
  {
    hide EnumBefore, Canonical;
    assert forall m :: m in want ==> ComesFrom(m, ms);
    forall m ensures m in want <==> CanonicalForm.Kept(m, ms) {
      if CanonicalForm.Kept(m, ms) {
        var x :| x in ms && Counts(x, false) && m == Canonically(x);
        assert Stays(x);
      }
      if m in want {
        var x :| x in ms && Stays(x) && m == Canonically(x);
        assert Counts(x, false);
      }
    }
    CanonicalIs(ms, want);
  }

  lemma SortedFields(ms: seq<Member>, want: seq<Member>, xs: seq<Text>)
    requires DistinctKeys(ms)
    requires forall i, j :: 0 <= i < j < |want| ==> EnumBefore(want[i].key, want[j].key)
    requires forall x :: x in ms && Stays(x) ==> Canonically(x) in want
    requires forall i :: 0 <= i < |want| ==> ComesFrom(want[i], ms)
    requires |xs| == |want| && forall i :: 0 <= i < |want| ==> Prints(want[i], xs[i])
    ensures CanonicalText(JObject(ms)) == Object(xs)
  {
    SortedInto(ms, want);
    ObjectIs(want, xs);
  }

  lemma FieldPrints(key: Text, prefix: Text, v: Json)
    requires Names(key, prefix) && !v.JUndefined?
    ensures Prints(Member(key, v), prefix + Stringify(v))
  {
    hide Quote, Stringify;
  }

  lemma StringText(s: Text)
    ensures Stringify(JString(s)) == Quote(s)
  {
  }

  lemma FieldIs(key: Text, prefix: Text, v: Json)
    requires Names(key, prefix) && !v.JUndefined?
    ensures Prints(Canonically(Member(key, v)), prefix + CanonicalText(v))
  {
    hide Quote, Stringify;
  }

  // Two members that stay, the other way round.
  lemma TwoFields(a: Member, b: Member, x: Text, y: Text)
    requires Stays(a) && Stays(b) && EnumBefore(b.key, a.key) && Names(a.key, x) && Names(b.key, y)
    ensures CanonicalText(JObject([a, b])) == Object([y + CanonicalText(b.value), x + CanonicalText(a.value)])
  {
    FieldIs(a.key, x, a.value);
    FieldIs(b.key, y, b.value);
    hide EnumBefore, Canonical, Canonically, Prints, Object, CanonicalText, ComesFrom, Names;
    EnumBeforeTotal(a.key, b.key);
    Comes(a, [a, b]);
    Comes(b, [a, b]);
    CanonicalKeys(a);
    CanonicalKeys(b);
    SortedFields([a, b], [Canonically(b), Canonically(a)], [y + CanonicalText(b.value), x + CanonicalText(a.value)]);
  }

  lemma TextOf(v: Json)
    ensures CanonicalText(v) == Stringify(Canonical(v))
    ensures v.JString? ==> CanonicalText(v) == Quote(v.s)
  {
  }

  lemma MessageIs(m: Message)
    ensures CanonicalText(MessageJson(m)) == MessageText(m)
  {
    NamesInOrder();
    KeysDiffer();
    TextOf(JString(m.role));
    TextOf(JString(m.content));
    OtherNames();
    hide EnumBefore, Quote, CanonicalText, Names;
    TwoFields(Member(ROLE, JString(m.role)), Member(CONTENT, JString(m.content)), ROLE_IS, CONTENT_IS);
  }

  // What hashToolCall hashes: absent arguments are null.
  function ToolCallText(tool: Text, args: Json): Text {
    Object([ARGS_IS + (if args.JUndefined? then Lit("null") else CanonicalText(args)), TOOL_IS + Quote(tool)])
  }

  lemma ToolCallIs(tool: Text, args: Json)
    ensures CanonicalToolCall(tool, args) == ToolCallText(tool, args)
  {
    NamesInOrder();
    KeysDiffer();
    TextOf(JString(tool));
    TextOf(ToolCallJson(tool, args));
    NullText();
    OtherNames();
    hide EnumBefore, Quote, CanonicalText, Names;
    TwoFields(Member(TOOL, JString(tool)), Member(ARGS, OrNull(args)), TOOL_IS, ARGS_IS);
  }

  lemma NullText()
    ensures CanonicalText(JNull) == Lit("null")
  {
  }

  // How one tool on offer is printed, without the members it does not have.
  function ToolText(t: ToolDefinition): Text {
    var description := match t.description case Some(d) => [DESCRIPTION_IS + Quote(d)] case None => [];
    var inputSchema := if t.inputSchema.JUndefined? then [] else [INPUT_SCHEMA_IS + CanonicalText(t.inputSchema)];
    Object(description + inputSchema + [NAME_IS + Quote(t.name)])
  }

  // One member that stays and, before it, two that may.
  lemma ThreeFields(a: Member, b: Member, c: Member, x: Text, y: Text, z: Text)
    requires Stays(a) && b.key != PROTO && c.key != PROTO
    requires EnumBefore(b.key, c.key) && EnumBefore(c.key, a.key) && EnumBefore(b.key, a.key)
    requires Prints(Canonically(a), x)
    requires !b.value.JUndefined? ==> Prints(Canonically(b), y)
    requires !c.value.JUndefined? ==> Prints(Canonically(c), z)
    ensures CanonicalText(JObject([a, b, c])) ==
      Object((if b.value.JUndefined? then [] else [y]) + (if c.value.JUndefined? then [] else [z]) + [x])
  {
    hide EnumBefore, Canonical, Canonically, Prints, Object, CanonicalText, ComesFrom;
    var ms := [a, b, c];
    EnumBeforeTotal(a.key, b.key);
    EnumBeforeTotal(a.key, c.key);
    EnumBeforeTotal(b.key, c.key);
    Comes(a, ms);
    if Stays(b) { Comes(b, ms); }
    if Stays(c) { Comes(c, ms); }
    var m, n, k := Canonically(a), Canonically(b), Canonically(c);
    CanonicalKeys(a);
    CanonicalKeys(b);
    CanonicalKeys(c);
    if Stays(b) && Stays(c) {
      SortedFields(ms, [n, k, m], [y, z, x]);
      assert [y] + [z] + [x] == [y, z, x];
    } else if Stays(b) {
      SortedFields(ms, [n, m], [y, x]);
      assert [y] + [] + [x] == [y, x];
    } else if Stays(c) {
      SortedFields(ms, [k, m], [z, x]);
      assert [] + [z] + [x] == [z, x];
    } else {
      SortedFields(ms, [m], [x]);
      assert [] + [] + [x] == [x];
    }
  }

  lemma CanonicalKeys(m: Member)
    ensures Canonically(m).key == m.key
  {
  }

  lemma ToolIs(t: ToolDefinition)
    ensures CanonicalText(ToolJson(t)) == ToolText(t)
  {
    var a, c := Member(NAME, JString(t.name)), Member(INPUT_SCHEMA, t.inputSchema);
    var b := Member(DESCRIPTION, match t.description case Some(d) => JString(d) case None => JUndefined);
    NamesInOrder();
    KeysDiffer();
    ToolNames();
    TextOf(a.value);
    TextOf(b.value);
    hide EnumBefore, Quote, CanonicalText, Canonical, Prints, Canonically, Names, Object;
    FieldIs(NAME, NAME_IS, a.value);
    if !b.value.JUndefined? { FieldIs(DESCRIPTION, DESCRIPTION_IS, b.value); }
    if !c.value.JUndefined? { FieldIs(INPUT_SCHEMA, INPUT_SCHEMA_IS, c.value); }
    ThreeFields(a, b, c, NAME_IS + Quote(t.name),
      if t.description.Some? then DESCRIPTION_IS + Quote(t.description.value) else [],
      INPUT_SCHEMA_IS + CanonicalText(t.inputSchema));
  }

  // What hashLlmRequest hashes: absent params are {}, absent tools [].
  function RequestText(r: LlmRequest): Text {
    var ms := seq(|r.messages|, i requires 0 <= i < |r.messages| => MessageText(r.messages[i]));
    var ts := match r.tools case Some(ts) => seq(|ts|, i requires 0 <= i < |ts| => ToolText(ts[i])) case None => [];
    Object([
      MESSAGES_IS + Array(ms),
      MODEL_IS + Quote(r.model),
      PARAMS_IS + (if r.params.JUndefined? || r.params.JNull? then Lit("{}") else CanonicalText(r.params)),
      TOOLS_IS + Array(ts)])
  }

  lemma FourFields(a: Member, b: Member, c: Member, d: Member, xs: seq<Text>)
    requires Stays(a) && Stays(b) && Stays(c) && Stays(d) && |xs| == 4
    requires EnumBefore(b.key, a.key) && EnumBefore(a.key, c.key) && EnumBefore(c.key, d.key)
    requires Prints(Canonically(b), xs[0]) && Prints(Canonically(a), xs[1])
    requires Prints(Canonically(c), xs[2]) && Prints(Canonically(d), xs[3])
    ensures CanonicalText(JObject([a, b, c, d])) == Object(xs)
  {
    hide EnumBefore, Canonical, Canonically, Prints, Object, CanonicalText, ComesFrom;
    var ms := [a, b, c, d];
    EnumBeforeTransitive(b.key, a.key, c.key);
    EnumBeforeTransitive(b.key, c.key, d.key);
    EnumBeforeTransitive(a.key, c.key, d.key);
    forall k, l: Text { EnumBeforeTotal(k, l); }
    Comes(a, ms);
    Comes(b, ms);
    Comes(c, ms);
    Comes(d, ms);
    forall m { CanonicalKeys(m); }
    SortedFields(ms, [Canonically(b), Canonically(a), Canonically(c), Canonically(d)], xs);
  }

  lemma CanonicalArray(items: seq<Json>, xs: seq<Text>)
    requires |xs| == |items|
    requires forall i :: 0 <= i < |items| ==> !items[i].JUndefined? && xs[i] == CanonicalText(items[i])
    ensures CanonicalText(JArray(items)) == Array(xs)
  {
    hide Stringify, Array;
    ArrayIs(Canonical(JArray(items)).items, xs);
  }

  lemma MessagesAre(ms: seq<Message>, xs: seq<Text>)
    requires |xs| == |ms| && forall i :: 0 <= i < |ms| ==> xs[i] == MessageText(ms[i])
    ensures CanonicalText(MessagesJson(ms)) == Array(xs)
  {
    hide CanonicalText, MessageText, Array;
    forall i | 0 <= i < |ms| ensures xs[i] == CanonicalText(MessageJson(ms[i])) { MessageIs(ms[i]); }
    CanonicalArray(MessagesJson(ms).items, xs);
  }

  lemma ToolsAre(ts: seq<ToolDefinition>, xs: seq<Text>)
    requires |xs| == |ts| && forall i :: 0 <= i < |ts| ==> xs[i] == ToolText(ts[i])
    ensures CanonicalText(ToolsJson(ts)) == Array(xs)
  {
    hide CanonicalText, ToolText, Array;
    forall i | 0 <= i < |ts| ensures xs[i] == CanonicalText(ToolJson(ts[i])) { ToolIs(ts[i]); }
    CanonicalArray(ToolsJson(ts).items, xs);
  }

  lemma EmptyObject()
    ensures CanonicalText(JObject([])) == Lit("{}")
  {
  }

  lemma RequestIs(r: LlmRequest)
    ensures CanonicalLlmRequest(r) == RequestText(r)
  {
    var ms := seq(|r.messages|, i requires 0 <= i < |r.messages| => MessageText(r.messages[i]));
    var ts := match r.tools case Some(ts) => seq(|ts|, i requires 0 <= i < |ts| => ToolText(ts[i])) case None => [];
    EmptyObject();
    TextOf(NormalizedJson(r));
    hide EnumBefore, Quote, CanonicalText, Canonical, Prints, Names, Object, Array, MessageText, ToolText, Stringify;
    MessagesAre(r.messages, ms);
    ToolsAre(ToolsOf(r), ts);
    RequestFields(r, ms, ts);
  }

  lemma RequestFields(r: LlmRequest, ms: seq<Text>, ts: seq<Text>)
    requires CanonicalText(MessagesJson(r.messages)) == Array(ms) && CanonicalText(ToolsJson(ToolsOf(r))) == Array(ts)
    ensures CanonicalText(NormalizedJson(r)) ==
      Object([
        MESSAGES_IS + Array(ms), MODEL_IS + Quote(r.model), PARAMS_IS + CanonicalText(OrEmpty(r.params)),
        TOOLS_IS + Array(ts)])
  {
    hide EnumBefore, Quote, CanonicalText, Canonical, Prints, Canonically, Names, Object, Array;
    var a, b := Member(MODEL, JString(r.model)), Member(MESSAGES, MessagesJson(r.messages));
    var c, d := Member(PARAMS, OrEmpty(r.params)), Member(TOOLS, ToolsJson(ToolsOf(r)));
    NamesInOrder();
    KeysDiffer();
    RequestNames();
    TextOf(a.value);
    FieldIs(MODEL, MODEL_IS, a.value);
    FieldIs(MESSAGES, MESSAGES_IS, b.value);
    FieldIs(PARAMS, PARAMS_IS, c.value);
    FieldIs(TOOLS, TOOLS_IS, d.value);
    FourFields(a, b, c, d, [
      MESSAGES_IS + Array(ms), MODEL_IS + Quote(r.model), PARAMS_IS + CanonicalText(c.value), TOOLS_IS + Array(ts)]);
  }

  // ---------------------------------------------------------------- what is measured

  const ID_IS := Lit("\"id\":")
  const ARGUMENTS_IS := Lit("\"arguments\":")

  // A tool call of a response, as its size is taken.
  function CallText(c: LlmToolCall): Text {
    var arguments := if c.arguments.JUndefined? then [] else [ARGUMENTS_IS + Stringify(c.arguments)];
    Object([ID_IS + Quote(c.id), NAME_IS + Quote(c.name)] + arguments)
  }

  const ID := Lit("id")
  const ARGUMENTS := Lit("arguments")

  lemma CallNames()
    ensures Names(ID, ID_IS) && Names(NAME, NAME_IS) && Names(ARGUMENTS, ARGUMENTS_IS)
  {
    hide Names;
    OneName(ID, ID_IS);
    OneName(NAME, NAME_IS);
    OneName(ARGUMENTS, ARGUMENTS_IS);
  }

  lemma LastSkipped(a: Member, b: Member, c: Member)
    requires !a.value.JUndefined? && !b.value.JUndefined? && c.value.JUndefined?
    ensures Stringify(JObject([a, b, c])) == Stringify(JObject([a, b]))
  {
    hide Quote;
    assert [a, b, c][1..] == [b, c] && [b, c][1..] == [c] && [c][1..] == [] && [a, b][1..] == [b] && [b][1..] == [];
    assert StringifyMembers([c], false) == StringifyMembers([], false);
    assert StringifyMembers([b, c], false) == StringifyMembers([b], false);
  }

  lemma CallFields(id: Text, name: Text, arguments: Json)
    ensures Stringify(JObject([Member(ID, JString(id)), Member(NAME, JString(name)), Member(ARGUMENTS, arguments)])) ==
      CallText(LlmToolCall(id, name, arguments))
  {
    var x, y, z := Member(ID, JString(id)), Member(NAME, JString(name)), Member(ARGUMENTS, arguments);
    hide Quote, Stringify, Object, Names, Prints;
    CallNames();
    StringText(id);
    StringText(name);
    FieldPrints(ID, ID_IS, x.value);
    FieldPrints(NAME, NAME_IS, y.value);
    if !arguments.JUndefined? { FieldPrints(ARGUMENTS, ARGUMENTS_IS, arguments); }
    if arguments.JUndefined? {
      LastSkipped(x, y, z);
      ObjectIs([x, y], [ID_IS + Quote(id), NAME_IS + Quote(name)]);
      assert [ID_IS + Quote(id), NAME_IS + Quote(name)] + [] == [ID_IS + Quote(id), NAME_IS + Quote(name)];
    } else {
      var last := ARGUMENTS_IS + Stringify(arguments);
      ObjectIs([x, y, z], [ID_IS + Quote(id), NAME_IS + Quote(name), last]);
      assert [ID_IS + Quote(id), NAME_IS + Quote(name)] + [last] == [ID_IS + Quote(id), NAME_IS + Quote(name), last];
    }
  }

  lemma CallSizeIs(c: LlmToolCall)
    ensures CallSize(c) == ByteLength(CallText(c))
  {
    hide Stringify, CallText, ByteLength;
    assert Lit("id") == ID && Lit("name") == NAME && Lit("arguments") == ARGUMENTS;
    CallFields(c.id, c.name, c.arguments);
  }
}
