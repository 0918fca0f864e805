/** packages/worker-sdk/src/llmConfig.ts: the byte caps on stored text, responses and prompts. */
module SizeCaps {
  import opened Wrappers
  import opened Texts
  import opened Json
  import opened Requests
  import opened Events
  import opened Utf8

  datatype Cut = Cut(text: Text, truncated: bool)

  function Max(a: int, b: int): int { if a < b then b else a }

  // The longest whole-character prefix that fits, lone surrogates replaced once something is cut.
  function Truncated(text: Text, maxBytes: int): Cut {
    if ByteLength(text) <= maxBytes then Cut(text, false)
    else Cut(WellFormed(CharPrefix(text, Fitting(text, Max(0, maxBytes)))), true)
  }

  lemma CutDecodes(text: Text, room: nat)
    ensures Decode(Encode(text)[..Utf8.Cut(text, room)]) == WellFormed(CharPrefix(text, Fitting(text, room)))
  {
    EncodePrefix(text, room);
    DecodeEncode(CharPrefix(text, Fitting(text, room)));
  }

  // The scan back from the budget to the start of a character.
  method CharacterStart(text: Text, buf: seq<Byte>, room: nat) returns (end: nat)
    requires buf == Encode(text) && (room < |buf| || room == 0)
    ensures end == Utf8.Cut(text, room)
  {
    end := room;
    if room < |buf| { CutIsBoundary(text, room); }
    while end > 0 && Continuation(buf[end])
      invariant Utf8.Cut(text, room) <= end <= room
    {
      end := end - 1;
    }
  }

  // truncateUtf8
  method TruncateUtf8(text: Text, maxBytes: int) returns (r: Cut)
    ensures r == Truncated(text, maxBytes)
  {
    var buf := Encode(text);
    if |buf| <= maxBytes {
      return Cut(text, false);
    }
    var end := CharacterStart(text, buf, Max(0, maxBytes));
    CutDecodes(text, Max(0, maxBytes));
    r := Cut(Decode(buf[..end]), true);
  }

  // Nothing is cut that fits; otherwise one more character would not have fitted.
  lemma {:induction false} TruncatedIsLongest(text: Text, maxBytes: nat)
    ensures var r := Truncated(text, maxBytes);
      && ByteLength(r.text) <= maxBytes
      && (r.truncated <==> ByteLength(text) > maxBytes)
      && (!r.truncated ==> r.text == text)
      && (r.truncated ==>
           var k := Fitting(text, maxBytes);
           k < CharCount(text) && r.text == WellFormed(CharPrefix(text, k)) &&
             maxBytes < ByteLength(CharPrefix(text, k + 1)))
  {
    FittingIsLongest(text, maxBytes);
    WellFormedBytes(CharPrefix(text, Fitting(text, maxBytes)));
  }

  // A negative budget leaves nothing, and says so even of an empty text.
  lemma TruncatedToNothing(text: Text, maxBytes: int)
    requires maxBytes < 0
    ensures Truncated(text, maxBytes) == Cut([], true)
  {
    assert Fitting(text, 0) == 0;
  }

  lemma WellFormedHead(s: Text)
    requires s != []
    ensures var w, n := WellFormed(s), CharLength(s);
      w != [] && CharLength(w) == n && w[..n] == WellFormedChar(s[..n]) && w[n..] == WellFormed(s[n..])
  {
    var n := CharLength(s);
    if n == 1 && |s| >= 2 {
      assert s[1..][0] == s[1];
      assert s[1..][..CharLength(s[1..])][0] == s[1];
    }
  }

  // Replacing lone surrogates does not change the bytes.
  lemma {:induction false} WellFormedBytes(s: Text)
    ensures Encode(WellFormed(s)) == Encode(s)
  {
    if s != [] {
      WellFormedHead(s);
      WellFormedBytes(s[CharLength(s)..]);
    }
  }

  // ---------------------------------------------------------------- capResponse

  datatype Capped = Capped(text: Text, toolCalls: seq<LlmToolCall>, truncated: bool)

  function CallSize(c: LlmToolCall): nat {
    ByteLength(Stringify(JObject([
      Member(Lit("id"), JString(c.id)), Member(Lit("name"), JString(c.name)), Member(Lit("arguments"), c.arguments)])))
  }

  function TotalSize(calls: seq<LlmToolCall>): nat {
    if calls == [] then 0 else CallSize(calls[0]) + TotalSize(calls[1..])
  }

  // The calls kept, first come first served.
  function Kept(calls: seq<LlmToolCall>, room: int): seq<LlmToolCall> {
    if calls == [] then []
    else if CallSize(calls[0]) <= room then [calls[0]] + Kept(calls[1..], room - CallSize(calls[0]))
    else Kept(calls[1..], room)
  }

  predicate Subsequence<T(==)>(xs: seq<T>, ys: seq<T>) {
    xs == [] || (ys != [] && if xs[0] == ys[0] then Subsequence(xs[1..], ys[1..]) else Subsequence(xs, ys[1..]))
  }

  // The text comes first; the calls share what it leaves.
  function CappedResponse(text: Text, toolCalls: seq<LlmToolCall>, maxBytes: int): Capped {
    var cut := Truncated(text, maxBytes);
    var kept := Kept(toolCalls, maxBytes - ByteLength(cut.text));
    Capped(cut.text, kept, cut.truncated || |kept| < |toolCalls|)
  }

  method CapResponse(text: Text, toolCalls: seq<LlmToolCall>, maxBytes: int) returns (r: Capped)
    ensures r == CappedResponse(text, toolCalls, maxBytes)
  {
    hide CallSize, Truncated, ByteLength;
    var cut := TruncateUtf8(text, maxBytes);
    var remaining := maxBytes - ByteLength(cut.text);
    var kept: seq<LlmToolCall> := [];
    var truncated := cut.truncated;
    for i := 0 to |toolCalls|
      invariant kept + Kept(toolCalls[i..], remaining) == Kept(toolCalls, maxBytes - ByteLength(cut.text))
      invariant |kept| <= i
      invariant truncated <==> cut.truncated || |kept| < i
    {
      var size := CallSize(toolCalls[i]);
      assert toolCalls[i..][1..] == toolCalls[i + 1..];
      if size <= remaining {
        assert kept + ([toolCalls[i]] + Kept(toolCalls[i + 1..], remaining - size))
            == (kept + [toolCalls[i]]) + Kept(toolCalls[i + 1..], remaining - size);
        kept := kept + [toolCalls[i]];
        remaining := remaining - size;
      } else {
        truncated := true;
      }
    }
    r := Capped(cut.text, kept, truncated);
  }

  lemma {:induction false} KeptHolds(calls: seq<LlmToolCall>, room: nat)
    ensures TotalSize(Kept(calls, room)) <= room
    ensures Subsequence(Kept(calls, room), calls)
    ensures |Kept(calls, room)| == |calls| <==> Kept(calls, room) == calls
    ensures |Kept(calls, room)| <= |calls|
    ensures Kept(calls, room) == calls <==> TotalSize(calls) <= room
  {
    hide CallSize;
    if calls != [] {
      var size := CallSize(calls[0]);
      if size <= room {
        KeptHolds(calls[1..], room - size);
        var k := Kept(calls[1..], room - size);
        assert ([calls[0]] + k)[1..] == k;
        assert calls == [calls[0]] + calls[1..];
      } else {
        KeptHolds(calls[1..], room);
        SubsequenceSkip(Kept(calls[1..], room), calls);
      }
    }
  }

  // Calls are kept one by one: each exactly if it fits into what those kept before it leave.
  lemma {:induction false} KeptSnoc(calls: seq<LlmToolCall>, c: LlmToolCall, room: int)
    ensures var before := Kept(calls, room);
      Kept(calls + [c], room) == if CallSize(c) <= room - TotalSize(before) then before + [c] else before
  {
    hide CallSize;
    if calls == [] {
      assert calls + [c] == [c] && [c][1..] == [];
      assert [] + [c] == [c] + [];
    } else {
      var size := CallSize(calls[0]);
      assert (calls + [c])[1..] == calls[1..] + [c];
      if size <= room {
        var rest := Kept(calls[1..], room - size);
        KeptSnoc(calls[1..], c, room - size);
        assert ([calls[0]] + rest)[1..] == rest;
        assert [calls[0]] + (rest + [c]) == ([calls[0]] + rest) + [c];
      } else {
        KeptSnoc(calls[1..], c, room);
      }
    }
  }

  lemma {:induction false} SubsequenceTail<T>(xs: seq<T>, ys: seq<T>)
    requires xs != [] && Subsequence(xs, ys)
    ensures Subsequence(xs[1..], ys)
    decreases |ys|
  {
    if xs[0] == ys[0] {
      if xs[1..] != [] { SubsequenceSkip(xs[1..], ys); }
    } else {
      SubsequenceTail(xs, ys[1..]);
      SubsequenceSkip(xs[1..], ys);
    }
  }

  lemma {:induction false} SubsequenceSkip<T>(xs: seq<T>, ys: seq<T>)
    requires ys != [] && Subsequence(xs, ys[1..])
    ensures Subsequence(xs, ys)
    decreases |ys|, 0
  {
    if xs != [] && xs[0] == ys[0] { SubsequenceTail(xs, ys[1..]); }
  }

  // For a budget that is not negative the response fits, and `truncated` says exactly that something was cut.
  lemma CapHolds(text: Text, toolCalls: seq<LlmToolCall>, maxBytes: nat)
    ensures var r := CappedResponse(text, toolCalls, maxBytes);
      && ByteLength(r.text) + TotalSize(r.toolCalls) <= maxBytes
      && Subsequence(r.toolCalls, toolCalls)
      && (r.truncated <==> r.text != text || r.toolCalls != toolCalls)
      && (r.truncated <==> ByteLength(text) + TotalSize(toolCalls) > maxBytes)
  {
    TruncatedIsLongest(text, maxBytes);
    hide Truncated, Kept, Subsequence, TotalSize, ByteLength;
    KeptHolds(toolCalls, maxBytes - ByteLength(Truncated(text, maxBytes).text));
  }

  // ---------------------------------------------------------------- shrinkRequest

  function Blanked(ms: seq<Message>): seq<Message> {
    seq(|ms|, i requires 0 <= i < |ms| => Message(ms[i].role, []))
  }

  function CutMessages(ms: seq<Message>, maxBytes: int): seq<Message> {
    seq(|ms|, i requires 0 <= i < |ms| => Message(ms[i].role, Truncated(ms[i].content, maxBytes).text))
  }

  function RequestBytes(r: LlmRequest): nat {
    ByteLength(Stringify(RequestJson(r)))
  }

  // The bytes of a request without its contents.
  function Overhead(r: LlmRequest): nat {
    RequestBytes(r.(messages := Blanked(r.messages)))
  }

  predicate FallsBack(r: LlmRequest, maxBytes: int) {
    Overhead(r) >= maxBytes || r.messages == []
  }

  function ShrinkRequest(r: LlmRequest, maxBytes: int): LlmRequest {
    if FallsBack(r, maxBytes) then LlmRequest(r.model, [], JUndefined, None)
    else r.(messages := CutMessages(r.messages, (maxBytes - Overhead(r)) / |r.messages|))
  }

  // Two texts encode side by side unless a surrogate pair would form between them.
  lemma {:induction false} EncodeConcat(a: Text, b: Text)
    requires b != [] ==> !LowSurrogate(b[0])
    ensures Encode(a + b) == Encode(a) + Encode(b)
  {
    if a == [] {
      assert a + b == b;
    } else {
      var n := CharLength(a);
      assert CharLength(a + b) == n;
      assert (a + b)[..n] == a[..n] && (a + b)[n..] == a[n..] + b;
      EncodeConcat(a[n..], b);
    }
  }

  lemma EscapeStart(s: Text)
    ensures Escape(s) != [] ==> !LowSurrogate(Escape(s)[0])
  {
    if s != [] { UnescapeEscape(s[..CharLength(s)], []); }
  }

  function EscapedBytes(s: Text): nat {
    ByteLength(Escape(s))
  }

  function ContentBytes(ms: seq<Message>): nat {
    if ms == [] then 0 else EscapedBytes(ms[0].content) + ContentBytes(ms[1..])
  }

  // ---- the bytes of a JSON text are the bytes of its parts

  lemma QuoteBytes(s: Text)
    ensures ByteLength(Quote(s)) == 2 + EscapedBytes(s)
  {
    EscapeStart(s);
    assert Quote(s) == [34] + (Escape(s) + [34]);
    QuoteMark();
    hide Escape, Quote, Encode;
    EncodeConcat(Escape(s), [34]);
    EncodeConcat([34], Escape(s) + [34]);
  }

  lemma QuoteMark()
    ensures Encode([34]) == [34]
  {
    assert Encode([34]) == [34] + Encode([]);
  }

  lemma ConcatBytes(a: Text, b: Text)
    requires b != [] ==> b[0] < 128
    ensures ByteLength(a + b) == ByteLength(a) + ByteLength(b)
  {
    EncodeConcat(a, b);
  }

  lemma ValueStart(v: Json, r: Text)
    ensures (Stringify(v) + r)[0] < 128
  {
    FirstUnit(v, r);
  }

  lemma {:induction false} MembersStart(ms: seq<Member>)
    ensures StringifyMembers(ms, false) != [] && StringifyMembers(ms, false)[0] < 128
  {
    if ms != [] { MembersStart(ms[1..]); }
  }

  lemma ItemsStart(items: seq<Json>)
    ensures StringifyItems(items, false) != [] && StringifyItems(items, false)[0] < 128
  {
  }

  lemma FourBytes(a: Text, b: Text, c: Text, d: Text)
    requires b != [] && b[0] < 128 && c != [] && c[0] < 128 && d != [] && d[0] < 128
    ensures ByteLength(a + b + [58] + c + d) == ByteLength(a) + ByteLength(b) + 1 + ByteLength(c) + ByteLength(d)
  {
    ConcatBytes(a, b);
    ConcatBytes(a + b, [58]);
    ConcatBytes(a + b + [58], c);
    ConcatBytes(a + b + [58] + c, d);
    assert Encode([58]) == [58] + Encode([]);
  }

  lemma MemberBytes(ms: seq<Member>, first: bool)
    requires ms != [] && !ms[0].value.JUndefined?
    ensures ByteLength(StringifyMembers(ms, first)) ==
      ByteLength(Comma(first)) + ByteLength(Quote(ms[0].key)) + 1 + ByteLength(Stringify(ms[0].value))
      + ByteLength(StringifyMembers(ms[1..], false))
  {
    MembersStart(ms[1..]);
    ValueStart(ms[0].value, []);
    FirstUnit(ms[0].value, []);
    FourBytes(Comma(first), Quote(ms[0].key), Stringify(ms[0].value), StringifyMembers(ms[1..], false));
  }

  lemma ItemBytes(items: seq<Json>, first: bool)
    requires items != []
    ensures ByteLength(StringifyItems(items, first)) ==
      ByteLength(Comma(first)) + ByteLength(Stringify(items[0])) + ByteLength(StringifyItems(items[1..], false))
  {
    hide ByteLength, Stringify, StringifyItems;
    var v, r := Stringify(items[0]), StringifyItems(items[1..], false);
    ItemsStart(items[1..]);
    ValueStart(items[0], r);
    ItemsSplit(items, first);
    ConcatBytes(v, r);
    ConcatBytes(Comma(first), v + r);
  }

  lemma ItemsSplit(items: seq<Json>, first: bool)
    requires items != []
    ensures StringifyItems(items, first) == Comma(first) + (Stringify(items[0]) + StringifyItems(items[1..], false))
  {
    hide Stringify;
    var v, r := Stringify(items[0]), StringifyItems(items[1..], false);
    assert StringifyItems(items, first) == (Comma(first) + v) + r;
  }

  lemma ObjectBytes(ms: seq<Member>)
    requires ms != [] && !ms[0].value.JUndefined?
    ensures ByteLength(Stringify(JObject(ms))) == 1 + ByteLength(StringifyMembers(ms, true))
  {
    ConcatBytes([123], StringifyMembers(ms, true));
  }

  // Two objects that differ in their second value differ by its bytes.
  lemma SecondValueBytes(a: Member, b: Member, c: Member, rest: seq<Member>)
    requires !a.value.JUndefined? && !b.value.JUndefined? && !c.value.JUndefined? && b.key == c.key
    ensures ByteLength(Stringify(JObject([a, b] + rest))) - ByteLength(Stringify(b.value)) ==
      ByteLength(Stringify(JObject([a, c] + rest))) - ByteLength(Stringify(c.value))
  {
    var xs, ys := [a, b] + rest, [a, c] + rest;
    assert xs[1..] == [b] + rest && ys[1..] == [c] + rest;
    assert ([b] + rest)[1..] == rest && ([c] + rest)[1..] == rest;
    ObjectBytes(xs);
    ObjectBytes(ys);
    MemberBytes(xs, true);
    MemberBytes(ys, true);
    MemberBytes([b] + rest, false);
    MemberBytes([c] + rest, false);
  }

  lemma MessageBytes(m: Message)
    ensures ByteLength(Stringify(MessageJson(m))) ==
      ByteLength(Stringify(MessageJson(Message(m.role, [])))) + EscapedBytes(m.content)
  {
    var a, b, c := Member(ROLE, JString(m.role)), Member(CONTENT, JString(m.content)), Member(CONTENT, JString([]));
    SecondValueBytes(a, b, c, []);
    QuoteBytes(m.content);
    QuoteBytes([]);
    assert [a, b] + [] == MessageJson(m).members && [a, c] + [] == MessageJson(Message(m.role, [])).members;
  }

  lemma {:induction false} MessagesBytes(ms: seq<Message>, first: bool)
    ensures ByteLength(StringifyItems(MessagesJson(ms).items, first)) ==
      ByteLength(StringifyItems(MessagesJson(Blanked(ms)).items, first)) + ContentBytes(ms)
  {
    if ms != [] {
      var xs, ys := MessagesJson(ms).items, MessagesJson(Blanked(ms)).items;
      assert xs[1..] == MessagesJson(ms[1..]).items;
      assert Blanked(ms)[1..] == Blanked(ms[1..]);
      assert ys[1..] == MessagesJson(Blanked(ms[1..])).items;
      ItemBytes(xs, first);
      ItemBytes(ys, first);
      MessageBytes(ms[0]);
      MessagesBytes(ms[1..], false);
    }
  }

  lemma ArrayBytes(items: seq<Json>)
    ensures ByteLength(Stringify(JArray(items))) == 1 + ByteLength(StringifyItems(items, true))
  {
    if items != [] { ValueStart(items[0], StringifyItems(items[1..], false)); }
    ConcatBytes([91], StringifyItems(items, true));
  }

  // Changing only the contents changes only their bytes.
  lemma RequestParts(r: LlmRequest)
    ensures RequestBytes(r) == Overhead(r) + ContentBytes(r.messages)
  {
    var b := r.(messages := Blanked(r.messages));
    var xs, ys := RequestJson(r).members, RequestJson(b).members;
    SecondValueBytes(xs[0], xs[1], ys[1], xs[2..]);
    assert xs == [xs[0], xs[1]] + xs[2..] && ys == [xs[0], ys[1]] + xs[2..];
    MessagesBytes(r.messages, true);
    ArrayBytes(MessagesJson(r.messages).items);
    ArrayBytes(MessagesJson(b.messages).items);
  }

  // ---- how much escaping can add

  lemma EscapeCharBytes(c: Text)
    requires IsChar(c)
    ensures ByteLength(EscapeChar(c)) <= 6 * |EncodeChar(c)|
    ensures EscapeChar(c) == c ==> ByteLength(EscapeChar(c)) == |EncodeChar(c)|
  {
    var e := EscapeChar(c);
    if e == c {
      assert CharLength(e) == |e| && e[..|e|] == e && e[|e|..] == [];
      assert Encode(e) == EncodeChar(e) + Encode([]);
    } else {
      AsciiBytes(e);
    }
  }

  lemma {:induction false} AsciiBytes(s: Text)
    requires forall i :: 0 <= i < |s| ==> s[i] < 128
    ensures ByteLength(s) == |s|
  {
    if s != [] {
      assert CharLength(s) == 1;
      AsciiBytes(s[1..]);
    }
  }

  lemma ShrinkParts(r: LlmRequest, maxBytes: int)
    requires !FallsBack(r, maxBytes)
    ensures RequestBytes(ShrinkRequest(r, maxBytes)) ==
      Overhead(r) + ContentBytes(CutMessages(r.messages, (maxBytes - Overhead(r)) / |r.messages|))
  {
    var s := ShrinkRequest(r, maxBytes);
    assert Blanked(s.messages) == Blanked(r.messages);
    RequestParts(s);
  }

  // The cap is exceeded by prompts full of quotes, which print as two bytes each.
  lemma ShrinkOverflows(role: Text, model: Text, maxBytes: int, n: nat)
    requires var r := LlmRequest(model, [Message(role, seq(n, _ => 34))], JUndefined, None);
      !FallsBack(r, maxBytes) && n >= maxBytes - Overhead(r)
    ensures var r := LlmRequest(model, [Message(role, seq(n, _ => 34))], JUndefined, None);
      RequestBytes(ShrinkRequest(r, maxBytes)) == maxBytes + (maxBytes - Overhead(r)) > maxBytes
  {
    var r := LlmRequest(model, [Message(role, seq(n, _ => 34))], JUndefined, None);
    var room := maxBytes - Overhead(r);
    ShrinkParts(r, maxBytes);
    QuotesCut(n, room);
    assert CutMessages(r.messages, room)[1..] == [];
  }

  lemma {:induction false} QuotesCut(n: nat, room: nat)
    requires n >= room
    ensures EscapedBytes(Truncated(seq(n, _ => 34), room).text) == 2 * room
  {
    var q: Text := seq(n, _ => 34);
    AsciiBytes(q);
    QuotesPrefix(n, room);
    QuotesEscaped(room);
    QuotesWellFormed(room);
    if n == room { assert q == seq(room, _ => 34); }
  }

  lemma {:induction false} QuotesPrefix(n: nat, room: nat)
    requires n >= room
    ensures CharPrefix(seq(n, _ => 34), Fitting(seq(n, _ => 34), room)) == seq(room, _ => 34)
  {
    var q: Text := seq(n, _ => 34);
    if n > 0 {
      assert CharLength(q) == 1 && q[..1] == [34] && q[1..] == seq(n - 1, _ => 34);
      if room > 0 {
        QuotesPrefix(n - 1, room - 1);
      }
    }
  }

  lemma {:induction false} QuotesEscaped(n: nat)
    ensures EscapedBytes(seq(n, _ => 34)) == 2 * n
  {
    var q: Text := seq(n, _ => 34);
    if n > 0 {
      assert CharLength(q) == 1 && q[..1] == [34] && q[1..] == seq(n - 1, _ => 34);
      QuotesEscaped(n - 1);
      EscapeStart(q[1..]);
      EncodeConcat([92, 34], Escape(q[1..]));
      AsciiBytes([92, 34]);
    }
  }

  lemma {:induction false} QuotesWellFormed(n: nat)
    ensures WellFormed(seq(n, _ => 34)) == seq(n, _ => 34)
  {
    var q: Text := seq(n, _ => 34);
    if n > 0 {
      assert CharLength(q) == 1 && q[..1] == [34] && q[1..] == seq(n - 1, _ => 34);
      QuotesWellFormed(n - 1);
      assert q == [34] + q[1..];
    }
  }
}
