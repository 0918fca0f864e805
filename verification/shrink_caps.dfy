/** packages/worker-sdk/src/llmConfig.ts: exactly which stored prompts stay within the size cap. */
module ShrinkCaps {
  import opened Wrappers
  import opened Texts
  import opened Json
  import opened CanonicalForm
  import opened Requests
  import opened Utf8
  import opened SizeCaps
  import opened StoredRequests
  import opened Events

  // ---------------------------------------------------------------- what escaping adds

  // The bytes JSON prints beyond a character's own: short escapes add one, \u00xx five, \udxxx three.
  function UnitSurplus(u: CodeUnit): nat {
    if u == 34 || u == 92 || u == 8 || u == 9 || u == 10 || u == 12 || u == 13 then 1
    else if u < 32 then 5
    else if HighSurrogate(u) || LowSurrogate(u) then 3
    else 0
  }

  // A surrogate pair is printed as it is.
  function Surplus(s: Text): nat {
    if s == [] then 0
    else (if CharLength(s) == 1 then UnitSurplus(s[0]) else 0) + Surplus(s[CharLength(s)..])
  }

  lemma OneCharBytes(c: Text)
    requires IsChar(c)
    ensures ByteLength(EscapeChar(c)) == |EncodeChar(c)| + if |c| == 1 then UnitSurplus(c[0]) else 0
  {
    var e := EscapeChar(c);
    if e == c {
      assert CharLength(e) == |e| && e[..|e|] == e && e[|e|..] == [];
      assert Encode(e) == EncodeChar(e) + Encode([]);
    } else {
      AsciiBytes(e);
    }
  }

  lemma {:induction false} EscapedIs(s: Text)
    ensures EscapedBytes(s) == ByteLength(s) + Surplus(s)
  {
    if s != [] {
      var n := CharLength(s);
      OneCharBytes(s[..n]);
      hide EscapeChar, EncodeChar, UnitSurplus;
      EscapeStart(s[n..]);
      EncodeConcat(EscapeChar(s[..n]), Escape(s[n..]));
      EscapedIs(s[n..]);
    }
  }

  // Bytes and surplus of all contents together.
  function Bytes(ms: seq<Message>): nat {
    if ms == [] then 0 else ByteLength(ms[0].content) + Bytes(ms[1..])
  }

  function Surpluses(ms: seq<Message>): nat {
    if ms == [] then 0 else Surplus(ms[0].content) + Surpluses(ms[1..])
  }

  lemma {:induction false} ContentIs(ms: seq<Message>)
    ensures ContentBytes(ms) == Bytes(ms) + Surpluses(ms)
  {
    if ms != [] {
      EscapedIs(ms[0].content);
      ContentIs(ms[1..]);
    }
  }

  // ---------------------------------------------------------------- shrinkRequest

  // What each message may take.
  function PerMessage(r: LlmRequest, maxBytes: int): int
    requires !FallsBack(r, maxBytes)
  {
    (maxBytes - Overhead(r)) / |r.messages|
  }

  // The escapes of the contents kept fit into the room that those contents leave.
  predicate EscapesFit(r: LlmRequest, maxBytes: int)
    requires !FallsBack(r, maxBytes)
  {
    var kept := CutMessages(r.messages, PerMessage(r, maxBytes));
    Surpluses(kept) <= maxBytes - Overhead(r) - Bytes(kept)
  }

  const EMPTY_REQUEST_BYTES := 26

  // The fallback is {"model":"...","messages":[]}.
  lemma FallbackBytes(model: Text)
    ensures RequestBytes(LlmRequest(model, [], JUndefined, None)) ==
      EMPTY_REQUEST_BYTES + ByteLength(model) + Surplus(model)
  {
    var a, b := Member(MODEL, JString(model)), Member(MESSAGES, JArray([]));
    var c, d := Member(PARAMS, JUndefined), Member(TOOLS, JUndefined);
    assert MessagesJson([]).items == [];
    assert RequestJson(LlmRequest(model, [], JUndefined, None)) == JObject([a, b, c, d]);
    StringBytes(model);
    hide ByteLength, Quote, Stringify, RequestJson, Surplus;
    TwoMembers(a, b, c, d);
    KeyBytes();
  }

  lemma StringBytes(s: Text)
    ensures ByteLength(Stringify(JString(s))) == 2 + ByteLength(s) + Surplus(s)
  {
    assert Stringify(JString(s)) == Quote(s);
    QuoteBytes(s);
    EscapedIs(s);
  }

  lemma TwoMembers(a: Member, b: Member, c: Member, d: Member)
    requires !a.value.JUndefined? && !b.value.JUndefined? && c.value.JUndefined? && d.value.JUndefined?
    ensures ByteLength(Stringify(JObject([a, b, c, d]))) ==
      4 + ByteLength(Quote(a.key)) + ByteLength(Stringify(a.value)) + 1 + ByteLength(Quote(b.key)) +
        ByteLength(Stringify(b.value))
  {
    hide ByteLength, Stringify, Quote;
    assert [a, b, c, d][1..] == [b, c, d] && [b, c, d][1..] == [c, d];
    ObjectBytes([a, b, c, d]);
    MemberBytes([a, b, c, d], true);
    MemberBytes([b, c, d], false);
    NothingPrinted(c, d);
    Commas();
  }

  lemma NothingPrinted(a: Member, b: Member)
    requires a.value.JUndefined? && b.value.JUndefined?
    ensures ByteLength(StringifyMembers([a, b], false)) == 1
  {
    assert [a, b][1..] == [b] && [b][1..] == [];
    assert StringifyMembers([a, b], false) == StringifyMembers([], false) == [125];
    AsciiBytes([125]);
  }

  lemma Commas()
    ensures ByteLength(Comma(true)) == 0 && ByteLength(Comma(false)) == 1
  {
    AsciiBytes([44]);
  }

  lemma KeyBytes()
    ensures ByteLength(Quote(MODEL)) == 7 && ByteLength(Quote(MESSAGES)) == 10 && ByteLength(Stringify(JArray([]))) == 2
  {
    hide Quote, Escape, ByteLength;
    QuoteBytes(MODEL);
    QuoteBytes(MESSAGES);
    PlainAscii(MODEL);
    PlainAscii(MESSAGES);
    EmptyArrayBytes();
  }

  lemma EmptyArrayBytes()
    ensures ByteLength(Stringify(JArray([]))) == 2
  {
    assert Stringify(JArray([])) == [91, 93];
    hide Stringify;
    AsciiBytes([91, 93]);
  }

  lemma {:induction false} PlainAscii(s: Text)
    requires forall i :: 0 <= i < |s| ==> 93 <= s[i] < 128
    ensures EscapedBytes(s) == |s|
  {
    AsciiBytes(s);
    EscapedIs(s);
    NoSurplus(s);
  }

  lemma {:induction false} NoSurplus(s: Text)
    requires forall i :: 0 <= i < |s| ==> 93 <= s[i] < 128
    ensures Surplus(s) == 0
  {
    if s != [] { NoSurplus(s[1..]); }
  }

  // A shrunken prompt is within the cap exactly when the escapes of what it keeps fit in as well; the
  // fallback exactly when the model's name does.
  lemma ShrinkFitsIff(r: LlmRequest, maxBytes: int)
    ensures RequestBytes(ShrinkRequest(r, maxBytes)) <= maxBytes <==>
      if FallsBack(r, maxBytes) then EMPTY_REQUEST_BYTES + ByteLength(r.model) + Surplus(r.model) <= maxBytes
      else EscapesFit(r, maxBytes)
  {
    hide RequestBytes, Overhead, ByteLength, Surplus, Bytes, Surpluses, ContentBytes, CutMessages;
    if FallsBack(r, maxBytes) {
      FallbackBytes(r.model);
    } else {
      ShrinkParts(r, maxBytes);
      ContentIs(CutMessages(r.messages, PerMessage(r, maxBytes)));
    }
  }

  // ---------------------------------------------------------------- how far over

  lemma {:induction false} EscapedAtMost(s: Text)
    ensures EscapedBytes(s) <= 6 * ByteLength(s)
  {
    if s != [] {
      var n := CharLength(s);
      EscapeCharBytes(s[..n]);
      EscapeStart(s[n..]);
      EncodeConcat(EscapeChar(s[..n]), Escape(s[n..]));
      EscapedAtMost(s[n..]);
    }
  }

  lemma OneMore(n: nat, per: nat)
    ensures (n + 1) * per == n * per + per
  {
  }

  // The share of each message bounds what all of them take.
  lemma {:induction false} CutContentBytes(ms: seq<Message>, per: nat)
    ensures ContentBytes(CutMessages(ms, per)) <= 6 * (|ms| * per)
  {
    if ms != [] {
      var c := CutMessages(ms, per);
      assert c[1..] == CutMessages(ms[1..], per);
      CutContentBytes(ms[1..], per);
      TruncatedIsLongest(ms[0].content, per);
      EscapedAtMost(Truncated(ms[0].content, per).text);
      OneMore(|ms| - 1, per);
    }
  }

  lemma Share(n: nat, room: nat)
    requires n > 0
    ensures n * (room / n) <= room
  {
  }

  // Off the fallback the contents never take more than six times their share.
  lemma ShrinkBounded(r: LlmRequest, maxBytes: int)
    requires !FallsBack(r, maxBytes)
    ensures RequestBytes(ShrinkRequest(r, maxBytes)) <= Overhead(r) + 6 * (maxBytes - Overhead(r))
  {
    hide RequestBytes, Overhead, ByteLength, ContentBytes, CutMessages;
    ShrinkParts(r, maxBytes);
    CutContentBytes(r.messages, (maxBytes - Overhead(r)) / |r.messages|);
    Share(|r.messages|, maxBytes - Overhead(r));
  }

  // ---------------------------------------------------------------- the stored copy

  // The copy that goes into the log is within the configured size exactly when it did not have to be
  // shrunk, or shrinking made it fit.
  lemma StoredFitsIff(r: LlmRequest, config: LlmStepConfig)
    ensures config.storePrompts <==> BuildStoredRequest(r, config).request.Some?
    ensures config.storePrompts ==>
      var stored, redacted, max := BuildStoredRequest(r, config), MapRequest(r, config.redact), config.maxStoredBytes;
      && (stored.storage == TruncatedCopy <==> RequestBytes(redacted) > max)
      && (RequestBytes(stored.request.value) <= max <==>
           if RequestBytes(redacted) <= max then true
           else if FallsBack(redacted, max) then
             EMPTY_REQUEST_BYTES + ByteLength(redacted.model) + Surplus(redacted.model) <= max
           else EscapesFit(redacted, max))
  {
    hide MapRequest, CanonicalJson, RequestJson, ShrinkRequest;
    ShrinkFitsIff(MapRequest(r, config.redact), config.maxStoredBytes);
  }
}
