/**
 JSON values as workflow code holds them, and what JSON.stringify prints for them
 (RFC 8259, sections 4 to 7; numbers are safe integers, there is no toJSON).
 */
module Json {
  import opened Texts

  type SafeInt = n: int | -0x1F_FFFF_FFFF_FFFF <= n <= 0x1F_FFFF_FFFF_FFFF

  datatype Member = Member(key: Text, value: Json)

  // The members of an object are its own properties, in enumeration order.
  datatype Json =
    | JUndefined
    | JNull
    | JBool(b: bool)
    | JNumber(n: SafeInt)
    | JString(s: Text)
    | JArray(items: seq<Json>)
    | JObject(members: seq<Member>)

  ghost predicate DistinctKeys(ms: seq<Member>) {
    forall i, j :: 0 <= i < j < |ms| ==> ms[i].key != ms[j].key
  }

  // A JavaScript object never holds the same key twice.
  ghost predicate Proper(v: Json) {
    match v
    case JArray(items) => forall x :: x in items ==> Proper(x)
    case JObject(ms) => DistinctKeys(ms) && forall m :: m in ms ==> Proper(m.value)
    case _ => true
  }

  // No undefined anywhere inside: JSON text denotes exactly these values.
  ghost predicate Plain(v: Json) {
    match v
    case JUndefined => false
    case JArray(items) => forall x :: x in items ==> Plain(x)
    case JObject(ms) => forall m :: m in ms ==> Plain(m.value)
    case _ => true
  }

  // ---------------------------------------------------------------- strings

  predicate HighSurrogate(u: CodeUnit) { 0xD800 <= u < 0xDC00 }

  predicate LowSurrogate(u: CodeUnit) { 0xDC00 <= u < 0xE000 }

  function HexDigit(d: nat): CodeUnit
    requires d < 16
  {
    if d < 10 then 48 + d else 87 + d
  }

  function HexDigitValue(u: CodeUnit): nat {
    if 48 <= u < 58 then u - 48 else if 97 <= u < 103 then u - 87 else 0
  }

  function Hex4(u: CodeUnit): Text {
    [HexDigit(u / 16 / 16 / 16), HexDigit(u / 16 / 16 % 16), HexDigit(u / 16 % 16), HexDigit(u % 16)]
  }

  // Section 7 of RFC 8259, with the short escapes and lower-case hex JSON.stringify uses.
  function EscapeUnit(u: CodeUnit): Text {
    if u == 34 then [92, 34]
    else if u == 92 then [92, 92]
    else if u == 8 then [92, 98]
    else if u == 12 then [92, 102]
    else if u == 10 then [92, 110]
    else if u == 13 then [92, 114]
    else if u == 9 then [92, 116]
    else if u < 32 || HighSurrogate(u) || LowSurrogate(u) then [92, 117] + Hex4(u)
    else [u]
  }

  // A well-formed surrogate pair is one printed character; any other unit stands alone.
  function CharLength(s: Text): nat
    requires s != []
    ensures 1 <= CharLength(s) <= |s|
  {
    if |s| >= 2 && HighSurrogate(s[0]) && LowSurrogate(s[1]) then 2 else 1
  }

  function EscapeChar(c: Text): Text
    requires c != []
  {
    if |c| == 1 then EscapeUnit(c[0]) else c
  }

  function Escape(s: Text): Text {
    if s == [] then [] else
      var n := CharLength(s);
      EscapeChar(s[..n]) + Escape(s[n..])
  }

  function Quote(s: Text): Text {
    [34] + Escape(s) + [34]
  }

  predicate IsChar(c: Text) {
    |c| == 1 || (|c| == 2 && HighSurrogate(c[0]) && LowSurrogate(c[1]))
  }

  // The length of the printed character a text starts with.
  function PrintedLength(e: Text): nat {
    if e == [] then 0
    else if e[0] == 92 then (if |e| >= 2 && e[1] == 117 then 6 else 2)
    else if HighSurrogate(e[0]) then 2
    else 1
  }

  function Unescape(e: Text): Text {
    if |e| == 2 && e[0] == 92 then
      [match e[1] case 98 => 8 case 102 => 12 case 110 => 10 case 114 => 13 case 116 => 9 case u => u]
    else if |e| == 6 then
      var v := 4096 * HexDigitValue(e[2]) + 256 * HexDigitValue(e[3]) + 16 * HexDigitValue(e[4]) + HexDigitValue(e[5]);
      if v < 0x1_0000 then [v] else []
    else e
  }

  lemma UnescapeHex(u: CodeUnit)
    ensures Unescape([92, 117] + Hex4(u)) == [u]
  {
    var a, b, c, d := u / 16 / 16 / 16, u / 16 / 16 % 16, u / 16 % 16, u % 16;
    assert u == 4096 * a + 256 * b + 16 * c + d;
    var e := [92, 117] + Hex4(u);
    assert HexDigitValue(e[2]) == a && HexDigitValue(e[3]) == b;
    assert HexDigitValue(e[4]) == c && HexDigitValue(e[5]) == d;
  }

  lemma UnescapeEscape(c: Text, rest: Text)
    requires IsChar(c)
    ensures Unescape(EscapeChar(c)) == c
    ensures EscapeChar(c) != [] && EscapeChar(c)[0] != 34
    ensures PrintedLength(EscapeChar(c) + rest) == |EscapeChar(c)|
  {
    if |c| == 1 {
      UnescapeHex(c[0]);
      assert c == [c[0]];
    }
  }

  lemma CharDecode(c: Text, d: Text, r: Text, q: Text)
    requires IsChar(c) && IsChar(d)
    requires EscapeChar(c) + r == EscapeChar(d) + q
    ensures c == d && r == q
  {
    UnescapeEscape(c, r);
    UnescapeEscape(d, q);
    var e, f := EscapeChar(c), EscapeChar(d);
    assert e == (e + r)[..|e|] && f == (f + q)[..|f|];
    assert r == (e + r)[|e|..] && q == (f + q)[|f|..];
  }

  lemma EscapeHead(s: Text, r: Text)
    requires s != []
    ensures IsChar(s[..CharLength(s)])
    ensures (Escape(s) + [34]) + r == EscapeChar(s[..CharLength(s)]) + ((Escape(s[CharLength(s)..]) + [34]) + r)
    ensures ((Escape(s) + [34]) + r)[0] != 34
  {
    var c, rest := s[..CharLength(s)], s[CharLength(s)..];
    UnescapeEscape(c, []);
    assert Escape(s) == EscapeChar(c) + Escape(rest);
    hide Escape, EscapeChar;
    Regroup(EscapeChar(c), Escape(rest), [34], r);
  }

  lemma Regroup(a: Text, b: Text, c: Text, d: Text)
    ensures ((a + b) + c) + d == a + ((b + c) + d)
  {
  }

  lemma {:induction false} EscapeDecode(s: Text, t: Text, r: Text, q: Text)
    requires (Escape(s) + [34]) + r == (Escape(t) + [34]) + q
    ensures s == t && r == q
    decreases |s|
  {
    if s == [] {
      if t != [] { EscapeHead(t, q); }
      assert r == ((Escape(s) + [34]) + r)[1..] && q == ((Escape(t) + [34]) + q)[1..];
    } else {
      EscapeHead(s, r);
      if t != [] {
        EscapeHead(t, q);
        var m, n := CharLength(s), CharLength(t);
        CharDecode(s[..m], t[..n], (Escape(s[m..]) + [34]) + r, (Escape(t[n..]) + [34]) + q);
        EscapeDecode(s[m..], t[n..], r, q);
        assert s == s[..m] + s[m..] && t == t[..n] + t[n..];
      }
    }
  }

  lemma QuoteDecode(s: Text, t: Text, r: Text, q: Text)
    requires Quote(s) + r == Quote(t) + q
    ensures s == t && r == q
  {
    assert Quote(s) + r == [34] + ((Escape(s) + [34]) + r);
    assert Quote(t) + q == [34] + ((Escape(t) + [34]) + q);
    assert (Quote(s) + r)[1..] == (Escape(s) + [34]) + r;
    assert (Quote(t) + q)[1..] == (Escape(t) + [34]) + q;
    EscapeDecode(s, t, r, q);
  }

  // ---------------------------------------------------------------- values

  // JSON.stringify: undefined members are skipped, undefined items print as null.
  function Stringify(v: Json): Text {
    match v
    case JUndefined => Lit("null")
    case JNull => Lit("null")
    case JBool(b) => if b then Lit("true") else Lit("false")
    case JNumber(n) => Decimal(n)
    case JString(s) => Quote(s)
    case JArray(items) => [91] + StringifyItems(items, true)
    case JObject(ms) => [123] + StringifyMembers(ms, true)
  }

  function Comma(first: bool): Text { if first then [] else [44] }

  function StringifyItems(items: seq<Json>, first: bool): Text {
    if items == [] then [93]
    else Comma(first) + Stringify(items[0]) + StringifyItems(items[1..], false)
  }

  function StringifyMembers(ms: seq<Member>, first: bool): Text {
    if ms == [] then [125]
    else if ms[0].value.JUndefined? then StringifyMembers(ms[1..], first)
    else Comma(first) + Quote(ms[0].key) + [58] + Stringify(ms[0].value) + StringifyMembers(ms[1..], false)
  }

  // What may follow a value inside a JSON text.
  predicate Delimited(r: Text) {
    r != [] ==> r[0] == 44 || r[0] == 93 || r[0] == 125
  }

  datatype Kind = KNull | KTrue | KFalse | KNumber | KString | KArray | KObject | KNone

  function KindOf(v: Json): Kind {
    match v
    case JUndefined => KNull
    case JNull => KNull
    case JBool(b) => if b then KTrue else KFalse
    case JNumber(_) => KNumber
    case JString(_) => KString
    case JArray(_) => KArray
    case JObject(_) => KObject
  }

  function KindOfUnit(u: CodeUnit): Kind {
    if u == 110 then KNull else if u == 116 then KTrue else if u == 102 then KFalse
    else if u == 45 || IsDigit(u) then KNumber else if u == 34 then KString
    else if u == 91 then KArray else if u == 123 then KObject else KNone
  }

  lemma FirstUnit(v: Json, r: Text)
    ensures Stringify(v) != [] && KindOfUnit((Stringify(v) + r)[0]) == KindOf(v)
  {
    if v.JNumber? { DecimalFirst(v.n, r); }
  }

  lemma ItemsDelimited(items: seq<Json>, first: bool, r: Text)
    ensures StringifyItems(items, first) + r != []
    ensures (StringifyItems(items, first) + r)[0] == 93 <==> items == []
    ensures !first ==> Delimited(StringifyItems(items, first) + r)
  {
    if items != [] {
      FirstUnit(items[0], []);
    }
  }

  lemma {:induction false} MembersDelimited(ms: seq<Member>, first: bool, r: Text)
    requires forall m :: m in ms ==> Plain(m.value)
    ensures StringifyMembers(ms, first) + r != []
    ensures (StringifyMembers(ms, first) + r)[0] == 125 <==> ms == []
    ensures !first ==> Delimited(StringifyMembers(ms, first) + r)
  {
    if ms != [] {
      assert ms[0] in ms;
    }
  }

  lemma ItemsHead(xs: seq<Json>, first: bool, r: Text)
    requires xs != []
    ensures StringifyItems(xs, first) + r
         == (Comma(first) + Stringify(xs[0])) + (StringifyItems(xs[1..], false) + r)
  {
  }

  lemma MembersHead(xs: seq<Member>, first: bool, r: Text)
    requires xs != [] && !xs[0].value.JUndefined?
    ensures StringifyMembers(xs, first) + r
         == (Comma(first) + Quote(xs[0].key)) +
           ([58] + (Stringify(xs[0].value) + (StringifyMembers(xs[1..], false) + r)))
  {
  }

  // Printed values are self-delimiting: the printer is injective on plain values.
  lemma {:induction false} StringifyDecode(v: Json, w: Json, r: Text, q: Text)
    requires Plain(v) && Plain(w) && Delimited(r) && Delimited(q)
    requires Stringify(v) + r == Stringify(w) + q
    ensures v == w && r == q
    decreases v, 0
  {
    FirstUnit(v, r);
    FirstUnit(w, q);
    match v
    case JNumber(n) =>
      DecimalDecode(n, w.n, r, q);
    case JString(s) =>
      QuoteDecode(s, w.s, r, q);
    case JArray(items) =>
      SameTail([91], StringifyItems(items, true), StringifyItems(w.items, true), r, q);
      ItemsDecode(items, w.items, true, r, q);
    case JObject(ms) =>
      SameTail([123], StringifyMembers(ms, true), StringifyMembers(w.members, true), r, q);
      MembersDecode(ms, w.members, true, r, q);
    case JNull =>
      assert r == (Lit("null") + r)[4..] && q == (Lit("null") + q)[4..];
    case JBool(b) =>
      var p := Stringify(v);
      assert r == (p + r)[|p|..] && q == (p + q)[|p|..];
    case JUndefined =>
  }

  lemma {:induction false} ItemsDecode(xs: seq<Json>, ys: seq<Json>, first: bool, r: Text, q: Text)
    requires forall x :: x in xs ==> Plain(x)
    requires forall y :: y in ys ==> Plain(y)
    requires StringifyItems(xs, first) + r == StringifyItems(ys, first) + q
    ensures xs == ys && r == q
    decreases xs, 1
  {
    ItemsDelimited(xs, first, r);
    ItemsDelimited(ys, first, q);
    if xs == [] {
      assert r == ([93] + r)[1..] && q == ([93] + q)[1..];
    } else {
      var a, b := StringifyItems(xs[1..], false) + r, StringifyItems(ys[1..], false) + q;
      ItemsHead(xs, first, r);
      ItemsHead(ys, first, q);
      SameTail(Comma(first), Stringify(xs[0]), Stringify(ys[0]), a, b);
      ItemsDelimited(xs[1..], false, r);
      ItemsDelimited(ys[1..], false, q);
      StringifyDecode(xs[0], ys[0], a, b);
      ItemsDecode(xs[1..], ys[1..], false, r, q);
      assert xs == [xs[0]] + xs[1..] && ys == [ys[0]] + ys[1..];
    }
  }

  lemma {:induction false} MembersDecode(xs: seq<Member>, ys: seq<Member>, first: bool, r: Text, q: Text)
    requires forall m :: m in xs ==> Plain(m.value)
    requires forall m :: m in ys ==> Plain(m.value)
    requires StringifyMembers(xs, first) + r == StringifyMembers(ys, first) + q
    ensures xs == ys && r == q
    decreases xs, 1
  {
    MembersDelimited(xs, first, r);
    MembersDelimited(ys, first, q);
    if xs == [] {
      assert r == ([125] + r)[1..] && q == ([125] + q)[1..];
    } else {
      var x, y := xs[0], ys[0];
      assert x in xs && y in ys;
      var a, b := StringifyMembers(xs[1..], false) + r, StringifyMembers(ys[1..], false) + q;
      var av, bv := [58] + (Stringify(x.value) + a), [58] + (Stringify(y.value) + b);
      MembersHead(xs, first, r);
      MembersHead(ys, first, q);
      SameTail(Comma(first), Quote(x.key), Quote(y.key), av, bv);
      QuoteDecode(x.key, y.key, av, bv);
      assert av[1..] == Stringify(x.value) + a && bv[1..] == Stringify(y.value) + b;
      MembersDelimited(xs[1..], false, r);
      MembersDelimited(ys[1..], false, q);
      StringifyDecode(x.value, y.value, a, b);
      MembersDecode(xs[1..], ys[1..], false, r, q);
      assert xs == [x] + xs[1..] && ys == [y] + ys[1..];
    }
  }
}
