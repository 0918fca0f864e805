/**
 packages/core/src/llm.ts: canonical JSON, the text a request hash is computed over.

 A value's meaning forgets key order, drops undefined members and reads undefined items as
 null. Assigning out["__proto__"] sets a prototype instead of a property, so canonicalize
 loses every member of that name; `proto` says whether a meaning counts those members.
 */
module CanonicalForm {
  import opened Wrappers
  import opened Texts
  import opened Json

  const PROTO: Text := Lit("__proto__")

  datatype Meaning =
    | MUndefined
    | MNull
    | MBool(b: bool)
    | MNumber(n: int)
    | MString(s: Text)
    | MArray(items: seq<Meaning>)
    | MObject(members: map<Text, Meaning>)

  function MeaningOf(v: Json, proto: bool): Meaning {
    match v
    case JUndefined => MUndefined
    case JNull => MNull
    case JBool(b) => MBool(b)
    case JNumber(n) => MNumber(n)
    case JString(s) => MString(s)
    case JArray(items) =>
      MArray(seq(|items|, i requires 0 <= i < |items| =>
        if items[i].JUndefined? then MNull else MeaningOf(items[i], proto)))
    case JObject(ms) => MObject(MembersMeaning(ms, proto))
  }

  predicate Counts(m: Member, proto: bool) {
    !m.value.JUndefined? && (proto || m.key != PROTO)
  }

  function MembersMeaning(ms: seq<Member>, proto: bool): map<Text, Meaning> {
    if ms == [] then map[]
    else
      var rest := MembersMeaning(ms[1..], proto);
      if Counts(ms[0], proto) then rest[ms[0].key := MeaningOf(ms[0].value, proto)] else rest
  }

  // ---------------------------------------------------------------- property order

  // JavaScript's default sort order: by UTF-16 code units.
  predicate UnitsBefore(a: Text, b: Text) {
    if b == [] then false
    else if a == [] then true
    else if a[0] == b[0] then UnitsBefore(a[1..], b[1..])
    else a[0] < b[0]
  }

  predicate AllDigits(k: Text) {
    forall i :: 0 <= i < |k| ==> IsDigit(k[i])
  }

  // An array index key: a numeral without leading zeros below 2^32 - 1.
  predicate IsIndex(k: Text) {
    k != [] && AllDigits(k) && (|k| > 1 ==> k[0] != 48) && NumeralValue(k) < 0xFFFF_FFFF
  }

  // Own properties enumerate index keys first, in ascending order, then the others as inserted.
  // Among numerals without leading zeros a shorter one is smaller.
  predicate EnumBefore(a: Text, b: Text) {
    if IsIndex(a) && IsIndex(b) then
      (if |a| != |b| then |a| < |b| else UnitsBefore(a, b))
    else if IsIndex(a) != IsIndex(b) then IsIndex(a)
    else UnitsBefore(a, b)
  }

  lemma UnitsBeforeTotal(a: Text, b: Text)
    ensures UnitsBefore(a, b) || a == b || UnitsBefore(b, a)
    ensures !(UnitsBefore(a, b) && UnitsBefore(b, a))
    ensures !UnitsBefore(a, a)
  {
    if a != [] && b != [] && a[0] == b[0] {
      UnitsBeforeTotal(a[1..], b[1..]);
      assert a == [a[0]] + a[1..] && b == [b[0]] + b[1..];
    }
  }

  lemma UnitsBeforeTransitive(a: Text, b: Text, c: Text)
    requires UnitsBefore(a, b) && UnitsBefore(b, c)
    ensures UnitsBefore(a, c)
  {
    if a != [] && a[0] == b[0] && b[0] == c[0] {
      UnitsBeforeTransitive(a[1..], b[1..], c[1..]);
    }
  }

  lemma EnumBeforeTotal(a: Text, b: Text)
    ensures EnumBefore(a, b) || a == b || EnumBefore(b, a)
    ensures !(EnumBefore(a, b) && EnumBefore(b, a))
    ensures !EnumBefore(a, a)
  {
    UnitsBeforeTotal(a, b);
    UnitsBeforeTotal(a, a);
  }

  lemma EnumBeforeTransitive(a: Text, b: Text, c: Text)
    requires EnumBefore(a, b) && EnumBefore(b, c)
    ensures EnumBefore(a, c)
  {
    if UnitsBefore(a, b) && UnitsBefore(b, c) { UnitsBeforeTransitive(a, b, c); }
  }

  ghost predicate Ordered(ms: seq<Member>) {
    forall i, j :: 0 <= i < j < |ms| ==> EnumBefore(ms[i].key, ms[j].key)
  }

  // An ordered member list is determined by the members it holds.
  lemma {:induction false} OrderedUnique(xs: seq<Member>, ys: seq<Member>)
    requires Ordered(xs) && Ordered(ys)
    requires forall m :: m in xs <==> m in ys
    ensures xs == ys
  {
    assert xs != [] ==> xs[0] in ys;
    assert ys != [] ==> ys[0] in xs;
    if xs != [] {
      var x, y := xs[0], ys[0];
      assert x in ys && y in xs;
      EnumBeforeTotal(x.key, y.key);
      assert x == y;
      forall m ensures m in xs[1..] <==> m in ys[1..] {
        EnumBeforeTotal(m.key, m.key);
        if m in xs[1..] { assert m in xs && m != x; }
        if m in ys[1..] { assert m in ys && m != y; }
      }
      OrderedUnique(xs[1..], ys[1..]);
      assert xs == [x] + xs[1..] && ys == [y] + ys[1..];
    }
  }

  // ---------------------------------------------------------------- canonicalize

  function Insert(m: Member, ms: seq<Member>): seq<Member> {
    if ms == [] || EnumBefore(m.key, ms[0].key) then [m] + ms
    else [ms[0]] + Insert(m, ms[1..])
  }

  lemma {:induction false} InsertOrdered(m: Member, ms: seq<Member>)
    requires Ordered(ms)
    requires forall x :: x in ms ==> x.key != m.key
    ensures Ordered(Insert(m, ms))
    ensures forall x :: x in Insert(m, ms) <==> x == m || x in ms
  {
    if ms == [] {
    } else if EnumBefore(m.key, ms[0].key) {
      forall j | 0 < j < |ms| ensures EnumBefore(m.key, ms[j].key) {
        EnumBeforeTransitive(m.key, ms[0].key, ms[j].key);
      }
    } else {
      InsertOrdered(m, ms[1..]);
      assert ms == [ms[0]] + ms[1..];
      assert ms[0] in ms;
      EnumBeforeTotal(m.key, ms[0].key);
      var r := Insert(m, ms[1..]);
      forall j | 0 <= j < |r| ensures EnumBefore(ms[0].key, r[j].key) {
        assert r[j] in r;
      }
    }
  }

  function Canonical(v: Json): Json {
    match v
    case JArray(items) =>
      JArray(seq(|items|, i requires 0 <= i < |items| =>
        if items[i].JUndefined? then JNull else Canonical(items[i])))
    case JObject(ms) => JObject(CanonicalMembers(ms))
    case _ => v
  }

  function CanonicalMembers(ms: seq<Member>): seq<Member> {
    if ms == [] then []
    else
      var rest := CanonicalMembers(ms[1..]);
      if Counts(ms[0], false) then Insert(Member(ms[0].key, Canonical(ms[0].value)), rest) else rest
  }

  ghost predicate Kept(m: Member, ms: seq<Member>) {
    exists x :: x in ms && Counts(x, false) && m == Member(x.key, Canonical(x.value))
  }

  lemma {:induction false} CanonicalMembersHolds(ms: seq<Member>)
    requires DistinctKeys(ms)
    ensures Ordered(CanonicalMembers(ms))
    ensures forall m :: m in CanonicalMembers(ms) <==> Kept(m, ms)
  {
    if ms != [] {
      CanonicalMembersHolds(ms[1..]);
      var rest := CanonicalMembers(ms[1..]);
      assert ms == [ms[0]] + ms[1..];
      var h := Member(ms[0].key, Canonical(ms[0].value));
      if Counts(ms[0], false) {
        forall x | x in rest ensures x.key != h.key {
          assert Kept(x, ms[1..]);
        }
        InsertOrdered(h, rest);
      }
      forall m ensures m in CanonicalMembers(ms) <==> Kept(m, ms) {
        assert m in rest <==> Kept(m, ms[1..]);
        if Kept(m, ms) {
          var x :| x in ms && Counts(x, false) && m == Member(x.key, Canonical(x.value));
          assert x == ms[0] || x in ms[1..];
        }
      }
    }
  }

  // Canonical forms: plain, members in enumeration order, no __proto__.
  ghost predicate IsCanonical(v: Json) {
    match v
    case JUndefined => false
    case JArray(items) => forall x :: x in items ==> IsCanonical(x)
    case JObject(ms) => Ordered(ms) && forall m :: m in ms ==> m.key != PROTO && IsCanonical(m.value)
    case _ => true
  }

  lemma {:induction false} CanonicalIsCanonical(v: Json)
    requires Proper(v) && !v.JUndefined?
    ensures IsCanonical(Canonical(v))
  {
    match v
    case JArray(items) =>
      forall x | x in Canonical(v).items ensures IsCanonical(x) {
        var i :| 0 <= i < |items| && x == if items[i].JUndefined? then JNull else Canonical(items[i]);
        assert items[i] in items;
        if !items[i].JUndefined? { CanonicalIsCanonical(items[i]); }
      }
    case JObject(ms) =>
      CanonicalMembersHolds(ms);
      forall m | m in CanonicalMembers(ms) ensures m.key != PROTO && IsCanonical(m.value) {
        assert Kept(m, ms);
        var x :| x in ms && Counts(x, false) && m == Member(x.key, Canonical(x.value));
        CanonicalIsCanonical(x.value);
      }
    case _ =>
  }

  lemma {:induction false} IsCanonicalPlain(v: Json)
    requires IsCanonical(v)
    ensures Plain(v)
  {
    match v
    case JArray(items) =>
      forall x | x in items ensures Plain(x) { IsCanonicalPlain(x); }
    case JObject(ms) =>
      forall m | m in ms ensures Plain(m.value) { IsCanonicalPlain(m.value); }
    case _ =>
  }

  ghost predicate Names(ms: seq<Member>, k: Text, proto: bool) {
    exists m :: m in ms && m.key == k && Counts(m, proto)
  }

  lemma {:induction false} MembersMeaningKeys(ms: seq<Member>, k: Text, proto: bool)
    ensures k in MembersMeaning(ms, proto) <==> Names(ms, k, proto)
  {
    if ms != [] {
      MembersMeaningKeys(ms[1..], k, proto);
      assert ms == [ms[0]] + ms[1..];
      if Names(ms[1..], k, proto) {
        var m :| m in ms[1..] && m.key == k && Counts(m, proto);
        assert m in ms;
      }
    }
  }

  lemma {:induction false} MembersMeaningAt(ms: seq<Member>, m: Member, proto: bool)
    requires DistinctKeys(ms) && m in ms && Counts(m, proto)
    ensures m.key in MembersMeaning(ms, proto)
    ensures MembersMeaning(ms, proto)[m.key] == MeaningOf(m.value, proto)
  {
    if m != ms[0] {
      var i :| 0 < i < |ms| && ms[i] == m;
      assert ms[1..][i - 1] == m;
      assert ms[0].key != ms[i].key;
      MembersMeaningAt(ms[1..], m, proto);
    }
  }

  // The meaning of an object holds exactly the members that count.
  lemma MembersMeaningHolds(ms: seq<Member>, proto: bool)
    requires DistinctKeys(ms)
    ensures forall k :: k in MembersMeaning(ms, proto) <==> Names(ms, k, proto)
    ensures forall m :: m in ms && Counts(m, proto) ==>
      m.key in MembersMeaning(ms, proto) && MembersMeaning(ms, proto)[m.key] == MeaningOf(m.value, proto)
  {
    forall k { MembersMeaningKeys(ms, k, proto); }
    forall m | m in ms && Counts(m, proto) { MembersMeaningAt(ms, m, proto); }
  }

  // Canonical forms with the same meaning are the same.
  lemma {:induction false} CanonicalUnique(c: Json, d: Json, proto: bool)
    requires IsCanonical(c) && IsCanonical(d)
    requires MeaningOf(c, proto) == MeaningOf(d, proto)
    ensures c == d
    decreases c
  {
    match c
    case JArray(xs) =>
      var ys := d.items;
      assert |xs| == |MeaningOf(c, proto).items| == |MeaningOf(d, proto).items| == |ys|;
      forall i | 0 <= i < |xs| ensures xs[i] == ys[i] {
        assert MeaningOf(c, proto).items[i] == MeaningOf(d, proto).items[i];
        assert xs[i] in xs && ys[i] in ys;
        CanonicalUnique(xs[i], ys[i], proto);
      }
    case JObject(xs) =>
      var ys := d.members;
      OrderedDistinct(xs);
      OrderedDistinct(ys);
      forall m ensures m in xs <==> m in ys {
        if m in xs {
          CanonicalMember(xs, ys, m, proto);
          var n := MemberAt(ys, m.key, proto);
          CanonicalUnique(m.value, n.value, proto);
        }
        if m in ys {
          CanonicalMember(ys, xs, m, proto);
          var n := MemberAt(xs, m.key, proto);
          CanonicalUnique(n.value, m.value, proto);
        }
      }
      OrderedUnique(xs, ys);
    case _ =>
  }

  lemma OrderedDistinct(ms: seq<Member>)
    requires Ordered(ms)
    ensures DistinctKeys(ms)
  {
    forall i, j | 0 <= i < j < |ms| ensures ms[i].key != ms[j].key {
      EnumBeforeTotal(ms[i].key, ms[j].key);
    }
  }

  ghost function MemberAt(ms: seq<Member>, k: Text, proto: bool): Member
    requires Names(ms, k, proto)
  {
    var m :| m in ms && m.key == k && Counts(m, proto);
    m
  }

  lemma CanonicalMember(xs: seq<Member>, ys: seq<Member>, m: Member, proto: bool)
    requires IsCanonical(JObject(xs)) && DistinctKeys(xs) && DistinctKeys(ys)
    requires MembersMeaning(xs, proto) == MembersMeaning(ys, proto)
    requires m in xs
    ensures Names(ys, m.key, proto)
    ensures MeaningOf(MemberAt(ys, m.key, proto).value, proto) == MeaningOf(m.value, proto)
  {
    assert IsCanonical(m.value) && Counts(m, proto);
    MembersMeaningHolds(xs, proto);
    MembersMeaningHolds(ys, proto);
    assert m.key in MembersMeaning(ys, proto);
  }

  // canonicalize keeps the meaning, members named __proto__ aside.
  lemma {:induction false} CanonicalMeaning(v: Json)
    requires Proper(v)
    ensures MeaningOf(Canonical(v), false) == MeaningOf(v, false)
    ensures MeaningOf(Canonical(v), true) == MeaningOf(v, false)
  {
    match v
    case JArray(items) =>
      forall i | 0 <= i < |items|
        ensures MeaningOf(Canonical(items[i]), false) == MeaningOf(items[i], false)
        ensures MeaningOf(Canonical(items[i]), true) == MeaningOf(items[i], false)
        ensures Canonical(items[i]).JUndefined? ==> items[i].JUndefined?
      {
        assert items[i] in items;
        CanonicalMeaning(items[i]);
      }
    case JObject(ms) =>
      CanonicalMembersMeaning(ms, false);
      CanonicalMembersMeaning(ms, true);
    case _ =>
  }

  lemma CanonicalMembersMeaning(ms: seq<Member>, proto: bool)
    requires Proper(JObject(ms))
    ensures MembersMeaning(CanonicalMembers(ms), proto) == MembersMeaning(ms, false)
    decreases ms, 0
  {
    var cs := CanonicalMembers(ms);
    CanonicalMembersHolds(ms);
    OrderedDistinct(cs);
    MembersMeaningHolds(cs, proto);
    MembersMeaningHolds(ms, false);
    var a, b := MembersMeaning(cs, proto), MembersMeaning(ms, false);
    forall x | x in ms && Counts(x, false)
      ensures x.key in a && x.key in b && a[x.key] == b[x.key]
    {
      CanonicalMeaning(x.value);
      var m := Member(x.key, Canonical(x.value));
      assert Kept(m, ms);
      assert Counts(m, proto);
    }
    forall k | k in a ensures k in b {
      var m :| m in cs && m.key == k && Counts(m, proto);
      assert Kept(m, ms);
    }
  }

  // ---------------------------------------------------------------- canonicalJson

  // JSON.stringify(undefined) is not a text.
  function CanonicalJson(v: Json): Option<Text> {
    if v.JUndefined? then None else Some(Stringify(Canonical(v)))
  }

  // Two canonical texts are equal exactly when the values mean the same, __proto__ aside.
  lemma CanonicalJsonDecides(v: Json, w: Json)
    requires Proper(v) && Proper(w)
    ensures CanonicalJson(v) == CanonicalJson(w) <==> MeaningOf(v, false) == MeaningOf(w, false)
  {
    CanonicalMeaning(v);
    CanonicalMeaning(w);
    if !v.JUndefined? && !w.JUndefined? {
      var c, d := Canonical(v), Canonical(w);
      CanonicalIsCanonical(v);
      CanonicalIsCanonical(w);
      if Stringify(c) == Stringify(d) {
        IsCanonicalPlain(c);
        IsCanonicalPlain(d);
        assert Stringify(c) + [] == Stringify(c) && Stringify(d) + [] == Stringify(d);
        StringifyDecode(c, d, [], []);
      }
      if MeaningOf(v, false) == MeaningOf(w, false) {
        CanonicalUnique(c, d, false);
      }
    }
  }

  // A member named __proto__ that holds something, at any depth that counts.
  ghost predicate HasProto(v: Json) {
    match v
    case JArray(items) => exists x :: x in items && HasProto(x)
    case JObject(ms) => exists m :: m in ms && !m.value.JUndefined? && (m.key == PROTO || HasProto(m.value))
    case _ => false
  }

  // A value's canonical text stands for the value itself exactly when no __proto__ member is lost.
  lemma {:induction false} MeaningKeptIff(v: Json)
    requires Proper(v)
    ensures MeaningOf(Canonical(v), true) == MeaningOf(v, true) <==> !HasProto(v)
  {
    CanonicalMeaning(v);
    match v
    case JArray(items) =>
      var a, b := MeaningOf(v, true).items, MeaningOf(v, false).items;
      forall i | 0 <= i < |items| ensures a[i] == b[i] <==> !HasProto(items[i]) {
        assert items[i] in items;
        MeaningKeptIff(items[i]);
        CanonicalMeaning(items[i]);
      }
      if HasProto(v) {
        var i :| 0 <= i < |items| && HasProto(items[i]);
        assert a[i] != b[i];
      }
    case JObject(ms) =>
      MembersKeptIff(ms);
    case _ =>
  }

  lemma MembersKeptIff(ms: seq<Member>)
    requires Proper(JObject(ms))
    ensures MembersMeaning(ms, true) == MembersMeaning(ms, false) <==> !HasProto(JObject(ms))
    decreases ms, 0
  {
    var a, b := MembersMeaning(ms, true), MembersMeaning(ms, false);
    MembersMeaningHolds(ms, true);
    MembersMeaningHolds(ms, false);
    forall m | m in ms && !m.value.JUndefined?
      ensures MeaningOf(m.value, true) == MeaningOf(m.value, false) <==> !HasProto(m.value)
    {
      MeaningKeptIff(m.value);
      CanonicalMeaning(m.value);
    }
    if HasProto(JObject(ms)) {
      var m :| m in ms && !m.value.JUndefined? && (m.key == PROTO || HasProto(m.value));
      assert Counts(m, true);
      assert m.key in a;
      if m.key == PROTO {
        assert m.key !in b;
      } else {
        assert Counts(m, false);
        assert a[m.key] != b[m.key];
      }
    } else {
      forall k ensures k in a <==> k in b {
        if k in a { var m :| m in ms && m.key == k && Counts(m, true); assert Counts(m, false); }
        if k in b { var m :| m in ms && m.key == k && Counts(m, false); assert Counts(m, true); }
      }
      forall k | k in a ensures a[k] == b[k] {
        var m :| m in ms && m.key == k && Counts(m, true);
        assert Counts(m, false);
      }
    }
  }

  // Without such members canonical texts decide equality of meaning outright.
  lemma CanonicalJsonDecidesAll(v: Json, w: Json)
    requires Proper(v) && Proper(w) && !HasProto(v) && !HasProto(w)
    ensures CanonicalJson(v) == CanonicalJson(w) <==> MeaningOf(v, true) == MeaningOf(w, true)
  {
    CanonicalJsonDecides(v, w);
    MeaningKeptIff(v);
    MeaningKeptIff(w);
    CanonicalMeaning(v);
    CanonicalMeaning(w);
  }

  // {"__proto__": 1} and {} hash alike although they mean different things.
  lemma ProtoCollision()
    ensures var v, w := JObject([Member(PROTO, JNumber(1))]), JObject([]);
      && Proper(v) && Proper(w)
      && CanonicalJson(v) == CanonicalJson(w)
      && MeaningOf(v, true) != MeaningOf(w, true)
  {
    var ms := [Member(PROTO, JNumber(1))];
    assert CanonicalMembers(ms) == CanonicalMembers(ms[1..]) == [];
    assert PROTO in MembersMeaning(ms, true);
  }

  // ---------------------------------------------------------------- the loop form

  function InsertKey(k: Text, ks: seq<Text>): seq<Text> {
    if ks == [] then [k]
    else if UnitsBefore(ks[0], k) then [ks[0]] + InsertKey(k, ks[1..])
    else [k] + ks
  }

  // Object.keys(source).sort()
  function SortedKeys(ms: seq<Member>): seq<Text> {
    if ms == [] then [] else InsertKey(ms[0].key, SortedKeys(ms[1..]))
  }

  ghost predicate KeysSorted(ks: seq<Text>) {
    forall i, j :: 0 <= i < j < |ks| ==> UnitsBefore(ks[i], ks[j])
  }

  lemma {:induction false} InsertKeySorted(k: Text, ks: seq<Text>)
    requires KeysSorted(ks) && k !in ks
    ensures KeysSorted(InsertKey(k, ks))
    ensures forall x :: x in InsertKey(k, ks) <==> x == k || x in ks
  {
    if ks != [] {
      UnitsBeforeTotal(ks[0], k);
      assert ks[0] in ks;
      if UnitsBefore(ks[0], k) {
        InsertKeySorted(k, ks[1..]);
        var r := InsertKey(k, ks[1..]);
        forall j | 0 <= j < |r| ensures UnitsBefore(ks[0], r[j]) {
          assert r[j] in r;
        }
        assert ks == [ks[0]] + ks[1..];
      } else {
        forall j | 0 < j < |ks| ensures UnitsBefore(k, ks[j]) {
          UnitsBeforeTransitive(k, ks[0], ks[j]);
        }
      }
    }
  }

  lemma {:induction false} SortedKeysHolds(ms: seq<Member>)
    requires DistinctKeys(ms)
    ensures KeysSorted(SortedKeys(ms))
    ensures forall k :: k in SortedKeys(ms) <==> exists m :: m in ms && m.key == k
  {
    if ms != [] {
      SortedKeysHolds(ms[1..]);
      assert ms == [ms[0]] + ms[1..];
      assert forall m :: m in ms[1..] ==> m.key != ms[0].key;
      InsertKeySorted(ms[0].key, SortedKeys(ms[1..]));
    }
  }

  // source[key]
  function Lookup(ms: seq<Member>, k: Text): Json {
    if ms == [] then JUndefined else if ms[0].key == k then ms[0].value else Lookup(ms[1..], k)
  }

  lemma {:induction false} LookupFinds(ms: seq<Member>, m: Member)
    requires DistinctKeys(ms) && m in ms
    ensures Lookup(ms, m.key) == m.value
  {
    if ms[0] != m {
      var i :| 0 < i < |ms| && ms[i] == m;
      assert ms[0].key != ms[i].key && ms[1..][i - 1] == m;
      LookupFinds(ms[1..], m);
    }
  }

  // Defining a property that is not there yet: index keys take their numeric place, others go last.
  function Define(out: seq<Member>, m: Member): seq<Member> {
    if out == [] then [m]
    else if IsIndex(m.key) && EnumBefore(m.key, out[0].key) then [m] + out
    else [out[0]] + Define(out[1..], m)
  }

  // out[key] = value: the accessor named __proto__ takes the value and defines nothing.
  function SetProperty(out: seq<Member>, m: Member): seq<Member> {
    if m.key == PROTO then out else Define(out, m)
  }

  lemma {:induction false} DefineHolds(out: seq<Member>, m: Member)
    requires Ordered(out)
    requires forall x :: x in out ==> x.key != m.key
    requires !IsIndex(m.key) ==> forall x :: x in out && !IsIndex(x.key) ==> UnitsBefore(x.key, m.key)
    ensures Ordered(Define(out, m))
    ensures forall x :: x in Define(out, m) <==> x == m || x in out
  {
    if out != [] {
      assert out == [out[0]] + out[1..] && out[0] in out;
      EnumBeforeTotal(m.key, out[0].key);
      if IsIndex(m.key) && EnumBefore(m.key, out[0].key) {
        forall j | 0 < j < |out| ensures EnumBefore(m.key, out[j].key) {
          EnumBeforeTransitive(m.key, out[0].key, out[j].key);
        }
      } else {
        DefineHolds(out[1..], m);
        var r := Define(out[1..], m);
        forall j | 0 <= j < |r| ensures EnumBefore(out[0].key, r[j].key) {
          assert r[j] in r;
        }
      }
    }
  }

  // What the loop over the sorted keys has defined after the keys in `done`.
  ghost predicate DefinedUpTo(out: seq<Member>, ms: seq<Member>, done: seq<Text>) {
    Ordered(out) && forall m :: m in out <==> m.key in done && Kept(m, ms)
  }

  lemma StepDefines(out: seq<Member>, ms: seq<Member>, ks: seq<Text>, i: nat)
    requires DistinctKeys(ms) && ks == SortedKeys(ms) && i < |ks|
    requires DefinedUpTo(out, ms, ks[..i])
    ensures var x := Member(ks[i], Lookup(ms, ks[i]));
      && x in ms
      && DefinedUpTo(
           if x.value.JUndefined? then out else SetProperty(out, Member(x.key, Canonical(x.value))), ms, ks[..i + 1])
  {
    SortedKeysHolds(ms);
    assert ks[i] in ks;
    var x :| x in ms && x.key == ks[i];
    LookupFinds(ms, x);
    assert ks[..i + 1] == ks[..i] + [ks[i]];
    var m := Member(x.key, Canonical(x.value));
    forall y: Member ensures y.key == x.key && Kept(y, ms) <==> y == m && Counts(x, false) {
      if y.key == x.key && Kept(y, ms) {
        var z :| z in ms && Counts(z, false) && y == Member(z.key, Canonical(z.value));
        LookupFinds(ms, z);
      }
    }
    if Counts(x, false) {
      forall y | y in out ensures y.key != m.key && UnitsBefore(y.key, m.key) {
        var j :| 0 <= j < i && ks[j] == y.key;
        UnitsBeforeTotal(y.key, y.key);
      }
      DefineHolds(out, m);
    }
  }

  // canonicalize, as the loop it is.
  method Canonicalize(v: Json) returns (c: Json)
    requires Proper(v)
    ensures c == Canonical(v)
    decreases v
  {
    match v
    case JArray(items) =>
      var out: seq<Json> := [];
      for i := 0 to |items|
        invariant |out| == i
        invariant forall j :: 0 <= j < i ==> out[j] == if items[j].JUndefined? then JNull else Canonical(items[j])
      {
        assert items[i] in items;
        var item := JNull;
        if !items[i].JUndefined? {
          item := Canonicalize(items[i]);
        }
        out := out + [item];
      }
      c := JArray(out);
    case JObject(ms) =>
      var keys := SortedKeys(ms);
      var out: seq<Member> := [];
      for i := 0 to |keys|
        invariant DefinedUpTo(out, ms, keys[..i])
      {
        StepDefines(out, ms, keys, i);
        var item := Lookup(ms, keys[i]);
        if !item.JUndefined? {
          assert Member(keys[i], item) in ms;
          var value := Canonicalize(item);
          out := SetProperty(out, Member(keys[i], value));
        }
      }
      SortedKeysHolds(ms);
      CanonicalMembersHolds(ms);
      assert keys[..|keys|] == keys;
      OrderedUnique(out, CanonicalMembers(ms));
      c := JObject(out);
    case _ =>
      c := v;
  }
}
