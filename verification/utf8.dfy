/** UTF-8 (section 3 of RFC 3629) of JavaScript strings, as Buffer.from and toString do it. */
module Utf8 {
  import opened Texts
  import opened Json

  type Byte = b: int | 0 <= b < 256

  function CodePoint(c: Text): (p: int)
    requires IsChar(c) && |c| == 2
    ensures 0x1_0000 <= p < 0x11_0000
  {
    0x1_0000 + (c[0] as int - 0xD800) * 0x400 + (c[1] as int - 0xDC00)
  }

  // A lone surrogate has no encoding; it is replaced by U+FFFD.
  function EncodeChar(c: Text): (b: seq<Byte>)
    requires IsChar(c)
    ensures 1 <= |b| <= 4
  {
    if |c| == 2 then
      var p := CodePoint(c);
      [240 + p / 0x4_0000, 128 + p / 0x1000 % 64, 128 + p / 64 % 64, 128 + p % 64]
    else
      var u := if HighSurrogate(c[0]) || LowSurrogate(c[0]) then 0xFFFD else c[0];
      if u < 0x80 then [u]
      else if u < 0x800 then [192 + u / 64, 128 + u % 64]
      else [224 + u / 0x1000, 128 + u / 64 % 64, 128 + u % 64]
  }

  function Encode(s: Text): seq<Byte> {
    if s == [] then [] else
      var n := CharLength(s);
      EncodeChar(s[..n]) + Encode(s[n..])
  }

  function ByteLength(s: Text): nat { |Encode(s)| }

  // 0b10xxxxxx
  predicate Continuation(b: Byte) { b / 64 == 2 }

  function DecodeUnit(b: seq<Byte>): (r: (int, Text))
    requires b != []
    ensures 1 <= r.0 <= |b|
  {
    if b[0] < 128 then (1, [b[0] as int])
    else if 192 <= b[0] < 224 && |b| >= 2 && Continuation(b[1]) then
      (2, [(b[0] as int - 192) * 64 + (b[1] as int - 128)])
    else if 224 <= b[0] < 240 && |b| >= 3 && Continuation(b[1]) && Continuation(b[2]) then
      (3, [(b[0] as int - 224) * 0x1000 + (b[1] as int - 128) * 64 + (b[2] as int - 128)])
    else if 240 <= b[0] < 245 && |b| >= 4 && Continuation(b[1]) && Continuation(b[2]) && Continuation(b[3]) then
      var p := (b[0] as int - 240) * 0x4_0000 + (b[1] as int - 128) * 0x1000 + (b[2] as int - 128) * 64 +
        (b[3] as int - 128);
      if 0x1_0000 <= p < 0x11_0000 then
        (4, [0xD800 + (p - 0x1_0000) / 0x400, 0xDC00 + (p - 0x1_0000) % 0x400])
      else (4, [0xFFFD])
    else (1, [0xFFFD])
  }

  // toString('utf8'). Only whole characters are ever decoded here; a malformed byte reads as U+FFFD.
  function Decode(b: seq<Byte>): Text {
    if b == [] then [] else
      var (n, t) := DecodeUnit(b);
      t + Decode(b[n..])
  }

  // The string with every lone surrogate replaced.
  function WellFormedChar(c: Text): Text
    requires IsChar(c)
  {
    if |c| == 1 && (HighSurrogate(c[0]) || LowSurrogate(c[0])) then [0xFFFD] else c
  }

  function WellFormed(s: Text): Text {
    if s == [] then [] else
      var n := CharLength(s);
      WellFormedChar(s[..n]) + WellFormed(s[n..])
  }

  // Shifting by six bits twice and three times.
  lemma SixBitShifts(p: nat)
    ensures p / 0x1000 == p / 64 / 64 && p / 0x4_0000 == p / 64 / 64 / 64
  {
    var a, b, c := p / 64, p / 64 / 64, p / 64 / 64 / 64;
    assert p == 0x1000 * b + (64 * (a % 64) + p % 64);
    assert p == 0x4_0000 * c + (0x1000 * (b % 64) + 64 * (a % 64) + p % 64);
  }

  // A number from its six-bit digits.
  lemma SixBitDigits(p: nat)
    ensures p == p / 0x4_0000 * 0x4_0000 + p / 0x1000 % 64 * 0x1000 + p / 64 % 64 * 64 + p % 64
  {
    SixBitShifts(p);
    var a, b, c := p / 64, p / 64 / 64, p / 64 / 64 / 64;
    assert p == 64 * a + p % 64 && a == 64 * b + a % 64 && b == 64 * c + b % 64;
  }

  lemma PairUnits(c: Text)
    requires IsChar(c) && |c| == 2
    ensures var p := CodePoint(c); c == [0xD800 + (p - 0x1_0000) / 0x400, 0xDC00 + (p - 0x1_0000) % 0x400]
  {
    var hi, lo := c[0] as int - 0xD800, c[1] as int - 0xDC00;
    assert (CodePoint(c) - 0x1_0000) / 0x400 == hi && (CodePoint(c) - 0x1_0000) % 0x400 == lo;
  }

  lemma DecodePair(c: Text, rest: seq<Byte>)
    requires IsChar(c) && |c| == 2
    ensures DecodeUnit(EncodeChar(c) + rest) == (4, c)
  {
    var p := CodePoint(c);
    var b := EncodeChar(c) + rest;
    SixBitDigits(p);
    PairUnits(c);
    hide CodePoint;
    var x, y, z, w := p / 0x4_0000, p / 0x1000 % 64, p / 64 % 64, p % 64;
    assert b[0] == 240 + x && b[1] == 128 + y && b[2] == 128 + z && b[3] == 128 + w;
  }

  lemma DecodeSingle(c: Text, rest: seq<Byte>)
    requires |c| == 1
    ensures DecodeUnit(EncodeChar(c) + rest) == (|EncodeChar(c)|, WellFormedChar(c))
  {
    var u := if HighSurrogate(c[0]) || LowSurrogate(c[0]) then 0xFFFD else c[0];
    assert c == [c[0]];
    hide DecodeUnit;
    if u < 0x80 {
      DecodeOne(u, rest);
    } else if u < 0x800 {
      DecodeTwo(u, rest);
    } else {
      DecodeThree(u, rest);
    }
  }

  lemma DecodeOne(u: nat, rest: seq<Byte>)
    requires u < 0x80
    ensures DecodeUnit([u] + rest) == (1, [u])
  {
  }

  lemma DecodeTwo(u: nat, rest: seq<Byte>)
    requires 0x80 <= u < 0x800
    ensures DecodeUnit([192 + u / 64, 128 + u % 64] + rest) == (2, [u])
  {
    var b := [192 + u / 64, 128 + u % 64] + rest;
    assert b[0] == 192 + u / 64 && b[1] == 128 + u % 64;
  }

  lemma DecodeThree(u: nat, rest: seq<Byte>)
    requires 0x800 <= u < 0x1_0000
    ensures DecodeUnit([224 + u / 0x1000, 128 + u / 64 % 64, 128 + u % 64] + rest) == (3, [u])
  {
    var b := [224 + u / 0x1000, 128 + u / 64 % 64, 128 + u % 64] + rest;
    var x, y, z := u / 0x1000, u / 64 % 64, u % 64;
    assert u / 64 == x * 64 + y;
    assert b[0] == 224 + x && b[1] == 128 + y && b[2] == 128 + z;
  }

  // Decoding gives the string back, lone surrogates replaced.
  lemma {:induction false} DecodeEncode(s: Text)
    ensures Decode(Encode(s)) == WellFormed(s)
  {
    if s != [] {
      var n := CharLength(s);
      var c, rest := s[..n], Encode(s[n..]);
      if n == 2 { DecodePair(c, rest); } else { DecodeSingle(c, rest); }
      assert (EncodeChar(c) + rest)[|EncodeChar(c)|..] == rest;
      DecodeEncode(s[n..]);
    }
  }

  // ---------------------------------------------------------------- characters that fit

  // The first k characters.
  function CharPrefix(s: Text, k: nat): Text {
    if k == 0 || s == [] then [] else
      var n := CharLength(s);
      s[..n] + CharPrefix(s[n..], k - 1)
  }

  function CharCount(s: Text): nat {
    if s == [] then 0 else 1 + CharCount(s[CharLength(s)..])
  }

  // How many leading characters fit into `room` bytes.
  function Fitting(s: Text, room: nat): nat {
    if s == [] then 0 else
      var n := CharLength(s);
      var size := |EncodeChar(s[..n])|;
      if size > room then 0 else 1 + Fitting(s[n..], room - size)
  }

  // The bytes those take.
  function Cut(s: Text, room: nat): (n: nat)
    ensures n <= room && n <= |Encode(s)|
  {
    if s == [] then 0 else
      var n := CharLength(s);
      var size := |EncodeChar(s[..n])|;
      if size > room then 0 else size + Cut(s[n..], room - size)
  }

  lemma PrefixCharLength(s: Text, k: nat)
    requires s != [] && k > 0
    ensures CharPrefix(s, k) != [] && CharLength(CharPrefix(s, k)) == CharLength(s)
    ensures CharPrefix(s, k)[..CharLength(s)] == s[..CharLength(s)]
    ensures CharPrefix(s, k)[CharLength(s)..] == CharPrefix(s[CharLength(s)..], k - 1)
  {
    var n := CharLength(s);
    var p := CharPrefix(s[n..], k - 1);
    if n == 1 && |s| >= 2 && p != [] {
      assert p[0] == s[1];
    }
  }

  lemma JoinPrefix(a: seq<Byte>, b: seq<Byte>, k: nat)
    requires k <= |b|
    ensures a + b[..k] == (a + b)[..|a| + k]
  {
  }

  lemma EncodeHead(s: Text, k: nat)
    requires s != [] && k > 0
    ensures Encode(CharPrefix(s, k)) == EncodeChar(s[..CharLength(s)]) + Encode(CharPrefix(s[CharLength(s)..], k - 1))
  {
    PrefixCharLength(s, k);
    hide EncodeChar, CharPrefix, CharLength;
  }

  // The first character either fits, with what fits after it, or nothing does.
  lemma FittingStep(s: Text, room: nat)
    requires s != []
    ensures var n := CharLength(s);
      var size := |EncodeChar(s[..n])|;
      && Fitting(s, room) == (if size > room then 0 else 1 + Fitting(s[n..], room - size))
      && Cut(s, room) == (if size > room then 0 else size + Cut(s[n..], room - size))
      && Encode(s) == EncodeChar(s[..n]) + Encode(s[n..])
  {
    hide EncodeChar, CharLength;
  }

  lemma NothingFits(s: Text)
    ensures Encode(CharPrefix(s, 0)) == []
  {
  }

  lemma {:induction false} EncodePrefix(s: Text, room: nat)
    ensures Encode(CharPrefix(s, Fitting(s, room))) == Encode(s)[..Cut(s, room)]
  {
    if s != [] {
      var n := CharLength(s);
      var size := |EncodeChar(s[..n])|;
      if size <= room { EncodePrefix(s[n..], room - size); }
      PrefixStep(s, room);
    }
  }

  // One character more.
  lemma PrefixStep(s: Text, room: nat)
    requires s != []
    requires var n := CharLength(s);
      var size := |EncodeChar(s[..n])|;
      size <= room ==>
        Encode(CharPrefix(s[n..], Fitting(s[n..], room - size))) == Encode(s[n..])[..Cut(s[n..], room - size)]
    ensures Encode(CharPrefix(s, Fitting(s, room))) == Encode(s)[..Cut(s, room)]
  {
    var n := CharLength(s);
    var head, rest := EncodeChar(s[..n]), Encode(s[n..]);
    hide EncodeChar, CharLength, CharPrefix, Encode, Fitting, Cut;
    FittingStep(s, room);
    var e, full, cut := Encode(CharPrefix(s, Fitting(s, room))), Encode(s), Cut(s, room);
    if |head| <= room {
      var k, part := Cut(s[n..], room - |head|), Encode(CharPrefix(s[n..], Fitting(s[n..], room - |head|)));
      EncodeHead(s, Fitting(s, room));
      assert e == head + part && full == head + rest && cut == |head| + k && k <= |rest|;
      JoinPrefix(head, rest, k);
    } else {
      NothingFits(s);
      assert e == [] && cut == 0;
    }
  }

  // No more characters fit.
  lemma {:induction false} FittingIsLongest(s: Text, room: nat)
    ensures ByteLength(CharPrefix(s, Fitting(s, room))) <= room
    ensures Fitting(s, room) < CharCount(s) ==> room < ByteLength(CharPrefix(s, Fitting(s, room) + 1))
    ensures Fitting(s, room) <= CharCount(s)
    ensures Fitting(s, room) == CharCount(s) <==> ByteLength(s) <= room
  {
    EncodePrefix(s, room);
    if s != [] {
      var n := CharLength(s);
      var size := |EncodeChar(s[..n])|;
      PrefixCharLength(s, Fitting(s, room) + 1);
      if size <= room {
        FittingIsLongest(s[n..], room - size);
      }
    }
  }

  // Continuation bytes are exactly those inside a character.
  lemma EncodeCharBytes(c: Text)
    requires IsChar(c)
    ensures !Continuation(EncodeChar(c)[0])
    ensures forall j :: 0 < j < |EncodeChar(c)| ==> Continuation(EncodeChar(c)[j])
  {
  }

  // The first byte at or before `room` that starts a character.
  ghost predicate Boundary(b: seq<Byte>, at: nat, room: nat) {
    at <= room < |b| && !Continuation(b[at]) && forall j :: at < j <= room ==> Continuation(b[j])
  }

  lemma BoundaryInside(head: seq<Byte>, rest: seq<Byte>, room: nat)
    requires head != [] && !Continuation(head[0]) && (forall j :: 0 < j < |head| ==> Continuation(head[j]))
    requires room < |head|
    ensures Boundary(head + rest, 0, room)
  {
  }

  lemma BoundaryAfter(head: seq<Byte>, rest: seq<Byte>, at: nat, room: nat)
    requires Boundary(rest, at, room)
    ensures Boundary(head + rest, |head| + at, |head| + room)
  {
    var b := head + rest;
    assert forall j :: |head| <= j < |b| ==> b[j] == rest[j - |head|];
  }

  lemma {:induction false} CutIsBoundary(s: Text, room: nat)
    requires room < |Encode(s)|
    ensures Boundary(Encode(s), Cut(s, room), room)
  {
    var n := CharLength(s);
    var head, rest := EncodeChar(s[..n]), Encode(s[n..]);
    EncodeCharBytes(s[..n]);
    assert Encode(s) == head + rest && Cut(s, room) == if |head| > room then 0 else |head| + Cut(s[n..], room - |head|);
    hide EncodeChar, Boundary, CharLength, Encode, Cut, Continuation;
    if |head| <= room {
      CutIsBoundary(s[n..], room - |head|);
      BoundaryAfter(head, rest, Cut(s[n..], room - |head|), room - |head|);
    } else {
      BoundaryInside(head, rest, room);
    }
  }
}
