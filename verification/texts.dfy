/**
 JavaScript strings: sequences of UTF-16 code units, lone surrogates included.
 Decimal numerals are the only text the engine builds itself (step ids, JSON numbers).
 */
module Texts {
  type CodeUnit = u: int | 0 <= u < 0x1_0000

  type Text = seq<CodeUnit>

  // The text of an ASCII literal.
  function Lit(s: string): (t: Text)
    requires forall i :: 0 <= i < |s| ==> s[i] as int < 128
    ensures |t| == |s|
    ensures forall i :: 0 <= i < |s| ==> t[i] == s[i] as int
  {
    seq(|s|, i requires 0 <= i < |s| => s[i] as int)
  }

  predicate IsDigit(u: CodeUnit) {
    48 <= u <= 57
  }

  function Digits(n: nat): (t: Text)
    ensures t != []
    ensures forall i :: 0 <= i < |t| ==> IsDigit(t[i])
  {
    if n < 10 then [48 + n] else Digits(n / 10) + [48 + n % 10]
  }

  function Decimal(n: int): Text {
    if n < 0 then [45] + Digits(-n) else Digits(n)
  }

  // What a run of digits denotes.
  function NumeralValue(t: Text): nat
    requires forall i :: 0 <= i < |t| ==> IsDigit(t[i])
  {
    if t == [] then 0
    else
      assert IsDigit(t[|t| - 1]);
      NumeralValue(t[..|t| - 1]) * 10 + (t[|t| - 1] as int - 48)
  }

  lemma {:induction false} NumeralValueOfDigits(n: nat)
    ensures NumeralValue(Digits(n)) == n
  {
    if n >= 10 {
      NumeralValueOfDigits(n / 10);
      assert Digits(n)[..|Digits(n)| - 1] == Digits(n / 10);
    } else {
      assert Digits(n)[..0] == [];
    }
  }

  // The rest of a text after a number: empty, or not starting with a digit.
  predicate NoDigitFirst(rest: Text) {
    rest != [] ==> !IsDigit(rest[0])
  }

  // How many digits a text starts with.
  function DigitRun(t: Text): nat {
    if t == [] || !IsDigit(t[0]) then 0 else 1 + DigitRun(t[1..])
  }

  lemma {:induction false} DigitRunOfDigits(t: Text, rest: Text)
    requires forall i :: 0 <= i < |t| ==> IsDigit(t[i])
    requires NoDigitFirst(rest)
    ensures DigitRun(t + rest) == |t|
  {
    if t == [] {
      assert t + rest == rest;
    } else {
      assert (t + rest)[1..] == t[1..] + rest;
      DigitRunOfDigits(t[1..], rest);
    }
  }

  lemma DigitsDecode(m: nat, n: nat, r: Text, s: Text)
    requires NoDigitFirst(r) && NoDigitFirst(s)
    requires Digits(m) + r == Digits(n) + s
    ensures m == n && r == s
  {
    var a, b := Digits(m), Digits(n);
    DigitRunOfDigits(a, r);
    DigitRunOfDigits(b, s);
    assert a == (a + r)[..|a|] && b == (b + s)[..|b|];
    assert r == (a + r)[|a|..] && s == (b + s)[|b|..];
    NumeralValueOfDigits(m);
    NumeralValueOfDigits(n);
  }

  lemma DecimalFirst(n: int, r: Text)
    ensures Decimal(n) != [] && (Decimal(n) + r)[0] == Decimal(n)[0]
    ensures n < 0 <==> Decimal(n)[0] == 45
    ensures n >= 0 ==> IsDigit(Decimal(n)[0])
  {
  }

  // A common prefix can be dropped from both sides.
  lemma SameTail(p: Text, a: Text, b: Text, r: Text, s: Text)
    requires (p + a) + r == (p + b) + s
    ensures a + r == b + s
  {
    assert ((p + a) + r)[|p|..] == a + r;
    assert ((p + b) + s)[|p|..] == b + s;
  }

  lemma DecimalDecode(m: int, n: int, r: Text, s: Text)
    requires NoDigitFirst(r) && NoDigitFirst(s)
    requires Decimal(m) + r == Decimal(n) + s
    ensures m == n && r == s
  {
    DecimalFirst(m, r);
    DecimalFirst(n, s);
    if m < 0 {
      SameTail([45], Digits(-m), Digits(-n), r, s);
      DigitsDecode(-m, -n, r, s);
    } else {
      DigitsDecode(m, n, r, s);
    }
  }

  lemma DecimalInjective(m: int, n: int)
    requires Decimal(m) == Decimal(n)
    ensures m == n
  {
    assert Decimal(m) + [] == Decimal(m) && Decimal(n) + [] == Decimal(n);
    DecimalDecode(m, n, [], []);
  }
}
