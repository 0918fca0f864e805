/**
 packages/core/src/llm.ts: the order canonical JSON puts the members of an object in, without the comparison that
 sorts them. Array indices come first, by value (OrdinaryOwnPropertyKeys of ECMA-262); the rest by code units.
 */
module KeyOrder {
  import opened Texts
  import opened Json
  import opened CanonicalForm

  const MAX_INDEX := 0xFFFF_FFFE

  // ---------------------------------------------------------------- numerals

  lemma {:induction false} DigitsLead(n: nat)
    ensures Digits(n)[0] == 48 ==> n == 0
  {
    if n >= 10 { DigitsLead(n / 10); }
  }

  // A numeral without leading zeros is the one of its value.
  lemma {:induction false} DigitsOfValue(k: Text)
    requires k != [] && AllDigits(k) && (|k| > 1 ==> k[0] != 48)
    ensures k == Digits(NumeralValue(k))
    ensures NumeralValue(k) == 0 ==> k[0] == 48
  {
    var n := |k| - 1;
    if n > 0 {
      DigitsOfValue(k[..n]);
      assert k == k[..n] + [k[n]];
    } else {
      assert k[..0] == [];
    }
  }

  // Index keys are the decimal numerals of 0 up to 2^32 - 2.
  lemma IndexKeys(k: Text)
    ensures IsIndex(k) <==> exists n: nat :: n <= MAX_INDEX && k == Decimal(n)
  {
    if IsIndex(k) {
      DigitsOfValue(k);
      assert k == Decimal(NumeralValue(k));
    }
    forall n: nat | n <= MAX_INDEX && k == Decimal(n) ensures IsIndex(k) {
      NumeralValueOfDigits(n);
      DigitsLead(n);
    }
  }

  lemma {:induction false} LongerIsLarger(m: nat, n: nat)
    requires m <= n
    ensures |Digits(m)| <= |Digits(n)|
  {
    if m >= 10 { LongerIsLarger(m / 10, n / 10); }
  }

  lemma {:induction false} UnitsBeforeSnoc(a: Text, b: Text, x: CodeUnit, y: CodeUnit)
    requires |a| == |b|
    ensures UnitsBefore(a + [x], b + [y]) <==> UnitsBefore(a, b) || (a == b && x < y)
  {
    if a == [] {
      assert a + [x] == [x] && b + [y] == [y];
    } else {
      assert (a + [x])[1..] == a[1..] + [x] && (b + [y])[1..] == b[1..] + [y];
      assert a == [a[0]] + a[1..] && b == [b[0]] + b[1..];
      UnitsBeforeSnoc(a[1..], b[1..], x, y);
    }
  }

  lemma {:induction false} EqualLengths(m: nat, n: nat)
    requires |Digits(m)| == |Digits(n)|
    ensures UnitsBefore(Digits(m), Digits(n)) <==> m < n
    decreases m
  {
    if m < 10 {
      assert n < 10;
      assert [48 + m][1..] == [];
    } else {
      EqualLengths(m / 10, n / 10);
      UnitsBeforeSnoc(Digits(m / 10), Digits(n / 10), 48 + m % 10, 48 + n % 10);
      NumeralValueOfDigits(m / 10);
      NumeralValueOfDigits(n / 10);
    }
  }

  // Index keys are enumerated by value.
  lemma IndexOrder(m: nat, n: nat)
    requires m <= MAX_INDEX && n <= MAX_INDEX
    ensures EnumBefore(Decimal(m), Decimal(n)) <==> m < n
  {
    assert IsIndex(Decimal(m)) && IsIndex(Decimal(n)) by {
      IndexKeys(Decimal(m));
      IndexKeys(Decimal(n));
    }
    if |Digits(m)| == |Digits(n)| {
      EqualLengths(m, n);
    } else if m <= n {
      LongerIsLarger(m, n);
    } else {
      LongerIsLarger(n, m);
    }
  }

  // ---------------------------------------------------------------- other keys

  // The texts agree up to here, where the first one ends or has the smaller unit.
  predicate LessAt(a: Text, b: Text, i: nat) {
    i <= |a| && i < |b| && a[..i] == b[..i] && (i == |a| || a[i] < b[i])
  }

  lemma {:induction false} FirstDifference(a: Text, b: Text)
    ensures UnitsBefore(a, b) <==> exists i: nat :: LessAt(a, b, i)
  {
    forall i: nat | 0 < i && LessAt(a, b, i) ensures a[0] == b[0] {
      assert a[0] == a[..i][0] && b[0] == b[..i][0];
    }
    if a == [] || b == [] || a[0] != b[0] {
      if b != [] && (a == [] || a[0] < b[0]) { assert LessAt(a, b, 0); }
    } else {
      FirstDifference(a[1..], b[1..]);
      if i: nat :| LessAt(a[1..], b[1..], i) {
        assert a[..i + 1] == [a[0]] + a[1..][..i] && b[..i + 1] == [b[0]] + b[1..][..i];
        assert LessAt(a, b, i + 1);
      }
      if i: nat :| LessAt(a, b, i) {
        assert i > 0;
        assert a[1..][..i - 1] == a[..i][1..] && b[1..][..i - 1] == b[..i][1..];
        assert LessAt(a[1..], b[1..], i - 1);
      }
    }
  }

  // ---------------------------------------------------------------- the members of canonical JSON

  ghost predicate IsNumeral(k: Text) {
    exists n: nat :: n <= MAX_INDEX && k == Decimal(n)
  }

  ghost predicate SmallerNumeral(a: Text, b: Text) {
    exists m: nat, n: nat :: m < n <= MAX_INDEX && a == Decimal(m) && b == Decimal(n)
  }

  // Of two members the earlier one has the smaller index, or the only one, or neither is one and its key has
  // the smaller unit where they first differ.
  lemma MembersInOrder(ms: seq<Member>, i: nat, j: nat)
    requires DistinctKeys(ms) && i < j < |CanonicalMembers(ms)|
    ensures var a, b := CanonicalMembers(ms)[i].key, CanonicalMembers(ms)[j].key;
      if IsNumeral(a) then !IsNumeral(b) || SmallerNumeral(a, b)
      else !IsNumeral(b) && exists p: nat :: LessAt(a, b, p)
  {
    CanonicalMembersHolds(ms);
    var a, b := CanonicalMembers(ms)[i].key, CanonicalMembers(ms)[j].key;
    assert EnumBefore(a, b);
    IndexKeys(a);
    IndexKeys(b);
    if IsNumeral(a) && IsNumeral(b) {
      var m: nat :| m <= MAX_INDEX && a == Decimal(m);
      var n: nat :| n <= MAX_INDEX && b == Decimal(n);
      IndexOrder(m, n);
    }
    FirstDifference(a, b);
  }

  // Its members are those of the value that hold something, each once, in canonical form, but for __proto__.
  lemma MembersAreThese(ms: seq<Member>, m: Member)
    requires DistinctKeys(ms)
    ensures m in CanonicalMembers(ms) <==>
      exists x :: x in ms && !x.value.JUndefined? && x.key != Lit("__proto__") && m == Member(x.key, Canonical(x.value))
  {
    CanonicalMembersHolds(ms);
  }
}
