/**
 For which versions compareVersions of client/src/util.js, with the unary plus of
 JavaScript, is the precedence of section 11 of Semantic Versioning 2.0.0.
 */
module VersionAgreement {
  import opened Common
  import opened Version
  import opened ToNumber
  import opened VersionPrecedence

  /** A number for unary plus that is no number for the standard, such as 1e3, 0x10, -1 or Infinity. */
  predicate Literal(s: string) { !Digits(s) && UnaryPlus(s).Some? }

  /** The two numbers are different, and in the order of the standard, where literals follow digits. */
  predicate LiteralsOrdered(x: string, y: string)
    requires UnaryPlus(x).Some? && UnaryPlus(y).Some?
  {
    var m, n := UnaryPlus(x).value, UnaryPlus(y).value;
    if Digits(x) then Below(m, n)
    else if Digits(y) then Below(n, m)
    else x == y || (Before(x, y) && Below(m, n)) || (Before(y, x) && Below(n, m))
  }

  /** What two texts must be like for the code to order them as the standard does. */
  predicate Compatible(x: string, y: string) {
    if Digits(x) && Digits(y) then Value(x) == Value(y) || Double(Value(x) as real) != Double(Value(y) as real)
    else if !Literal(x) && !Literal(y) then true
    else if UnaryPlus(x).None? then Before(y, x)
    else if UnaryPlus(y).None? then Before(x, y)
    else LiteralsOrdered(x, y)
  }

  lemma DigitsAreNumbers(s: string)
    requires Digits(s)
    ensures UnaryPlus(s) == Some(Double(Value(s) as real))
  {
  }

  lemma BelowTotal(m: Number, n: Number)
    ensures m == n || Below(m, n) || Below(n, m)
    ensures !(Below(m, n) && Below(n, m)) && !Below(m, m)
  {
  }

  /** Exactly the compatible pairs are ordered as the standard orders them. */
  lemma CompatibleExactly(x: string, y: string)
    ensures SameOrder(UnaryPlus, x, y) <==> Compatible(x, y)
  {
    if Digits(x) { DigitsAreNumbers(x); }
    if Digits(y) { DigitsAreNumbers(y); }
    if Digits(x) && Digits(y) {
      NumbersCompatible(x, y);
    } else {
      hide UnaryPlus, Value, Digits, Double, Before, Below;
      BeforeTotal(x, y);
      if UnaryPlus(x).Some? && UnaryPlus(y).Some? { BelowTotal(UnaryPlus(x).value, UnaryPlus(y).value); }
    }
  }

  lemma NumbersCompatible(x: string, y: string)
    requires Digits(x) && Digits(y)
    ensures SameOrder(UnaryPlus, x, y) <==> Value(x) == Value(y) || Double(Value(x) as real) != Double(Value(y) as real)
  {
    DigitsAreNumbers(x);
    DigitsAreNumbers(y);
    hide UnaryPlus, Value, Double, Below;
    var m, n := Double(Value(x) as real), Double(Value(y) as real);
    BelowTotal(m, n);
    if Value(x) <= Value(y) { DoubleMonotone(Value(x) as real, Value(y) as real); }
    if Value(y) <= Value(x) { DoubleMonotone(Value(y) as real, Value(x) as real); }
  }

  ghost predicate AllCompatible(texts: iset<string>) {
    forall x, y :: x in texts && y in texts ==> Compatible(x, y)
  }

  /**
   On the versions built from any numbers and identifiers, compareVersions is SemVer
   precedence for every pair if and only if the numbers, and the identifiers, are
   compatible with each other.
   */
  lemma PrecedenceExactly(numbers: iset<string>, ids: iset<string>)
    requires numbers != iset{} && forall x :: x in numbers ==> NumericText(x)
    requires forall x :: x in ids ==> Identifier(x)
    ensures AllAgree(UnaryPlus, numbers, ids) <==> AllCompatible(numbers) && AllCompatible(ids)
  {
    hide Compatible, SameOrder, NumericText, Identifier, AllAgree;
    AgreesExactly(UnaryPlus, numbers, ids);
    forall x, y ensures SameOrder(UnaryPlus, x, y) <==> Compatible(x, y) {
      CompatibleExactly(x, y);
    }
  }

  // ---------- Versions from a vocabulary that includes 0 and - ----------

  ghost predicate DistinctDoubles(texts: iset<string>) {
    forall x, y :: x in texts && y in texts && Digits(x) && Digits(y) && Value(x) != Value(y) ==>
                     Double(Value(x) as real) != Double(Value(y) as real)
  }

  ghost predicate NoLiteral(texts: iset<string>) {
    forall x :: x in texts ==> !Literal(x)
  }

  /** Every literal is out of order with a lone hyphen, or with zero. */
  lemma LiteralClashes(x: string)
    requires Identifier(x) && Literal(x)
    ensures Identifier("-") && Identifier("0") && !(Compatible(x, "-") && Compatible(x, "0"))
  {
    assert Digits("0");
    assert !Digits("-") by { assert "-"[0] == '-'; }
    assert UnaryPlus("-").None? by { assert "-"[1..] == ""; }
    assert Identifier("-") && Identifier("0");
    if x[0] == '-' {
      NegativeIsLow(x);
    } else {
      assert Before("-", x);
      BeforeTotal("-", x);
    }
  }

  /** A literal with a minus sign is not above zero. */
  lemma NegativeIsLow(x: string)
    requires Literal(x) && x != "" && x[0] == '-'
    ensures !Compatible(x, "0")
  {
    DigitsAreNumbers("0");
    assert Value("0") == 0;
    SmallIsExact(0);
    var n := Decimal(x[1..]).value;
    DecimalIsNotNegative(x[1..]);
    hide Decimal, Double;
    assert UnaryPlus(x) == Some(Negated(n));
  }

  lemma DecimalIsNotNegative(s: string)
    requires Decimal(s).Some?
    ensures !Below(Decimal(s).value, Finite(0.0))
  {
    SmallIsExact(0);
    hide Double, Value, Tens;
    if Digits(s) {
      DoubleMonotone(0.0, Value(s) as real);
    } else if s != "Infinity" {
      var i := ExponentAt(s);
      var negative := i + 1 < |s| && s[i + 1] == '-';
      var exponent := s[if negative then i + 2 else i + 1..];
      var size: int := Value(exponent);
      TensMonotone(Value(s[..i]) as real, if negative then -size else size);
      DoubleMonotone(0.0, Tens(Value(s[..i]) as real, if negative then -size else size));
    }
  }

  lemma {:induction false} TensMonotone(v: real, e: int)
    requires v >= 0.0
    ensures Tens(v, e) >= 0.0
    decreases if e < 0 then -e else e
  {
    if e > 0 { TensMonotone(v * 10.0, e - 1); } else if e < 0 { TensMonotone(v / 10.0, e + 1); }
  }

  /** Such identifiers are compatible exactly if none is a literal and no two numbers round to one double. */
  lemma VocabularyExactly(ids: iset<string>)
    requires (forall x :: x in ids ==> Identifier(x)) && "0" in ids && "-" in ids
    ensures AllCompatible(ids) <==> NoLiteral(ids) && DistinctDoubles(ids)
  {
    hide Identifier, UnaryPlus, Value, Double, Before, Digits;
    if AllCompatible(ids) {
      forall x | x in ids ensures !Literal(x) {
        if Literal(x) { LiteralClashes(x); }
      }
    }
  }

  // ---------- A guard a caller can check, and versions that fail it ----------

  /** Not a number for unary plus, or digits below 2^53. */
  predicate Safe(x: string) {
    UnaryPlus(x).None? || (Digits(x) && Value(x) < 9007199254740992)
  }

  predicate SafeVersion(r: Release) {
    && Safe(r.major) && Safe(r.minor) && Safe(r.patch)
    && forall i :: 0 <= i < |r.prerelease| ==> Safe(r.prerelease[i])
  }

  lemma SafeIsCompatible(x: string, y: string)
    requires Safe(x) && Safe(y)
    ensures SameOrder(UnaryPlus, x, y)
  {
    CompatibleExactly(x, y);
    if Digits(x) && Digits(y) {
      SmallIsExact(Value(x));
      SmallIsExact(Value(y));
    }
    hide UnaryPlus, Value, Double;
  }

  /** On valid versions without literals and numbers of 2^53 and more the comparison is SemVer precedence. */
  lemma SafeVersionsAgree(a: Release, b: Release)
    requires a.Valid() && b.Valid() && SafeVersion(a) && SafeVersion(b)
    ensures Agree(UnaryPlus, a, b)
  {
    SafeIsCompatible(a.major, b.major);
    SafeIsCompatible(a.minor, b.minor);
    SafeIsCompatible(a.patch, b.patch);
    forall i | 0 <= i < |a.prerelease| && i < |b.prerelease|
      ensures SameOrder(UnaryPlus, a.prerelease[i], b.prerelease[i])
    {
      SafeIsCompatible(a.prerelease[i], b.prerelease[i]);
    }
    hide Safe, SameOrder, Release.Valid, Agree;
    AgreesWithPrecedence(UnaryPlus, a, b);
  }

  /** A digit, e and one or more digits. */
  lemma ReadExponent(mantissa: string, exponent: string)
    requires Digits(mantissa) && Digits(exponent) && mantissa[0] != '0'
    ensures var s := mantissa + "e" + exponent;
            !Digits(s) && UnaryPlus(s) == Some(Double(Tens(Value(mantissa) as real, Value(exponent))))
  {
    hide Value, Double, Tens;
    var s := mantissa + "e" + exponent;
    var i := |mantissa|;
    assert s[i] == 'e' && s[..i] == mantissa && s[i + 1..] == exponent && s[0] == mantissa[0];
    assert s[i + 1] == exponent[0] != '-';
    assert s != "Infinity";
    ExponentUnique(s, i);
  }

  lemma {:induction false} ExponentUnique(s: string, i: nat)
    requires i < |s| && s[i] == 'e' && forall k :: 0 <= k < i ==> s[k] != 'e' && s[k] != 'E'
    ensures ExponentAt(s) == i
  {
    if i > 0 { ExponentUnique(s[1..], i - 1); }
  }

  /** Written next to each other, digits and a digit. */
  lemma ValueOfMore(s: string, c: char)
    requires (s == "" || Digits(s)) && '0' <= c <= '9'
    ensures Digits(s + [c]) && Value(s + [c]) == 10 * Value(s) + (c as int - '0' as int)
  {
    assert (s + [c])[..|s|] == s;
  }

  lemma ValueOfDigit(c: char)
    requires '0' <= c <= '9'
    ensures Digits([c]) && Value([c]) == c as int - '0' as int
  {
    ValueOfMore("", c);
    assert "" + [c] == [c];
  }

  /** mantissa e exponent against a number: the standard puts the number first. */
  lemma ExponentAgainstNumber(mantissa: string, exponent: string, y: string)
    requires Digits(mantissa) && Digits(exponent) && mantissa[0] != '0' && Digits(y)
    ensures var x := mantissa + "e" + exponent;
            && IdentifierOrder(x, y) == 1
            && (Below(Double(Tens(Value(mantissa) as real, Value(exponent))), Double(Value(y) as real)) ==>
                 PartOrder(UnaryPlus, Text(x), Text(y)) == -1)
  {
    ReadExponent(mantissa, exponent);
    DigitsAreNumbers(y);
    hide Double, Tens, Value, UnaryPlus, Digits;
  }

  lemma ReadThousand()
    ensures Digits("1") && Digits("3") && Digits("2000") && Value("2000") == 2000
    ensures Double(Tens(Value("1") as real, Value("3"))) == Finite(1000.0)
  {
    ValueOfDigit('1');
    ValueOfDigit('3');
    ValueOfDigit('2');
    ValueOfMore("2", '0');
    ValueOfMore("20", '0');
    ValueOfMore("200", '0');
    assert "2" + "0" == "20" && "20" + "0" == "200" && "200" + "0" == "2000";
    SmallIsExact(1000);
    assert Tens(1.0, 3) == 1000.0;
    hide Value, Double, Tens;
  }

  lemma OneZeroZero(x: string)
    requires Identifier(x)
    ensures Release("1", "0", "0", [x], None).Valid()
  {
  }

  /** 1.0.0-1e3 should be newer than 1.0.0-2000, but counts as older. */
  lemma ExponentMisread(a: Release, b: Release)
    requires a == Release("1", "0", "0", ["1e3"], None) && b == Release("1", "0", "0", ["2000"], None)
    ensures a.Valid() && b.Valid() && Precedence(a, b) == 1
    ensures Compare(UnaryPlus, PartsOf(a.Render()), PartsOf(b.Render())) == -4
  {
    ReadThousand();
    SmallIsExact(2000);
    ExponentAgainstNumber("1", "3", "2000");
    assert "1" + "e" + "3" == "1e3" && "1e3"[1] == 'e';
    hide UnaryPlus, Value, Double, Tens, Before;
    OneZeroZero("1e3");
    OneZeroZero("2000");
    hide *;
    OneIdentifier(UnaryPlus, a, b);
  }

  lemma ReadNineAndTen()
    ensures Digits("9") && Digits("10") && Digits("0")
    ensures Double(Tens(Value("9") as real, Value("0"))) == Finite(9.0)
    ensures Double(Tens(Value("10") as real, Value("0"))) == Finite(10.0)
  {
    ValueOfDigit('9');
    ValueOfDigit('1');
    ValueOfMore("1", '0');
    ValueOfDigit('0');
    SmallIsExact(9);
    SmallIsExact(10);
    assert Tens(9.0, 0) == 9.0 && Tens(10.0, 0) == 10.0;
    hide Value, Double, Tens;
  }

  lemma NineBeforeTen(x: string, y: string)
    requires x == "9e0" && y == "10e0"
    ensures IdentifierOrder(x, y) == 1 && PartOrder(UnaryPlus, Text(x), Text(y)) == -1
  {
    hide UnaryPlus, Value, Double, Tens, Digits;
    ReadNineAndTen();
    ReadExponent("9", "0");
    ReadExponent("10", "0");
    assert "9" + "e" + "0" == x && "10" + "e" + "0" == y;
    assert y[0] < x[0] && Before(y, x);
    hide Before;
    BeforeTotal(x, y);
    LiteralPair(x, y);
  }

  lemma LiteralPair(x: string, y: string)
    requires Literal(x) && Literal(y) && Before(y, x) && !Before(x, y)
    requires Below(UnaryPlus(x).value, UnaryPlus(y).value)
    ensures IdentifierOrder(x, y) == 1 && PartOrder(UnaryPlus, Text(x), Text(y)) == -1
  {
    hide UnaryPlus, Value, Digits, Before;
  }

  lemma NineAndTenAreIdentifiers()
    ensures Identifier("9e0") && Identifier("10e0")
  {
    assert "9e0"[1] == 'e' && "10e0"[2] == 'e';
  }

  /** Two literals: 1.0.0-9e0 should be newer than 1.0.0-10e0, but counts as older. */
  lemma LiteralsMisread(a: Release, b: Release)
    requires a == Release("1", "0", "0", ["9e0"], None) && b == Release("1", "0", "0", ["10e0"], None)
    ensures a.Valid() && b.Valid() && Precedence(a, b) == 1
    ensures Compare(UnaryPlus, PartsOf(a.Render()), PartsOf(b.Render())) == -4
  {
    NineBeforeTen("9e0", "10e0");
    NineAndTenAreIdentifiers();
    hide Identifier;
    OneZeroZero("9e0");
    OneZeroZero("10e0");
    hide *;
    OneIdentifier(UnaryPlus, a, b);
  }

  /** Two numbers: 2^53 and the next one count as the same. */
  lemma RoundedNumbersMisread(a: Release, b: Release)
    requires a.Valid() && b.Valid() && a.Core() == b.Core() && |a.prerelease| == |b.prerelease| == 1
    requires Digits(a.prerelease[0]) && Value(a.prerelease[0]) == 9007199254740993
    requires Digits(b.prerelease[0]) && Value(b.prerelease[0]) == 9007199254740992
    ensures Precedence(a, b) == 1 && Compare(UnaryPlus, PartsOf(a.Render()), PartsOf(b.Render())) == 0
  {
    var x, y := a.prerelease[0], b.prerelease[0];
    FirstInexact();
    DigitsAreNumbers(x);
    DigitsAreNumbers(y);
    hide UnaryPlus, Double, Precedence, Compare, Release.Render, PartsOf, Release.Valid;
    OneIdentifier(UnaryPlus, a, b);
  }
}
