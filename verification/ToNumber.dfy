/**
 Unary plus of JavaScript on the texts that identifiers of a version can be, that is
 without dots, plus signs and blanks: which texts are numbers, and which double
 precision number each one becomes (client/src/util.js applies it to each piece).
 */
module ToNumber {
  import opened Common
  import opened Version

  // ---------- Texts ----------

  predicate Digits(s: string) {
    s != "" && forall i :: 0 <= i < |s| ==> '0' <= s[i] <= '9'
  }

  function Value(s: string): nat
    requires forall i :: 0 <= i < |s| ==> '0' <= s[i] <= '9'
  {
    if s == "" then 0 else 10 * Value(s[..|s| - 1]) + (s[|s| - 1] as int - '0' as int)
  }

  function DigitOf(c: char): nat {
    if '0' <= c <= '9' then c as int - '0' as int
    else if 'a' <= c <= 'f' then c as int - 'a' as int + 10
    else if 'A' <= c <= 'F' then c as int - 'A' as int + 10
    else 16
  }

  predicate RadixDigits(s: string, radix: nat) {
    s != "" && forall i :: 0 <= i < |s| ==> DigitOf(s[i]) < radix
  }

  function RadixValue(s: string, radix: nat): nat {
    if s == "" then 0 else radix * RadixValue(s[..|s| - 1], radix) + DigitOf(s[|s| - 1])
  }

  /** The radix that a prefix 0x, 0o or 0b announces, or zero. */
  function Radix(s: string): nat {
    if |s| < 2 || s[0] != '0' then 0
    else if s[1] == 'x' || s[1] == 'X' then 16
    else if s[1] == 'o' || s[1] == 'O' then 8
    else if s[1] == 'b' || s[1] == 'B' then 2
    else 0
  }

  function ExponentAt(s: string): (i: nat)
    ensures i <= |s| && (i < |s| ==> s[i] == 'e' || s[i] == 'E')
    ensures forall k :: 0 <= k < i ==> s[k] != 'e' && s[k] != 'E'
  {
    if s == "" || s[0] == 'e' || s[0] == 'E' then 0 else 1 + ExponentAt(s[1..])
  }

  // ---------- Double precision ----------

  const LIMIT: real := 9007199254740992.0 // 2^53

  /** v times two to the power e */
  function Scale(v: real, e: int): real
    decreases if e < 0 then -e else e
  {
    if e == 0 then v else if e > 0 then Scale(v * 2.0, e - 1) else Scale(v / 2.0, e + 1)
  }

  /** The nearest integer, of two equally near ones the even one. */
  function HalfEven(v: real): int {
    var n := v.Floor;
    if v - n as real < 0.5 then n
    else if v - n as real > 0.5 then n + 1
    else if n % 2 == 0 then n else n + 1
  }

  /** v times two to the power e, rounded to 53 bits. */
  function RoundFrom(v: real, e: int): Number
    requires e <= 971
    decreases 971 - e
  {
    if v < LIMIT then
      if e == 971 && HalfEven(v) as real >= LIMIT then PosInfinity else Finite(Scale(HalfEven(v) as real, e))
    else if e == 971 then PosInfinity
    else RoundFrom(v / 2.0, e + 1)
  }

  /** The double precision number for a number that is not negative. */
  function Double(v: real): Number { RoundFrom(Scale(v, 1074), -1074) }

  function Negated(n: Number): Number {
    match n
    case NegInfinity => PosInfinity
    case PosInfinity => NegInfinity
    case Finite(v) => Finite(-v)
  }

  /** v times ten to the power e */
  function Tens(v: real, e: int): real
    decreases if e < 0 then -e else e
  {
    if e == 0 then v else if e > 0 then Tens(v * 10.0, e - 1) else Tens(v / 10.0, e + 1)
  }

  // ---------- Unary plus ----------

  /** A decimal literal without sign, point and plus. */
  function Decimal(s: string): Option<Number> {
    if s == "Infinity" then Some(PosInfinity)
    else if Digits(s) then Some(Double(Value(s) as real))
    else
      var i := ExponentAt(s);
      if i == |s| then None
      else
        var negative := i + 1 < |s| && s[i + 1] == '-';
        var exponent := s[if negative then i + 2 else i + 1..];
        if !Digits(s[..i]) || !Digits(exponent) then None
        else
          var size: int := Value(exponent);
          Some(Double(Tens(Value(s[..i]) as real, if negative then -size else size)))
  }

  function UnaryPlus(s: string): Option<Number> {
    if s == "" then Some(Finite(0.0))
    else if s[0] == '-' then
      var n := Decimal(s[1..]);
      if n.None? then None else Some(Negated(n.value))
    else if Radix(s) > 0 then
      if RadixDigits(s[2..], Radix(s)) then Some(Double(RadixValue(s[2..], Radix(s)) as real)) else None
    else Decimal(s)
  }

  // ---------- Rounding ----------

  lemma {:induction false} ScaleUp(v: real, e: int)
    ensures Scale(v, e + 1) == Scale(v * 2.0, e) == 2.0 * Scale(v, e)
    decreases if e < 0 then -e else e
  {
    if e == 0 {
      assert Scale(v, 1) == Scale(v * 2.0, 0);
    } else if e > 0 {
      ScaleUp(v * 2.0, e - 1);
    } else {
      ScaleUp(v / 2.0, e + 1);
      assert v * 2.0 / 2.0 == v;
    }
  }

  lemma {:induction false} ScaleMonotone(v: real, w: real, e: int)
    requires v <= w
    ensures Scale(v, e) <= Scale(w, e)
    decreases if e < 0 then -e else e
  {
    if e > 0 {
      ScaleMonotone(v * 2.0, w * 2.0, e - 1);
    } else if e < 0 {
      ScaleMonotone(v / 2.0, w / 2.0, e + 1);
    }
  }

  lemma HalfEvenMonotone(v: real, w: real)
    requires v <= w
    ensures HalfEven(v) <= HalfEven(w)
  {
  }

  lemma HalfEvenOfInteger(n: int)
    ensures HalfEven(n as real) == n
  {
  }

  /** Rounding a number of at least 52 bits gives one of at least 52 bits. */
  lemma {:induction false} RoundAbove(v: real, e: int)
    requires e <= 971 && v >= LIMIT / 2.0
    ensures RoundFrom(v, e).PosInfinity? || (RoundFrom(v, e).Finite? && RoundFrom(v, e).value >= Scale(LIMIT / 2.0, e))
    decreases 971 - e
  {
    if v < LIMIT {
      HalfEvenOfInteger(4503599627370496);
      HalfEvenMonotone(LIMIT / 2.0, v);
      ScaleMonotone(LIMIT / 2.0, HalfEven(v) as real, e);
    } else if e < 971 {
      RoundAbove(v / 2.0, e + 1);
      ScaleUp(LIMIT / 2.0, e);
      ScaleMonotone(LIMIT / 2.0, LIMIT, e);
    }
  }

  lemma {:induction false} RoundMonotone(v: real, w: real, e: int)
    requires e <= 971 && v <= w
    ensures !Below(RoundFrom(w, e), RoundFrom(v, e))
    decreases 971 - e
  {
    if w < LIMIT {
      HalfEvenMonotone(v, w);
      ScaleMonotone(HalfEven(v) as real, HalfEven(w) as real, e);
    } else if e < 971 {
      if v < LIMIT {
        RoundAbove(w / 2.0, e + 1);
        ScaleUp(LIMIT / 2.0, e);
        HalfEvenOfInteger(9007199254740992);
        HalfEvenMonotone(v, LIMIT);
        ScaleMonotone(HalfEven(v) as real, LIMIT, e);
      } else {
        RoundMonotone(v / 2.0, w / 2.0, e + 1);
      }
    }
  }

  lemma DoubleMonotone(v: real, w: real)
    requires v <= w
    ensures !Below(Double(w), Double(v))
  {
    ScaleMonotone(v, w, 1074);
    RoundMonotone(Scale(v, 1074), Scale(w, 1074), -1074);
  }

  lemma {:induction false} ScaleBack(v: real, k: nat)
    ensures Scale(Scale(v, k), 0 - k) == v
  {
    if k > 0 {
      ScaleUp(v, k - 1);
      assert Scale(v, k) / 2.0 == Scale(v, k - 1);
      ScaleBack(v, k - 1);
    }
  }

  lemma {:induction false} ScaleInteger(n: int, k: nat) returns (m: int)
    ensures Scale(n as real, k) == m as real
    decreases k
  {
    if k == 0 {
      m := n;
    } else {
      assert (2 * n) as real == n as real * 2.0;
      m := ScaleInteger(2 * n, k - 1);
    }
  }

  lemma {:induction false} RoundSmall(n: nat, k: nat)
    requires n as real < LIMIT
    ensures RoundFrom(Scale(n as real, k), 0 - k) == Finite(n as real)
  {
    var v := Scale(n as real, k);
    if v < LIMIT {
      var m := ScaleInteger(n, k);
      HalfEvenOfInteger(m);
      ScaleBack(n as real, k);
    } else {
      ScaleUp(n as real, k - 1);
      RoundSmall(n, k - 1);
    }
  }

  /** Integers below 2^53 are read exactly. */
  lemma SmallIsExact(n: nat)
    requires n < 9007199254740992
    ensures Double(n as real) == Finite(n as real)
  {
    RoundSmall(n, 1074);
  }

  lemma {:induction false} RoundLarge(v: real, k: nat)
    requires v >= LIMIT
    ensures RoundFrom(Scale(v, k), 0 - k) == RoundFrom(v, 0)
  {
    if k > 0 {
      ScaleLarge(v, k);
      ScaleUp(v, k - 1);
      RoundLarge(v, k - 1);
    }
  }

  lemma {:induction false} ScaleLarge(v: real, k: nat)
    requires v >= LIMIT
    ensures Scale(v, k) >= LIMIT
    decreases k
  {
    if k > 0 { ScaleLarge(v * 2.0, k - 1); }
  }

  /** 2^53 + 1 is the first integer that is not: it becomes 2^53. */
  lemma FirstInexact()
    ensures Double(9007199254740993.0) == Double(9007199254740992.0) == Finite(9007199254740992.0)
  {
    RoundLarge(LIMIT, 1074);
    RoundLarge(LIMIT + 1.0, 1074);
    HalfEvenOfInteger(4503599627370496);
    assert HalfEven(4503599627370496.5) == 4503599627370496;
    assert Scale(4503599627370496.0, 1) == LIMIT;
  }
}
