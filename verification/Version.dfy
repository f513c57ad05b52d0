/**
 Version numbers (client/src/util.js): taking a version string apart, comparing two
 of them, and where the comparison agrees with section 11 of Semantic Versioning
 2.0.0. The conversion of a string to a number by unary plus is a parameter: None
 stands for NaN.
 */
module Version {
  import opened Common

  // ---------- Strings and numbers ----------

  datatype Number = NegInfinity | Finite(value: real) | PosInfinity

  predicate Below(x: Number, y: Number) {
    match (x, y)
    case (Finite(a), Finite(b)) => a < b
    case (NegInfinity, _) => !y.NegInfinity?
    case (_, PosInfinity) => !x.PosInfinity?
    case _ => false
  }

  /** The order of strings in JavaScript, by characters of the Basic Multilingual Plane; a prefix comes first. */
  predicate Before(s: string, t: string) {
    t != "" && (s == "" || s[0] < t[0] || (s[0] == t[0] && Before(s[1..], t[1..])))
  }

  lemma {:induction false} BeforeTotal(s: string, t: string)
    ensures s == t || Before(s, t) || Before(t, s)
    ensures !(Before(s, t) && Before(t, s)) && !Before(s, s)
  {
    if s != "" && t != "" {
      BeforeTotal(s[1..], t[1..]);
      assert s == [s[0]] + s[1..] && t == [t[0]] + t[1..];
    }
    if s != "" {
      BeforeTotal(s[1..], s[1..]);
    }
  }

  lemma {:induction false} BeforeTransitive(s: string, t: string, u: string)
    requires Before(s, t) && Before(t, u)
    ensures Before(s, u)
  {
    if s != "" && s[0] == t[0] && t[0] == u[0] {
      BeforeTransitive(s[1..], t[1..], u[1..]);
    }
  }

  // ---------- Taking a version apart ----------

  /** str.indexOf(c), or the length if there is none. */
  function IndexOf(s: string, c: char): (i: nat)
    ensures i <= |s| && (forall k :: 0 <= k < i ==> s[k] != c) && (i < |s| ==> s[i] == c)
  {
    if s == "" || s[0] == c then 0 else 1 + IndexOf(s[1..], c)
  }

  /** str.split('.') */
  function Split(s: string): (parts: seq<string>)
    ensures parts != []
    decreases |s|
  {
    var i := IndexOf(s, '.');
    if i == |s| then [s] else [s[..i]] + Split(s[i + 1..])
  }

  /** A piece of a version, or the number zero where minor or patch is missing. */
  datatype Part = Text(text: string) | Zero

  function Texts(texts: seq<string>): (parts: seq<Part>)
    ensures |parts| == |texts| && forall i :: 0 <= i < |parts| ==> parts[i] == Text(texts[i])
  {
    seq(|texts|, i requires 0 <= i < |texts| => Text(texts[i]))
  }

  /** Major, minor and patch, and then the identifiers of the prerelease. */
  type Parts = parts: seq<Part> | |parts| >= 3 witness [Zero, Zero, Zero]

  function PartsOf(version: string): Parts {
    var v := version[..IndexOf(version, '+')];
    var i := IndexOf(v, '-');
    var core := Split(v[..i]);
    [Text(core[0]), if |core| > 1 then Text(core[1]) else Zero, if |core| > 2 then Text(core[2]) else Zero]
    + (if i == |v| then [] else Texts(Split(v[i + 1..])))
  }

  datatype SplitResult = SplitResult(major: Part, minor: Part, patch: Part, prerelease: seq<Part>, build: string)

  method SplitVersion(version: string) returns (r: SplitResult)
    ensures [r.major, r.minor, r.patch] + r.prerelease == PartsOf(version)
    ensures r.build == if '+' in version then version[IndexOf(version, '+') + 1..] else ""
  {
    hide Split, IndexOf;
    var v, prerelease, build := version, [], "";
    var i := IndexOf(v, '+');
    if i < |v| {
      build := v[i + 1..];
      v := v[..i];
    }
    assert v == version[..IndexOf(version, '+')];
    i := IndexOf(v, '-');
    if i < |v| {
      prerelease := Texts(Split(v[i + 1..]));
      v := v[..i];
    }
    assert v == v[..IndexOf(v, '-')];
    var core := Split(v);
    r := SplitResult(Text(core[0]), if |core| > 1 then Text(core[1]) else Zero,
                     if |core| > 2 then Text(core[2]) else Zero, prerelease, build);
  }

  // ---------- Comparing ----------

  type Conversion = string -> Option<Number>

  function NumberOf(num: Conversion, part: Part): Option<Number> {
    if part.Zero? then Some(Finite(0.0)) else num(part.text)
  }

  /** Numbers by value and before all texts, texts in their order as strings. */
  function PartOrder(num: Conversion, x: Part, y: Part): (c: int)
    ensures -1 <= c <= 1
  {
    var m, n := NumberOf(num, x), NumberOf(num, y);
    if m.Some? && n.Some? then
      if Below(m.value, n.value) then -1 else if Below(n.value, m.value) then 1 else 0
    else if m.Some? then -1
    else if n.Some? then 1
    else if Before(x.text, y.text) then -1 else if Before(y.text, x.text) then 1 else 0
  }

  function At(parts: Parts, i: nat): Option<Part> {
    if i < |parts| then Some(parts[i]) else None
  }

  /** The end of a version counts as highest right after the patch number, later as lowest. */
  function OrderAt(num: Conversion, i: nat, x: Option<Part>, y: Option<Part>): (c: int)
    ensures -1 <= c <= 1
  {
    if x.None? && y.None? then 0
    else if x.None? then (if i == 3 then 1 else -1)
    else if y.None? then (if i == 3 then -1 else 1)
    else PartOrder(num, x.value, y.value)
  }

  function CompareFrom(num: Conversion, a: Parts, b: Parts, i: nat): int
    decreases |a| + |b| - i
  {
    if i >= |a| && i >= |b| then 0
    else
      var c := OrderAt(num, i, At(a, i), At(b, i));
      if c != 0 then c * (i + 1) else CompareFrom(num, a, b, i + 1)
  }

  function Compare(num: Conversion, a: Parts, b: Parts): int {
    CompareFrom(num, a, b, 0)
  }

  /** The loop of compareVersions, branch by branch. */
  method CompareVersions(num: Conversion, first: string, second: string) returns (r: int)
    ensures r == Compare(num, PartsOf(first), PartsOf(second))
  {
    var s := SplitVersion(first);
    var t := SplitVersion(second);
    var a: Parts := [s.major, s.minor, s.patch] + s.prerelease;
    var b: Parts := [t.major, t.minor, t.patch] + t.prerelease;
    hide PartsOf, Before, Below, IndexOf;
    for i := 0 to |a|
      invariant i <= |b| && CompareFrom(num, a, b, i) == Compare(num, a, b)
    {
      if i >= |b| {
        if |b| == 3 {
          return -(|b| + 1);
        } else {
          return |b| + 1;
        }
      }
      var m, n := NumberOf(num, a[i]), NumberOf(num, b[i]);
      if m.Some? {
        if n.Some? {
          if Below(m.value, n.value) {
            return -(i + 1);
          } else if Below(n.value, m.value) {
            return i + 1;
          }
        } else {
          return -(i + 1);
        }
      } else {
        if n.Some? {
          return i + 1;
        } else {
          if Before(a[i].text, b[i].text) {
            return -(i + 1);
          } else if Before(b[i].text, a[i].text) {
            return i + 1;
          }
        }
      }
    }
    if |a| < |b| {
      if |a| == 3 {
        return |a| + 1;
      } else {
        return -(|a| + 1);
      }
    }
    return 0;
  }

  // ---------- A total preorder ----------

  lemma OrderAtOpposite(num: Conversion, i: nat, x: Option<Part>, y: Option<Part>)
    ensures OrderAt(num, i, x, y) == -OrderAt(num, i, y, x)
  {
    if x.Some? && y.Some? && x.value.Text? && y.value.Text? {
      BeforeTotal(x.value.text, y.value.text);
    }
  }

  lemma PartOrderTransitive(num: Conversion, x: Part, y: Part, z: Part)
    requires PartOrder(num, x, y) <= 0 && PartOrder(num, y, z) <= 0
    ensures PartOrder(num, x, z) <= 0
    ensures PartOrder(num, x, z) == 0 <==> PartOrder(num, x, y) == 0 && PartOrder(num, y, z) == 0
  {
    if NumberOf(num, x).None? && NumberOf(num, y).None? && NumberOf(num, z).None? {
      BeforeTotal(x.text, y.text);
      BeforeTotal(y.text, z.text);
      BeforeTotal(x.text, z.text);
      if Before(x.text, y.text) && Before(y.text, z.text) {
        BeforeTransitive(x.text, y.text, z.text);
      }
    }
  }

  lemma OrderAtTransitive(num: Conversion, i: nat, x: Option<Part>, y: Option<Part>, z: Option<Part>)
    requires OrderAt(num, i, x, y) <= 0 && OrderAt(num, i, y, z) <= 0
    ensures OrderAt(num, i, x, z) <= 0
    ensures OrderAt(num, i, x, z) == 0 <==> OrderAt(num, i, x, y) == 0 && OrderAt(num, i, y, z) == 0
  {
    hide PartOrder;
    if x.Some? && y.Some? && z.Some? {
      PartOrderTransitive(num, x.value, y.value, z.value);
    }
  }

  /** Swapping the versions negates the result. */
  lemma {:induction false} Antisymmetric(num: Conversion, a: Parts, b: Parts, i: nat)
    ensures CompareFrom(num, a, b, i) == -CompareFrom(num, b, a, i)
    decreases |a| + |b| - i
  {
    hide OrderAt;
    if i < |a| || i < |b| {
      OrderAtOpposite(num, i, At(a, i), At(b, i));
      Antisymmetric(num, a, b, i + 1);
      var c := OrderAt(num, i, At(a, i), At(b, i));
      assert (-c) * (i + 1) == -(c * (i + 1));
    }
  }

  /** The result is zero, or one more than the first index where the versions differ, with a sign. */
  lemma {:induction false} Magnitude(num: Conversion, a: Parts, b: Parts, i: nat)
    ensures var c := CompareFrom(num, a, b, i);
            c == 0 || (exists k: nat :: i <= k < |a| + |b| && c == OrderAt(num, k, At(a, k), At(b, k)) * (k + 1) &&
                                        (c == k + 1 || c == -(k + 1)) &&
                                        forall j: nat :: i <= j < k ==> OrderAt(num, j, At(a, j), At(b, j)) == 0)
    ensures CompareFrom(num, a, b, i) == 0 <==>
            forall j: nat :: i <= j < |a| + |b| ==> OrderAt(num, j, At(a, j), At(b, j)) == 0
    decreases |a| + |b| - i
  {
    hide PartOrder;
    if i < |a| || i < |b| {
      var c := OrderAt(num, i, At(a, i), At(b, i));
      if c == 0 {
        Magnitude(num, a, b, i + 1);
      } else {
        assert c * (i + 1) == i + 1 || c * (i + 1) == -(i + 1);
      }
    }
  }

  function Abs(x: int): nat { if x < 0 then -x else x }

  /** Compared with a third version, the earlier difference decides. */
  lemma {:induction false} EarlierDifferenceDecides(num: Conversion, a: Parts, b: Parts, c: Parts, i: nat)
    ensures var ab, bc, ac := CompareFrom(num, a, b, i), CompareFrom(num, b, c, i), CompareFrom(num, a, c, i);
            && (bc == 0 ==> ac == ab) && (ab == 0 ==> ac == bc)
            && (ab != 0 && bc != 0 && Abs(ab) < Abs(bc) ==> ac == ab)
            && (ab != 0 && bc != 0 && Abs(bc) < Abs(ab) ==> ac == bc)
            && (ab != 0 && ab == bc ==> ac == ab)
    decreases |a| + |b| + |c| - i
  {
    hide OrderAt, At;
    if i < |a| || i < |b| || i < |c| {
      var x, y, z := At(a, i), At(b, i), At(c, i);
      EarlierDifferenceDecides(num, a, b, c, i + 1);
      ThreeAt(num, i, x, y, z);
      FromLater(num, a, b, i + 1);
      FromLater(num, b, c, i + 1);
      Unfold(num, a, b, i);
      Unfold(num, b, c, i);
      Unfold(num, a, c, i);
      hide CompareFrom;
    }
  }

  lemma {:induction false} FromLater(num: Conversion, a: Parts, b: Parts, i: nat)
    ensures var c := CompareFrom(num, a, b, i); c == 0 || Abs(c) > i
    decreases |a| + |b| - i
  {
    if i < |a| || i < |b| {
      FromLater(num, a, b, i + 1);
      var c := OrderAt(num, i, At(a, i), At(b, i));
      hide OrderAt;
      assert c == 0 || c * (i + 1) == i + 1 || c * (i + 1) == -(i + 1);
    }
  }

  lemma Unfold(num: Conversion, a: Parts, b: Parts, i: nat)
    ensures var c := OrderAt(num, i, At(a, i), At(b, i));
            CompareFrom(num, a, b, i) ==
            if c == 0 then CompareFrom(num, a, b, i + 1) else if c > 0 then i + 1 else -(i + 1)
  {
  }

  lemma ThreeAt(num: Conversion, i: nat, x: Option<Part>, y: Option<Part>, z: Option<Part>)
    ensures var xy, yz, xz := OrderAt(num, i, x, y), OrderAt(num, i, y, z), OrderAt(num, i, x, z);
            && (yz == 0 ==> xz == xy) && (xy == 0 ==> xz == yz) && (xy == yz ==> xz == xy)
  {
    hide PartOrder, OrderAt;
    OrderAtOpposite(num, i, x, y);
    OrderAtOpposite(num, i, y, z);
    OrderAtOpposite(num, i, x, z);
    if OrderAt(num, i, x, y) <= 0 && OrderAt(num, i, y, z) <= 0 {
      OrderAtTransitive(num, i, x, y, z);
    }
    if OrderAt(num, i, z, y) <= 0 && OrderAt(num, i, y, x) <= 0 {
      OrderAtTransitive(num, i, z, y, x);
    }
  }

  /** "Not newer than" is transitive. */
  lemma Transitive(num: Conversion, a: Parts, b: Parts, c: Parts)
    requires Compare(num, a, b) <= 0 && Compare(num, b, c) <= 0
    ensures Compare(num, a, c) <= 0
    ensures Compare(num, a, c) == 0 <==> Compare(num, a, b) == 0 && Compare(num, b, c) == 0
  {
    hide CompareFrom;
    EarlierDifferenceDecides(num, a, b, c, 0);
  }

  lemma {:induction false} IndexOfUnique(s: string, c: char, i: nat)
    requires i <= |s| && (forall k :: 0 <= k < i ==> s[k] != c) && (i < |s| ==> s[i] == c)
    ensures IndexOf(s, c) == i
  {
    if i > 0 {
      IndexOfUnique(s[1..], c, i - 1);
    }
  }

  /** Build metadata plays no role, whatever the version before it looks like. */
  lemma BuildIgnored(version: string, build: string)
    ensures PartsOf(version + "+" + build) == PartsOf(version)
  {
    var i := IndexOf(version, '+');
    IndexOfUnique(version + "+" + build, '+', i);
    assert (version + "+" + build)[..i] == version[..i];
  }
}
