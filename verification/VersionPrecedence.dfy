/**
 Precedence as section 11 of Semantic Versioning 2.0.0 defines it, and where the
 comparison of client/src/util.js agrees with it.
 */
module VersionPrecedence {
  import opened Common
  import opened Version
  import opened ToNumber

  // ---------- The standard ----------

  predicate NumericText(s: string) { Digits(s) && (s[0] == '0' ==> s == "0") }

  predicate IdentifierChar(c: char) {
    '0' <= c <= '9' || 'A' <= c <= 'Z' || 'a' <= c <= 'z' || c == '-'
  }

  predicate Identifier(s: string) {
    s != "" && (forall i :: 0 <= i < |s| ==> IdentifierChar(s[i])) && (Digits(s) ==> NumericText(s))
  }

  /** A version number of sections 2, 9 and 10. */
  datatype Release = Release(
    major: string, minor: string, patch: string, prerelease: seq<string>, build: Option<string>) {
    predicate Valid() {
      && NumericText(major) && NumericText(minor) && NumericText(patch)
      && forall i :: 0 <= i < |prerelease| ==> Identifier(prerelease[i])
    }

    function Core(): seq<string> { [major, minor, patch] }

    function Render(): string {
      Join(Core()) + (if prerelease == [] then "" else "-" + Join(prerelease))
      + (if build.None? then "" else "+" + build.value)
    }
  }

  function Join(ids: seq<string>): string {
    if ids == [] then "" else if |ids| == 1 then ids[0] else ids[0] + "." + Join(ids[1..])
  }

  function Sign(x: int, y: int): int { if x < y then -1 else if x > y then 1 else 0 }

  function IdentifierOrder(x: string, y: string): int {
    if Digits(x) && Digits(y) then Sign(Value(x), Value(y))
    else if Digits(x) then -1
    else if Digits(y) then 1
    else if Before(x, y) then -1 else if Before(y, x) then 1 else 0
  }

  function IdentifiersOrder(a: seq<string>, b: seq<string>): int {
    if a == [] && b == [] then 0
    else if a == [] then -1
    else if b == [] then 1
    else if IdentifierOrder(a[0], b[0]) != 0 then IdentifierOrder(a[0], b[0])
    else IdentifiersOrder(a[1..], b[1..])
  }

  function Precedence(a: Release, b: Release): int
    requires a.Valid() && b.Valid()
  {
    if Value(a.major) != Value(b.major) then Sign(Value(a.major), Value(b.major))
    else if Value(a.minor) != Value(b.minor) then Sign(Value(a.minor), Value(b.minor))
    else if Value(a.patch) != Value(b.patch) then Sign(Value(a.patch), Value(b.patch))
    else if a.prerelease == [] && b.prerelease != [] then 1
    else if a.prerelease != [] && b.prerelease == [] then -1
    else IdentifiersOrder(a.prerelease, b.prerelease)
  }

  // ---------- Reading a valid version ----------

  lemma SplitStep(first: string, rest: string)
    requires '.' !in first
    ensures Split(first) == [first] && Split(first + "." + rest) == [first] + Split(rest)
  {
    hide IndexOf;
    IndexOfUnique(first, '.', |first|);
    IndexOfUnique(first + "." + rest, '.', |first|);
    assert (first + "." + rest)[..|first|] == first;
    assert (first + "." + rest)[|first| + 1..] == rest;
  }

  lemma {:induction false} SplitJoin(ids: seq<string>)
    requires ids != [] && forall i :: 0 <= i < |ids| ==> '.' !in ids[i]
    ensures Split(Join(ids)) == ids
  {
    hide Split;
    if |ids| == 1 {
      SplitStep(ids[0], "");
    } else {
      SplitStep(ids[0], Join(ids[1..]));
      SplitJoin(ids[1..]);
    }
  }

  lemma {:induction false} JoinAvoids(ids: seq<string>, c: char)
    requires c != '.' && forall i :: 0 <= i < |ids| ==> c !in ids[i]
    ensures c !in Join(ids)
  {
    if |ids| > 1 {
      JoinAvoids(ids[1..], c);
    }
  }

  lemma NumericAvoids(s: string, c: char)
    requires NumericText(s) && !('0' <= c <= '9')
    ensures c !in s
  {
  }

  lemma IdentifierAvoids(s: string, c: char)
    requires Identifier(s) && !IdentifierChar(c)
    ensures c !in s
  {
  }

  lemma FirstOccurrence(s: string, c: char, t: string)
    requires c !in s
    ensures IndexOf(s, c) == |s| && IndexOf(s + [c] + t, c) == |s|
    ensures s[..|s|] == s && (s + [c] + t)[..|s|] == s && (s + [c] + t)[|s| + 1..] == t
  {
    hide IndexOf;
    IndexOfUnique(s, c, |s|);
    IndexOfUnique(s + [c] + t, c, |s|);
  }

  lemma ReadBack(r: Release)
    requires r.Valid()
    ensures PartsOf(r.Render()) == Texts(r.Core()) + Texts(r.prerelease)
  {
    hide IndexOf, Split, PartsOf;
    CoreAvoids(r);
    SplitJoin(r.Core());
    PrereleaseAvoids(r);
    hide Join, Identifier, NumericText;
    var core, ids := Join(r.Core()), Join(r.prerelease);
    if r.prerelease == [] {
      FirstOccurrence(core, '-', "");
      assert core + "" == core;
      WithoutBuild(core, r.build);
      ThreeNumbers(r.Render(), core);
    } else {
      SplitJoin(r.prerelease);
      FirstOccurrence(core, '-', ids);
      var v := core + "-" + ids;
      assert r.Render() == v + (if r.build.None? then "" else "+" + r.build.value);
      WithoutBuild(v, r.build);
      ThreeNumbers(r.Render(), v);
    }
    assert Texts(r.Core()) == [Text(r.major), Text(r.minor), Text(r.patch)];
  }

  lemma ReadParts(r: Release)
    requires r.Valid()
    ensures var p := PartsOf(r.Render());
            && |p| == 3 + |r.prerelease|
            && p[0] == Text(r.major) && p[1] == Text(r.minor) && p[2] == Text(r.patch)
            && forall k :: 0 <= k < |r.prerelease| ==> p[3 + k] == Text(r.prerelease[k])
  {
    hide PartsOf, Release.Render, Release.Valid;
    ReadBack(r);
  }

  lemma Pieces(s: string, v: string)
    requires s[..IndexOf(s, '+')] == v
    ensures var i := IndexOf(v, '-');
            var core := Split(v[..i]);
            PartsOf(s) == [Text(core[0]), if |core| > 1 then Text(core[1]) else Zero,
                           if |core| > 2 then Text(core[2]) else Zero]
                          + (if i == |v| then [] else Texts(Split(v[i + 1..])))
  {
    hide IndexOf, Split;
  }

  lemma ThreeNumbers(s: string, v: string)
    requires s[..IndexOf(s, '+')] == v && |Split(v[..IndexOf(v, '-')])| == 3
    ensures var i := IndexOf(v, '-');
            var core := Split(v[..i]);
            PartsOf(s) == [Text(core[0]), Text(core[1]), Text(core[2])]
                          + (if i == |v| then [] else Texts(Split(v[i + 1..])))
  {
    hide IndexOf, Split, PartsOf;
    Pieces(s, v);
  }

  lemma PrereleaseAvoids(r: Release)
    requires r.Valid()
    ensures forall i :: 0 <= i < |r.prerelease| ==> '.' !in r.prerelease[i]
    ensures '+' !in Join(r.prerelease)
  {
    forall i | 0 <= i < |r.prerelease| ensures '+' !in r.prerelease[i] && '.' !in r.prerelease[i] {
      IdentifierAvoids(r.prerelease[i], '+');
      IdentifierAvoids(r.prerelease[i], '.');
    }
    hide Identifier;
    JoinAvoids(r.prerelease, '+');
  }

  lemma WithoutBuild(v: string, build: Option<string>)
    requires '+' !in v
    ensures var s := v + (if build.None? then "" else "+" + build.value);
            s[..IndexOf(s, '+')] == v
  {
    hide IndexOf;
    if build.None? {
      FirstOccurrence(v, '+', "");
      assert v + "" == v;
    } else {
      FirstOccurrence(v, '+', build.value);
      assert v + ("+" + build.value) == v + ['+'] + build.value;
    }
  }

  lemma CoreAvoids(r: Release)
    requires r.Valid()
    ensures var core := r.Core(); forall i :: 0 <= i < |core| ==> '.' !in core[i]
    ensures '+' !in Join(r.Core()) && '-' !in Join(r.Core())
  {
    forall i, c | 0 <= i < 3 && (c == '.' || c == '+' || c == '-') ensures c !in r.Core()[i] {
      NumericAvoids(r.Core()[i], c);
    }
    hide Join, NumericText;
    JoinAvoids(r.Core(), '+');
    JoinAvoids(r.Core(), '-');
  }

  // ---------- Agreement ----------

  /** Two texts compare in the code, given what unary plus does, as their identifiers do in the standard. */
  predicate SameOrder(num: Conversion, x: string, y: string) {
    PartOrder(num, Text(x), Text(y)) == IdentifierOrder(x, y)
  }

  predicate Agree(num: Conversion, a: Release, b: Release)
    requires a.Valid() && b.Valid()
  {
    Sign(Compare(num, PartsOf(a.Render()), PartsOf(b.Render())), 0) == Precedence(a, b)
  }

  lemma {:induction false} PrereleasesAgree(num: Conversion, a: seq<string>, b: seq<string>, i: nat, p: Parts, q: Parts)
    requires i > 3 || (i == 3 && (a == [] <==> b == []))
    requires |p| == i + |a| && |q| == i + |b|
    requires forall k :: 0 <= k < |a| ==> p[i + k] == Text(a[k])
    requires forall k :: 0 <= k < |b| ==> q[i + k] == Text(b[k])
    requires forall k :: 0 <= k < |a| && k < |b| ==> SameOrder(num, a[k], b[k])
    ensures Sign(CompareFrom(num, p, q, i), 0) == IdentifiersOrder(a, b)
    decreases |a| + |b|
  {
    hide PartOrder, IdentifierOrder;
    Unfold(num, p, q, i);
    if a != [] && b != [] {
      assert SameOrder(num, a[0], b[0]) && p[i + 0] == Text(a[0]) && q[i + 0] == Text(b[0]);
      if PartOrder(num, p[i], q[i]) == 0 {
        PrereleasesAgree(num, a[1..], b[1..], i + 1, p, q);
      }
    }
  }

  /** Two valid versions compare as the standard asks if their texts do, place by place. */
  lemma AgreesWithPrecedence(num: Conversion, a: Release, b: Release)
    requires a.Valid() && b.Valid()
    requires SameOrder(num, a.major, b.major) && SameOrder(num, a.minor, b.minor) && SameOrder(num, a.patch, b.patch)
    requires forall i :: 0 <= i < |a.prerelease| && i < |b.prerelease| ==>
               SameOrder(num, a.prerelease[i], b.prerelease[i])
    ensures Agree(num, a, b)
  {
    hide PartsOf, Release.Render, NumericText, Identifier, Value, IdentifiersOrder, PartOrder, CompareFrom, Compare;
    ReadParts(a);
    ReadParts(b);
    var p, q := PartsOf(a.Render()), PartsOf(b.Render());
    NumbersCompare(a.major, b.major);
    NumbersCompare(a.minor, b.minor);
    NumbersCompare(a.patch, b.patch);
    CoreFirst(num, p, q);
    hide SameOrder;
    PrereleaseNext(num, a.prerelease, b.prerelease, p, q);
  }

  lemma NumbersCompare(x: string, y: string)
    requires NumericText(x) && NumericText(y)
    ensures IdentifierOrder(x, y) == Sign(Value(x), Value(y))
  {
  }

  /** Major, minor and patch decide before everything else. */
  lemma CoreFirst(num: Conversion, p: Parts, q: Parts)
    ensures var major, minor, patch :=
              PartOrder(num, p[0], q[0]), PartOrder(num, p[1], q[1]), PartOrder(num, p[2], q[2]);
            Sign(Compare(num, p, q), 0) ==
            if major != 0 then major else if minor != 0 then minor else if patch != 0 then patch
            else Sign(CompareFrom(num, p, q, 3), 0)
  {
    hide PartOrder, CompareFrom;
    Unfold(num, p, q, 0);
    Unfold(num, p, q, 1);
    Unfold(num, p, q, 2);
  }

  /** A version with a prerelease comes before the same version without. */
  lemma PrereleaseNext(num: Conversion, a: seq<string>, b: seq<string>, p: Parts, q: Parts)
    requires |p| == 3 + |a| && |q| == 3 + |b|
    requires forall k :: 0 <= k < |a| ==> p[3 + k] == Text(a[k])
    requires forall k :: 0 <= k < |b| ==> q[3 + k] == Text(b[k])
    requires forall k :: 0 <= k < |a| && k < |b| ==> SameOrder(num, a[k], b[k])
    ensures Sign(CompareFrom(num, p, q, 3), 0) ==
            if a == [] && b != [] then 1 else if a != [] && b == [] then -1 else IdentifiersOrder(a, b)
  {
    hide PartOrder, CompareFrom, IdentifiersOrder, SameOrder;
    Unfold(num, p, q, 3);
    if a == [] <==> b == [] {
      PrereleasesAgree(num, a, b, 3, p, q);
    }
  }

  /** With the same core and one identifier each, the identifiers decide. */
  lemma OneIdentifier(num: Conversion, a: Release, b: Release)
    requires a.Valid() && b.Valid() && a.Core() == b.Core() && |a.prerelease| == |b.prerelease| == 1
    ensures Compare(num, PartsOf(a.Render()), PartsOf(b.Render()))
         == 4 * PartOrder(num, Text(a.prerelease[0]), Text(b.prerelease[0]))
    ensures Precedence(a, b) == IdentifierOrder(a.prerelease[0], b.prerelease[0])
  {
    OneIdentifierPrecedence(a.prerelease, b.prerelease);
    hide IdentifiersOrder, PartsOf, Release.Render, NumericText, Identifier, Value, PartOrder, CompareFrom,
        IdentifierOrder;
    ReadParts(a);
    ReadParts(b);
    var p, q := PartsOf(a.Render()), PartsOf(b.Render());
    assert a.Core()[0] == b.Core()[0] && a.Core()[1] == b.Core()[1] && a.Core()[2] == b.Core()[2];
    SamePart(num, p[0]);
    SamePart(num, p[1]);
    SamePart(num, p[2]);
    Unfold(num, p, q, 0);
    Unfold(num, p, q, 1);
    Unfold(num, p, q, 2);
    assert p[3 + 0] == Text(a.prerelease[0]) && q[3 + 0] == Text(b.prerelease[0]);
    Unfold(num, p, q, 3);
    Unfold(num, p, q, 4);
    assert CompareFrom(num, p, q, 4) == 0 by { FromEnd(num, p, q, 4); }
  }

  lemma SamePart(num: Conversion, x: Part)
    ensures PartOrder(num, x, x) == 0
  {
    OrderAtOpposite(num, 0, Some(x), Some(x));
  }

  lemma FromEnd(num: Conversion, p: Parts, q: Parts, i: nat)
    requires i >= |p| && i >= |q|
    ensures CompareFrom(num, p, q, i) == 0
  {
  }

  lemma OneIdentifierPrecedence(a: seq<string>, b: seq<string>)
    requires |a| == |b| == 1
    ensures IdentifiersOrder(a, b) == IdentifierOrder(a[0], b[0])
  {
    hide IdentifierOrder;
    assert a[1..] == [] && b[1..] == [];
    assert IdentifiersOrder(a[1..], b[1..]) == 0;
  }

  /** With no prerelease and the same minor and patch, the major numbers decide. */
  lemma OneNumber(num: Conversion, a: Release, b: Release)
    requires a.Valid() && b.Valid() && a.prerelease == b.prerelease == []
    requires a.minor == b.minor && a.patch == b.patch
    ensures Sign(Compare(num, PartsOf(a.Render()), PartsOf(b.Render())), 0) ==
            PartOrder(num, Text(a.major), Text(b.major))
    ensures Precedence(a, b) == IdentifierOrder(a.major, b.major)
  {
    hide PartsOf, Release.Render, NumericText, Identifier, Value, PartOrder, CompareFrom, Compare;
    ReadParts(a);
    ReadParts(b);
    var p, q := PartsOf(a.Render()), PartsOf(b.Render());
    NumbersCompare(a.major, b.major);
    CoreFirst(num, p, q);
    SamePart(num, p[1]);
    SamePart(num, p[2]);
    FromEnd(num, p, q, 3);
  }

  /** The valid versions whose numbers and identifiers are among the given ones. */
  ghost predicate Over(r: Release, numbers: iset<string>, ids: iset<string>) {
    && r.Valid() && r.major in numbers && r.minor in numbers && r.patch in numbers
    && forall i :: 0 <= i < |r.prerelease| ==> r.prerelease[i] in ids
  }

  ghost predicate AllAgree(num: Conversion, numbers: iset<string>, ids: iset<string>) {
    forall a: Release, b: Release :: Over(a, numbers, ids) && Over(b, numbers, ids) ==> Agree(num, a, b)
  }

  ghost predicate AllSameOrder(num: Conversion, texts: iset<string>) {
    forall x, y :: x in texts && y in texts ==> SameOrder(num, x, y)
  }

  /**
   Whatever unary plus does: on the versions built from any numbers and identifiers the
   comparison is SemVer precedence, for every pair of them, if and only if it orders
   every two of the numbers, and every two of the identifiers, as the standard does.
   */
  lemma AgreesExactly(num: Conversion, numbers: iset<string>, ids: iset<string>)
    requires numbers != iset{} && forall x :: x in numbers ==> NumericText(x)
    requires forall x :: x in ids ==> Identifier(x)
    ensures AllAgree(num, numbers, ids) <==> AllSameOrder(num, numbers) && AllSameOrder(num, ids)
  {
    hide Agree, SameOrder, NumericText, Identifier;
    if AllSameOrder(num, numbers) && AllSameOrder(num, ids) {
      forall a: Release, b: Release | Over(a, numbers, ids) && Over(b, numbers, ids) ensures Agree(num, a, b) {
        AgreesWithPrecedence(num, a, b);
      }
    }
    if AllAgree(num, numbers, ids) {
      forall x, y | x in numbers && y in numbers ensures SameOrder(num, x, y) {
        NumbersMustAgree(num, numbers, ids, x, y);
      }
      forall x, y | x in ids && y in ids ensures SameOrder(num, x, y) {
        IdentifiersMustAgree(num, numbers, ids, x, y);
      }
    }
  }

  lemma NumbersMustAgree(num: Conversion, numbers: iset<string>, ids: iset<string>, x: string, y: string)
    requires x in numbers && y in numbers && NumericText(x) && NumericText(y) && AllAgree(num, numbers, ids)
    ensures SameOrder(num, x, y)
  {
    var a, b := Release(x, x, x, [], None), Release(y, x, x, [], None);
    assert Over(a, numbers, ids) && Over(b, numbers, ids);
    hide Precedence, Compare, PartOrder, IdentifierOrder, Release.Render, NumericText, PartsOf;
    assert Agree(num, a, b);
    OneNumber(num, a, b);
  }

  lemma IdentifiersMustAgree(num: Conversion, numbers: iset<string>, ids: iset<string>, x: string, y: string)
    requires numbers != iset{} && (forall z :: z in numbers ==> NumericText(z))
    requires x in ids && y in ids && Identifier(x) && Identifier(y) && AllAgree(num, numbers, ids)
    ensures SameOrder(num, x, y)
  {
    var n :| n in numbers;
    var a, b := Release(n, n, n, [x], None), Release(n, n, n, [y], None);
    assert Over(a, numbers, ids) && Over(b, numbers, ids);
    hide Precedence, Compare, PartOrder, IdentifierOrder, Release.Render, NumericText, Identifier, PartsOf;
    assert Agree(num, a, b);
    OneIdentifier(num, a, b);
  }

  // ---------- Versions with fewer or more numbers ----------

  predicate PlainNumber(s: string) { '.' !in s && '-' !in s && '+' !in s }

  /** What may follow the numbers of a version: nothing, a prerelease or build metadata. */
  predicate Ending(s: string) { s == "" || s[0] == '-' || s[0] == '+' }

  lemma {:induction false} IndexOfAfter(s: string, c: char, t: string)
    requires c !in s
    ensures IndexOf(s + t, c) == |s| + IndexOf(t, c)
  {
    if s == "" {
      assert s + t == t;
    } else {
      assert (s + t)[1..] == s[1..] + t;
      IndexOfAfter(s[1..], c, t);
    }
  }

  lemma PartsOfCore(core: string, ending: string)
    requires '-' !in core && '+' !in core && Ending(ending)
    ensures var numbers := Split(core);
            PartsOf(core + ending) == [Text(numbers[0]), if |numbers| > 1 then Text(numbers[1]) else Zero,
                                       if |numbers| > 2 then Text(numbers[2]) else Zero] + PartsOf(ending)[3..]
  {
    hide IndexOf, Split;
    var version := core + ending;
    var rest := ending[..IndexOf(ending, '+')];
    IndexOfAfter(core, '+', ending);
    IndexOfAfter(core, '-', rest);
    var v := version[..IndexOf(version, '+')];
    assert v == core + rest;
    assert IndexOf(rest, '-') == 0;
    Pieces(version, v);
    Pieces(ending, rest);
    assert v[..|core|] == core;
    assert rest[..0] == "";
    assert rest != "" ==> v[|core| + 1..] == rest[1..];
    hide PartsOf;
  }

  lemma SameParts(num: Conversion, a: Parts, b: Parts)
    requires num("0") == Some(Finite(0.0)) && |a| == |b|
    requires forall k :: 0 <= k < |a| ==> a[k] == b[k] || (a[k] == Zero && b[k] == Text("0"))
    ensures Compare(num, a, b) == 0
  {
    hide Before, Below, PartOrder;
    forall k: nat | k < |a| + |b| ensures OrderAt(num, k, At(a, k), At(b, k)) == 0 {
      if k < |a| {
        ZeroOrSame(num, a[k], b[k]);
      }
    }
    Magnitude(num, a, b, 0);
  }

  lemma ZeroOrSame(num: Conversion, x: Part, y: Part)
    requires num("0") == Some(Finite(0.0)) && (x == y || (x == Zero && y == Text("0")))
    ensures PartOrder(num, x, y) == 0
  {
    SamePart(num, x);
  }

  /** A missing minor or patch number is a zero, and numbers after the third do not matter. */
  lemma MissingIsZero(num: Conversion, major: string, minor: string, patch: string, more: string, ending: string)
    requires num("0") == Some(Finite(0.0)) && Ending(ending) && '-' !in more && '+' !in more
    requires PlainNumber(major) && PlainNumber(minor) && PlainNumber(patch)
    ensures Compare(num, PartsOf(major + ending), PartsOf(major + ".0.0" + ending)) == 0
    ensures Compare(num, PartsOf(major + "." + minor + ending), PartsOf(major + "." + minor + ".0" + ending)) == 0
    ensures PartsOf(major + "." + minor + "." + patch + "." + more + ending) ==
            PartsOf(major + "." + minor + "." + patch + ending)
  {
    hide Split, PartsOf, Compare;
    SplitStep("0", "");
    SplitStep("0", "0");
    SplitStep(major, "0.0");
    SplitStep(minor, "0");
    SplitStep(major, minor);
    SplitStep(major, minor + ".0");
    assert "0" + "." + "0" == "0.0";
    assert major + "." + "0.0" == major + ".0.0";
    assert minor + "." + "0" == minor + ".0";
    assert major + "." + (minor + ".0") == major + "." + minor + ".0";
    PartsOfCore(major, ending);
    PartsOfCore(major + ".0.0", ending);
    PartsOfCore(major + "." + minor, ending);
    PartsOfCore(major + "." + minor + ".0", ending);
    SameParts(num, PartsOf(major + ending), PartsOf(major + ".0.0" + ending));
    SameParts(num, PartsOf(major + "." + minor + ending), PartsOf(major + "." + minor + ".0" + ending));
    SplitFour(major, minor, patch, more);
    PartsOfCore(major + "." + minor + "." + patch + "." + more, ending);
    PartsOfCore(major + "." + minor + "." + patch, ending);
  }

  lemma SplitFour(major: string, minor: string, patch: string, more: string)
    requires PlainNumber(major) && PlainNumber(minor) && PlainNumber(patch)
    ensures Split(major + "." + minor + "." + patch) == [major, minor, patch]
    ensures Split(major + "." + minor + "." + patch + "." + more) == [major, minor, patch] + Split(more)
  {
    hide Split;
    var three, four := patch, patch + "." + more;
    SplitStep(patch, more);
    SplitStep(minor, three);
    SplitStep(minor, four);
    SplitStep(major, minor + "." + three);
    SplitStep(major, minor + "." + four);
    assert major + "." + (minor + "." + three) == major + "." + minor + "." + patch;
    assert major + "." + (minor + "." + four) == major + "." + minor + "." + patch + "." + more;
  }
}
