/**
 Removing ".." from Windows paths (daemon/win/win_path.cpp): the loop that erases
 "\name\.." from a string, what it computes for any string at all, and when the
 result names the same place as the original.
 */
module WinPath {
  import opened Common

  // ---------- Paths as segments ----------

  /** The text before the first backslash: the drive, or a first relative name, or nothing. */
  function Root(s: string): string {
    if s == "" || s[0] == '\\' then "" else [s[0]] + Root(s[1..])
  }

  /** The texts that follow each backslash. */
  function Segments(s: string): seq<string> {
    if s == "" then []
    else if s[0] == '\\' then [Root(s[1..])] + Segments(s[1..])
    else Segments(s[1..])
  }

  function Unparse(segs: seq<string>): string {
    if segs == [] then "" else "\\" + segs[0] + Unparse(segs[1..])
  }

  lemma {:induction false} Reassembled(s: string)
    ensures s == Root(s) + Unparse(Segments(s))
  {
    if s != "" {
      Reassembled(s[1..]);
    }
  }

  predicate Suffix(v: string) { v == "" || v[0] == '\\' }

  lemma {:induction false} SplitAt(u: string, v: string)
    requires Suffix(v)
    ensures Root(u + v) == Root(u) && Segments(u + v) == Segments(u) + Segments(v)
  {
    if u == "" {
      assert u + v == v;
    } else {
      SplitAt(u[1..], v);
      var s := u + v;
      assert s[0] == u[0] && s[1..] == u[1..] + v;
    }
  }

  lemma {:induction false} NoBackslash(x: string)
    requires forall i :: 0 <= i < |x| ==> x[i] != '\\'
    ensures Root(x) == x && Segments(x) == []
  {
    if x != "" {
      NoBackslash(x[1..]);
    }
  }

  /** ".." takes back the segment before it, also one that is itself "..", and stays if there is none. */
  function Push(stack: seq<string>, seg: string): seq<string> {
    if seg == ".." && stack != [] then stack[..|stack| - 1] else stack + [seg]
  }

  function Fold(stack: seq<string>, segs: seq<string>): seq<string>
    decreases |segs|
  {
    if segs == [] then stack else Fold(Push(stack, segs[0]), segs[1..])
  }

  function Simplified(s: string): string {
    Root(s) + Unparse(Fold([], Segments(s)))
  }

  lemma {:induction false} FoldAppend(stack: seq<string>, a: seq<string>, b: seq<string>)
    ensures Fold(stack, a + b) == Fold(Fold(stack, a), b)
    decreases |a|
  {
    if a == [] {
      assert a + b == b;
    } else {
      assert (a + b)[1..] == a[1..] + b;
      FoldAppend(Push(stack, a[0]), a[1..], b);
    }
  }

  /** Only the first segment may be "..". */
  predicate Tidy(segs: seq<string>) {
    forall k :: 1 <= k < |segs| ==> segs[k] != ".."
  }

  lemma {:induction false} FoldOfTidy(stack: seq<string>, segs: seq<string>)
    requires Tidy(stack + segs)
    ensures Fold(stack, segs) == stack + segs
    decreases |segs|
  {
    if segs != [] {
      assert (stack + segs)[|stack|] == segs[0];
      assert stack + segs == (stack + [segs[0]]) + segs[1..];
      FoldOfTidy(stack + [segs[0]], segs[1..]);
    }
  }

  lemma {:induction false} FoldIsTidy(stack: seq<string>, segs: seq<string>)
    requires Tidy(stack)
    ensures Tidy(Fold(stack, segs))
    decreases |segs|
  {
    if segs != [] {
      FoldIsTidy(Push(stack, segs[0]), segs[1..]);
    }
  }

  // ---------- The loop ----------

  predicate DotsAt(s: string, i: nat) {
    i + 3 <= |s| && s[i] == '\\' && s[i + 1] == '.' && s[i + 2] == '.'
  }

  /** A segment ".." starts with the backslash at i. */
  predicate ParentAt(s: string, i: nat) {
    DotsAt(s, i) && (i + 3 == |s| || s[i + 3] == '\\')
  }

  predicate NoSlashBefore(s: string, i: nat) {
    forall k :: 0 <= k < i && k < |s| ==> s[k] != '\\'
  }

  /** Up to n, only a segment before which there is none is "..". */
  predicate Clean(s: string, n: nat) {
    forall i: nat :: i < n && ParentAt(s, i) ==> NoSlashBefore(s, i)
  }

  /** path.find("\\..", from) */
  function Find(s: string, from: nat): (r: Option<nat>)
    ensures r.None? ==> forall i: nat :: from <= i ==> !DotsAt(s, i)
    ensures r.Some? ==> from <= r.value && DotsAt(s, r.value)
    ensures r.Some? ==> forall i: nat :: from <= i < r.value ==> !DotsAt(s, i)
    decreases |s| - from
  {
    if from >= |s| then None
    else if DotsAt(s, from) then Some(from)
    else Find(s, from + 1)
  }

  /** path.rfind('\\', n - 1) */
  function RFind(s: string, n: nat): (r: Option<nat>)
    requires n <= |s|
    ensures r.None? ==> NoSlashBefore(s, n)
    ensures r.Some? ==> r.value < n && s[r.value] == '\\' && forall i :: r.value < i < n ==> s[i] != '\\'
  {
    if n == 0 then None
    else if s[n - 1] == '\\' then Some(n - 1)
    else RFind(s, n - 1)
  }

  lemma {:induction false} RootIsParent(s: string)
    requires Root(s) == ".."
    ensures ParentAt("\\" + s, 0)
  {
    assert Root(s)[0] == s[0] && Root(s)[1..] == Root(s[1..]);
    assert s[1..] != "" && Root(s[1..])[0] == s[1];
    assert Root(s[1..])[1..] == Root(s[1..][1..]) == "";
    assert s[1..][1..] == s[2..];
  }

  lemma {:induction false} NoParentSegments(s: string)
    requires forall i: nat :: !ParentAt(s, i)
    ensures forall k :: 0 <= k < |Segments(s)| ==> Segments(s)[k] != ".."
  {
    if s != "" {
      forall i: nat ensures !ParentAt(s[1..], i) {
        assert !ParentAt(s, i + 1);
      }
      NoParentSegments(s[1..]);
      if s[0] == '\\' {
        assert s == "\\" + s[1..];
        assert !ParentAt(s, 0);
        if Root(s[1..]) == ".." {
          RootIsParent(s[1..]);
        }
      }
    }
  }

  lemma {:induction false} CleanIsTidy(s: string)
    requires Clean(s, |s|)
    ensures Tidy(Segments(s))
  {
    if s != "" {
      if s[0] == '\\' {
        forall i: nat ensures !ParentAt(s[1..], i) {
          assert ParentAt(s[1..], i) ==> ParentAt(s, i + 1);
          assert ParentAt(s, i + 1) ==> !NoSlashBefore(s, i + 1);
        }
        NoParentSegments(s[1..]);
      } else {
        forall i: nat | i < |s| - 1 && ParentAt(s[1..], i) ensures NoSlashBefore(s[1..], i) {
          assert ParentAt(s, i + 1);
        }
        CleanIsTidy(s[1..]);
      }
    }
  }

  lemma CleanAfterErase(s: string, n: nat, slash: nat, v: string)
    requires slash < n <= |s| && s[slash] == '\\' && Clean(s, n) && Suffix(v)
    ensures Clean(s[..slash], slash) && Clean(s[..slash] + v, slash)
  {
    var u := s[..slash];
    var t := u + v;
    forall i: nat | i < slash && (ParentAt(u, i) || ParentAt(t, i))
      ensures NoSlashBefore(u, i) && NoSlashBefore(t, i)
    {
      assert ParentAt(s, i);
      assert NoSlashBefore(s, i);
    }
  }

  /** Erasing one "\name\.." leaves the simplified path as it was. */
  lemma EraseKeeps(s: string, slash: nat, pos: nat)
    requires slash < pos && ParentAt(s, pos) && s[slash] == '\\' && Clean(s, pos)
    requires forall i :: slash < i < pos ==> s[i] != '\\'
    ensures Simplified(s[..slash] + s[pos + 3..]) == Simplified(s)
    ensures Clean(s[..slash] + s[pos + 3..], slash)
  {
    hide Root, Segments, Unparse, Fold;
    var u, x, v := s[..slash], s[slash + 1..pos], s[pos + 3..];
    CleanAfterErase(s, pos, slash, v);
    CleanIsTidy(u);
    if x == ".." {
      assert ParentAt(s, slash);
      NoBackslash(u);
    }
    Pieces(s, slash, pos);
    SplitParent(u, x, v);
    SplitAt(u, v);
    EraseFolds(Segments(u), x, Segments(v));
  }

  lemma Pieces(s: string, slash: nat, pos: nat)
    requires slash < pos && DotsAt(s, pos) && s[slash] == '\\'
    ensures s == s[..slash] + ("\\" + s[slash + 1..pos]) + "\\.." + s[pos + 3..]
  {
    assert s[slash..pos] == "\\" + s[slash + 1..pos];
    assert s[pos..pos + 3] == "\\..";
  }

  lemma SplitParent(u: string, x: string, v: string)
    requires Suffix(v) && forall i :: 0 <= i < |x| ==> x[i] != '\\'
    ensures Root(u + ("\\" + x) + "\\.." + v) == Root(u)
    ensures Segments(u + ("\\" + x) + "\\.." + v) == Segments(u) + [x] + [".."] + Segments(v)
  {
    SplitAt(u + ("\\" + x) + "\\..", v);
    SplitAt(u + ("\\" + x), "\\..");
    SplitAt(u, "\\" + x);
    OneSegment(x);
    OneSegment("..");
  }

  lemma OneSegment(x: string)
    requires forall i :: 0 <= i < |x| ==> x[i] != '\\'
    ensures Segments("\\" + x) == [x]
  {
    NoBackslash(x);
    assert ("\\" + x)[1..] == x;
  }

  lemma EraseFolds(a: seq<string>, x: string, b: seq<string>)
    requires Tidy(a) && (x == ".." ==> a == [])
    ensures Fold([], a + [x] + [".."] + b) == Fold([], a + b)
  {
    hide Fold;
    FoldAppend([], a, [x] + [".."] + b);
    FoldAppend([], a, b);
    assert [] + a == a;
    FoldOfTidy([], a);
    assert a + [x] + [".."] + b == a + ([x] + [".."] + b);
    FoldPair(a, x, b);
  }

  lemma FoldPair(a: seq<string>, x: string, b: seq<string>)
    requires x == ".." ==> a == []
    ensures Fold(a, [x] + [".."] + b) == Fold(a, b)
  {
    var s, t := [x] + [".."] + b, [".."] + b;
    assert s[0] == x && s[1..] == t && t[0] == ".." && t[1..] == b;
    assert Push(Push(a, x), "..") == a;
    assert Fold(a, s) == Fold(Push(a, x), t);
  }

  lemma CleanIsSimple(s: string)
    requires Clean(s, |s|)
    ensures Simplified(s) == s
  {
    CleanIsTidy(s);
    Reassembled(s);
    assert [] + Segments(s) == Segments(s);
    FoldOfTidy([], Segments(s));
  }

  /** SimplifyPathInPlace: the loop computes Simplified for every string, and moves on by three or more each time. */
  method SimplifyPath(path: string) returns (result: string)
    ensures result == Simplified(path)
  {
    result := path;
    var pos: nat := 0;
    while pos < |result|
      invariant Clean(result, pos)
      invariant Simplified(result) == Simplified(path)
      decreases |result| - pos
    {
      ghost var left := |result| - pos;
      var found := Find(result, pos);
      if found.None? {
        pos := |result|;
      } else {
        pos := found.value;
        var slash := None;
        if pos > 0 && (pos + 3 == |result| || result[pos + 3] == '\\') {
          slash := RFind(result, pos);
        }
        if slash.Some? {
          EraseKeeps(result, slash.value, pos);
          result := result[..slash.value] + result[pos + 3..];
          pos := slash.value;
        } else {
          pos := pos + 3;
        }
        assert |result| - pos <= left - 3;
      }
    }
    CleanIsSimple(result);
  }

  // ---------- Where a path leads ----------

  predicate Blank(seg: string) { seg == "" || seg == "." }

  /** What a file system makes of the segments of an absolute path: the root is its own parent. */
  function Resolve(place: seq<string>, segs: seq<string>): seq<string>
    decreases |segs|
  {
    if segs == [] then place else Resolve(Enter(place, segs[0]), segs[1..])
  }

  function Enter(place: seq<string>, seg: string): seq<string> {
    if Blank(seg) then place
    else if seg != ".." then place + [seg]
    else if place == [] then []
    else place[..|place| - 1]
  }

  function Place(s: string): seq<string> { Resolve([], Segments(s)) }

  lemma {:induction false} ResolveSnoc(place: seq<string>, segs: seq<string>, seg: string)
    ensures Resolve(place, segs + [seg]) == Enter(Resolve(place, segs), seg)
    decreases |segs|
  {
    if segs == [] {
      assert segs + [seg] == [seg];
    } else {
      assert (segs + [seg])[1..] == segs[1..] + [seg];
      ResolveSnoc(Enter(place, segs[0]), segs[1..], seg);
    }
  }

  lemma FoldSnoc(segs: seq<string>, seg: string)
    ensures Fold([], segs + [seg]) == Push(Fold([], segs), seg)
  {
    FoldAppend([], segs, [seg]);
  }

  /** ".." would take back an empty or "." segment although there is a place to leave. */
  predicate Misstep(stack: seq<string>, seg: string) {
    seg == ".." && stack != [] && Blank(stack[|stack| - 1]) && Resolve([], stack) != []
  }

  /** One segment at a time, the simplified path goes where the path goes, exactly without a misstep. */
  lemma PushFollows(stack: seq<string>, seg: string)
    requires Tidy(stack)
    ensures Resolve([], Push(stack, seg)) == Enter(Resolve([], stack), seg) <==> !Misstep(stack, seg)
    ensures Misstep(stack, seg) ==> Resolve([], Push(stack, seg)) == Resolve([], stack)
  {
    if seg == ".." && stack != [] {
      PopFollows(stack);
    } else {
      ResolveSnoc([], stack, seg);
      hide Resolve;
    }
  }

  lemma PopFollows(stack: seq<string>)
    requires Tidy(stack) && stack != []
    ensures var rest, place := stack[..|stack| - 1], Resolve([], stack);
            && (Resolve([], rest) == Enter(place, "..") <==> !Misstep(stack, ".."))
            && (Misstep(stack, "..") ==> Resolve([], rest) == place)
  {
    hide Resolve, Enter;
    var rest, last := stack[..|stack| - 1], stack[|stack| - 1];
    assert stack == rest + [last];
    ResolveSnoc([], rest, last);
    if last == ".." {
      assert rest == [];
      ResolveNothing([]);
    } else {
      EnterAndLeave(Resolve([], rest), last);
    }
  }

  lemma EnterAndLeave(place: seq<string>, seg: string)
    requires seg != ".."
    ensures !Blank(seg) ==> Enter(Enter(place, seg), "..") == place && Enter(place, seg) != []
    ensures Blank(seg) ==> Enter(place, seg) == place && (place == Enter(place, "..") <==> place == [])
  {
    assert !Blank(seg) ==> (place + [seg])[..|place|] == place;
  }

  lemma ResolveNothing(place: seq<string>)
    ensures Resolve(place, []) == place && Enter([], "..") == []
  {
  }

  predicate Surefooted(segs: seq<string>) {
    forall k :: 0 <= k < |segs| ==> !Misstep(Fold([], segs[..k]), segs[k])
  }

  predicate SamePlaceOf(segs: seq<string>) {
    Resolve([], Fold([], segs)) == Resolve([], segs)
  }

  lemma OneMoreSegment(init: seq<string>, seg: string)
    requires SamePlaceOf(init)
    ensures SamePlaceOf(init + [seg]) <==> !Misstep(Fold([], init), seg)
  {
    hide Fold, Resolve, Misstep, Enter, Push;
    FoldSnoc(init, seg);
    ResolveSnoc([], init, seg);
    FoldIsTidy([], init);
    PushFollows(Fold([], init), seg);
  }

  /** The simplified form leads to the same place along the whole path if and only if no step is a misstep. */
  lemma {:induction false} SamePlaceAlong(segs: seq<string>)
    ensures (forall k :: 0 <= k <= |segs| ==> SamePlaceOf(segs[..k])) <==> Surefooted(segs)
  {
    if segs != [] {
      hide SamePlaceOf, Misstep, Fold;
      var n := |segs| - 1;
      var init := segs[..n];
      SamePlaceAlong(init);
      assert forall k :: 0 <= k <= n ==> init[..k] == segs[..k];
      assert segs[..|segs|] == segs == init + [segs[n]] && init[..n] == init;
      if SamePlaceOf(init) {
        OneMoreSegment(init, segs[n]);
      }
    } else {
      assert segs[..0] == [];
      StartsTogether();
    }
  }

  lemma StartsTogether()
    ensures SamePlaceOf([])
  {
  }

  /** Both places are the root after the first j segments, and no step from there on is a misstep. */
  predicate MeetAtRoot(segs: seq<string>, j: nat)
    requires j <= |segs|
  {
    && Resolve([], segs[..j]) == [] && Resolve([], Fold([], segs[..j])) == []
    && forall k :: j <= k < |segs| ==> !Misstep(Fold([], segs[..k]), segs[k])
  }

  /** Once parted, the simplified form is deeper than the path, until they meet at the root. */
  predicate Parted(segs: seq<string>) {
    |Resolve([], Fold([], segs))| > |Resolve([], segs)|
  }

  lemma PartedStep(init: seq<string>, seg: string)
    requires Parted(init)
    ensures var segs := init + [seg];
            Parted(segs) || (Resolve([], segs) == [] && Resolve([], Fold([], segs)) == [])
  {
    hide Fold, Resolve, Push;
    FoldSnoc(init, seg);
    ResolveSnoc([], init, seg);
    FoldIsTidy([], init);
    PushFollows(Fold([], init), seg);
  }

  lemma FirstMisstep(init: seq<string>, seg: string)
    requires SamePlaceOf(init) && Misstep(Fold([], init), seg)
    ensures Parted(init + [seg])
  {
    hide Fold, Resolve;
    FoldSnoc(init, seg);
    ResolveSnoc([], init, seg);
    FoldIsTidy([], init);
    PushFollows(Fold([], init), seg);
    assert !Blank(seg);
    var place := Resolve([], init);
    assert Resolve([], Fold([], init + [seg])) == place && Enter(place, seg) == place[..|place| - 1];
  }

  lemma {:induction false} SameOrParted(segs: seq<string>)
    ensures SamePlaceOf(segs) || Parted(segs)
  {
    if segs != [] {
      var init, last := segs[..|segs| - 1], segs[|segs| - 1];
      assert segs == init + [last];
      SameOrParted(init);
      hide Fold, Resolve, Misstep;
      if !SamePlaceOf(init) {
        PartedStep(init, last);
      } else {
        OneMoreSegment(init, last);
        if Misstep(Fold([], init), last) { FirstMisstep(init, last); }
      }
    }
  }

  lemma MeetAtRootLater(init: seq<string>, seg: string, j: nat)
    requires j <= |init| && MeetAtRoot(init, j) && !Misstep(Fold([], init), seg)
    ensures MeetAtRoot(init + [seg], j)
  {
    hide Fold, Resolve, Misstep;
    var segs := init + [seg];
    assert segs[..j] == init[..j] && segs[..|init|] == init;
    forall k | j <= k < |segs| ensures !Misstep(Fold([], segs[..k]), segs[k]) {
      if k < |init| { assert segs[..k] == init[..k] && segs[k] == init[k]; }
    }
  }

  /** A path that leads to the same place after simplifying was at the root with it, and took no misstep since. */
  lemma {:induction false} SamePlaceMet(segs: seq<string>) returns (j: nat)
    requires SamePlaceOf(segs)
    ensures j <= |segs| && MeetAtRoot(segs, j)
  {
    if segs == [] {
      j := 0;
      assert segs[..0] == [];
      return;
    }
    var init, last := segs[..|segs| - 1], segs[|segs| - 1];
    assert segs == init + [last];
    hide Fold, Resolve, Misstep;
    SameOrParted(init);
    if SamePlaceOf(init) {
      OneMoreSegment(init, last);
      j := SamePlaceMet(init);
      MeetAtRootLater(init, last, j);
    } else {
      PartedStep(init, last);
      j := |segs|;
      assert segs[..j] == segs;
    }
  }

  lemma {:induction false} MetIsSamePlace(segs: seq<string>, j: nat)
    requires j <= |segs| && MeetAtRoot(segs, j)
    ensures SamePlaceOf(segs)
    decreases |segs|
  {
    hide Fold, Resolve, Misstep;
    if j == |segs| {
      assert segs[..j] == segs;
    } else {
      var init, last := segs[..|segs| - 1], segs[|segs| - 1];
      assert segs == init + [last] && init[..j] == segs[..j];
      forall k | j <= k < |init| ensures !Misstep(Fold([], init[..k]), init[k]) {
        assert init[..k] == segs[..k];
      }
      MetIsSamePlace(init, j);
      OneMoreSegment(init, last);
    }
  }

  /**
   Exactly when simplifying keeps the place: the path and its simplified form are both
   at the root at some point (perhaps the start), and from there on no ".." is spent on
   an empty or "." segment above the root.
   */
  lemma SamePlaceExactly(s: string)
    ensures Place(Simplified(s)) == Place(s) <==> exists j: nat :: j <= |Segments(s)| && MeetAtRoot(Segments(s), j)
  {
    var segs := Segments(s);
    SimplifiedIsTidy(s);
    if SamePlaceOf(segs) {
      var j := SamePlaceMet(segs);
    }
    if j: nat :| j <= |segs| && MeetAtRoot(segs, j) {
      MetIsSamePlace(segs, j);
    }
  }

  lemma {:induction false} FoldNames(segs: seq<string>)
    requires forall k :: 0 <= k < |segs| ==> !Blank(segs[k])
    ensures forall k :: 0 <= k < |Fold([], segs)| ==> !Blank(Fold([], segs)[k])
  {
    if segs != [] {
      var init := segs[..|segs| - 1];
      FoldNames(init);
      FoldSnoc(init, segs[|segs| - 1]);
      assert segs == init + [segs[|segs| - 1]];
    }
  }

  /** The result has no ".." except possibly first, and simplifying it again changes nothing. */
  lemma SimplifiedIsTidy(s: string)
    ensures Tidy(Segments(Simplified(s))) && Segments(Simplified(s)) == Fold([], Segments(s))
    ensures Root(Simplified(s)) == Root(s) && Simplified(Simplified(s)) == Simplified(s)
  {
    var stack := Fold([], Segments(s));
    FoldIsTidy([], Segments(s));
    SegmentsPlain(s);
    FoldPlain([], Segments(s));
    RootPlain(s);
    NoBackslash(Root(s));
    SplitAt(Root(s), Unparse(stack));
    UnparsedBack(stack);
    assert [] + stack == stack;
    FoldOfTidy([], stack);
  }

  /** Exactly the paths without ".." after the first segment are left as they are. */
  lemma LeftAloneExactly(s: string)
    ensures Simplified(s) == s <==> forall k :: 1 <= k < |Segments(s)| ==> Segments(s)[k] != ".."
  {
    SimplifiedIsTidy(s);
    if Tidy(Segments(s)) {
      assert [] + Segments(s) == Segments(s);
      FoldOfTidy([], Segments(s));
      Reassembled(s);
    }
  }

  /** A beginning of the path can be simplified first. */
  lemma InSteps(u: string, v: string)
    requires v == "" || v[0] == '\\'
    ensures Simplified(u + v) == Simplified(Simplified(u) + v)
  {
    hide Root, Segments, Unparse, Fold;
    var stack := Fold([], Segments(u));
    SimplifiedIsTidy(u);
    SplitAt(u, v);
    SplitAt(Simplified(u), v);
    FoldAppend([], Segments(u), Segments(v));
    FoldAppend([], stack, Segments(v));
    assert [] + stack == stack;
    FoldOfTidy([], stack);
  }

  /** ".." after a name takes it back, and leaves the rest to be simplified as if both were not there. */
  lemma ParentTakesBack(root: string, segs: seq<string>, name: string)
    requires '\\' !in root && PlainSegments(segs) && '\\' !in name
    requires name != ".." && Tidy(segs)
    ensures Simplified(root + Unparse(segs + [name, ".."])) == root + Unparse(segs)
  {
    hide Root, Segments, Unparse, Fold;
    var all := segs + [name] + [".."];
    assert all == segs + [name, ".."];
    PlainAppend(segs, name);
    UnparsedBack(all);
    RootOfPlain(root);
    SplitAt(root, Unparse(all));
    assert [] + Segments(Unparse(all)) == all;
    FoldSnoc(segs + [name], "..");
    FoldSnoc(segs, name);
    assert [] + segs == segs;
    FoldOfTidy([], segs);
    assert Fold([], segs + [name]) == segs + [name];
    assert Fold([], all) == segs;
  }

  lemma PlainAppend(segs: seq<string>, name: string)
    requires PlainSegments(segs) && '\\' !in name
    ensures PlainSegments(segs + [name] + [".."])
  {
  }

  lemma RootOfPlain(root: string)
    requires '\\' !in root
    ensures Root(root) == root && Segments(root) == []
  {
    NoBackslash(root);
  }

  predicate PlainSegments(segs: seq<string>) {
    forall k :: 0 <= k < |segs| ==> '\\' !in segs[k]
  }

  lemma {:induction false} RootPlain(s: string)
    ensures '\\' !in Root(s)
  {
    if s != "" && s[0] != '\\' {
      RootPlain(s[1..]);
    }
  }

  lemma {:induction false} SegmentsPlain(s: string)
    ensures PlainSegments(Segments(s))
  {
    if s != "" {
      RootPlain(s[1..]);
      SegmentsPlain(s[1..]);
    }
  }

  lemma {:induction false} FoldPlain(stack: seq<string>, segs: seq<string>)
    requires PlainSegments(stack) && PlainSegments(segs)
    ensures PlainSegments(Fold(stack, segs))
    decreases |segs|
  {
    if segs != [] {
      FoldPlain(Push(stack, segs[0]), segs[1..]);
    }
  }

  lemma {:induction false} UnparsedBack(segs: seq<string>)
    requires PlainSegments(segs)
    ensures Suffix(Unparse(segs)) && Segments(Unparse(segs)) == segs
  {
    if segs != [] {
      UnparsedBack(segs[1..]);
      NoBackslash(segs[0]);
      SplitAt("\\" + segs[0], Unparse(segs[1..]));
      assert ("\\" + segs[0])[1..] == segs[0];
    }
  }

  /** A path without empty and "." segments still leads where it led. */
  lemma SamePlace(s: string)
    requires forall k :: 0 <= k < |Segments(s)| ==> !Blank(Segments(s)[k])
    ensures Place(Simplified(s)) == Place(s)
  {
    var segs := Segments(s);
    forall k | 0 <= k < |segs| ensures !Misstep(Fold([], segs[..k]), segs[k]) {
      FoldNames(segs[..k]);
    }
    SamePlaceAlong(segs);
    assert segs[..|segs|] == segs;
    SimplifiedIsTidy(s);
  }

  /** With a "." segment the place can change. */
  lemma DotChangesPlace(root: string, name: string)
    requires '\\' !in root && '\\' !in name && !Blank(name) && name != ".."
    ensures Place(Simplified(root + Unparse([name, ".", ".."]))) == [name]
    ensures Place(root + Unparse([name, ".", ".."])) == []
  {
    var segs := [name, ".", ".."];
    var s := root + Unparse(segs);
    UnparsedBack(segs);
    NoBackslash(root);
    SplitAt(root, Unparse(segs));
    SimplifiedIsTidy(s);
    FoldSnoc([], name);
    FoldSnoc([name], ".");
    FoldSnoc([name, "."], "..");
    ResolveSnoc([], [], name);
    ResolveSnoc([], [name], ".");
    ResolveSnoc([], [name, "."], "..");
    assert [] + [name] == [name] && [name] + ["."] == [name, "."] && [name, "."] + [".."] == segs;
    assert Fold([], [name, "."]) == [name, "."] && [name, "."][..1] == [name];
    assert Resolve([], [name, "."]) == [name] && [name][..0] == [];
    assert Fold([], [name]) == [name] && Resolve([], [name]) == [name];
    assert Segments(s) == segs && Resolve([], Fold([], segs)) == [name];
  }
}
