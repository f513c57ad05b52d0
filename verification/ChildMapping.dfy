/**
 Merging the previous and the next children of a transition
 (client/src/web/components/Transition.js): JavaScript objects with keys in
 insertion order, the merge loops, and what happens to both orders.
 */
module ChildMapping {

  type Key = string

  /** An object whose keys are not array indices: they are listed in insertion order. */
  datatype Mapping<V> = Mapping(keys: seq<Key>, values: map<Key, V>) {
    ghost predicate Valid() {
      Distinct(keys) && forall k :: k in values <==> k in keys
    }

    /** Assigning to a property: a new key comes last, an old one stays where it is. */
    function Set(key: Key, value: V): (m: Mapping<V>)
      requires Valid()
      ensures m.Valid() && m.values == values[key := value]
    {
      Mapping(if key in values then keys else keys + [key], values[key := value])
    }
  }

  predicate Distinct(s: seq<Key>) {
    forall i, j :: 0 <= i < j < |s| ==> s[i] != s[j]
  }

  /** What is left of a list when only members of another are kept. */
  function Only(s: seq<Key>, of: seq<Key>): seq<Key> {
    if s == [] then []
    else Only(s[..|s| - 1], of) + (if s[|s| - 1] in of then [s[|s| - 1]] else [])
  }

  /** For lists without duplicates: the members of a occur in b, in the order of a. */
  predicate KeepsOrder(a: seq<Key>, b: seq<Key>) { Only(b, a) == a }

  // ---------- The merged order ----------

  /** The keys at the end of a list that the next mapping lacks. */
  function Run(prev: seq<Key>, next: seq<Key>): seq<Key> {
    if prev == [] || prev[|prev| - 1] in next then []
    else Run(prev[..|prev| - 1], next) + [prev[|prev| - 1]]
  }

  /** The keys only the previous mapping has that come right before a given key of it. */
  function Group(prev: seq<Key>, next: seq<Key>, key: Key): seq<Key> {
    if prev == [] then []
    else if prev[|prev| - 1] == key then Run(prev[..|prev| - 1], next)
    else Group(prev[..|prev| - 1], next, key)
  }

  function Blocks(prev: seq<Key>, next: seq<Key>, keys: seq<Key>): seq<Key> {
    if keys == [] then []
    else
      var key := keys[|keys| - 1];
      Blocks(prev, next, keys[..|keys| - 1]) + Group(prev, next, key) + [key]
  }

  function Order(prev: seq<Key>, next: seq<Key>): seq<Key> {
    Blocks(prev, next, next) + Run(prev, next)
  }

  // ---------- Lists ----------

  lemma {:induction false} OnlyAppend(a: seq<Key>, b: seq<Key>, of: seq<Key>)
    ensures Only(a + b, of) == Only(a, of) + Only(b, of)
  {
    if b == [] {
      assert a + b == a;
    } else {
      OnlyAppend(a, b[..|b| - 1], of);
      assert (a + b)[..|a + b| - 1] == a + b[..|b| - 1];
    }
  }

  lemma {:induction false} OnlyAll(s: seq<Key>, of: seq<Key>)
    requires forall k :: k in s ==> k in of
    ensures Only(s, of) == s
  {
    if s != [] {
      OnlyAll(s[..|s| - 1], of);
      assert s == s[..|s| - 1] + [s[|s| - 1]];
    }
  }

  lemma {:induction false} OnlyNone(s: seq<Key>, of: seq<Key>)
    requires forall k :: k in s ==> k !in of
    ensures Only(s, of) == []
  {
    if s != [] {
      OnlyNone(s[..|s| - 1], of);
    }
  }

  lemma {:induction false} OnlyCommutes(s: seq<Key>, a: seq<Key>, b: seq<Key>)
    ensures Only(Only(s, a), b) == Only(Only(s, b), a)
  {
    if s != [] {
      var init, last := s[..|s| - 1], s[|s| - 1];
      OnlyCommutes(init, a, b);
      OnlyAppend(Only(init, a), if last in a then [last] else [], b);
      OnlyAppend(Only(init, b), if last in b then [last] else [], a);
      OnlyOne(last, a);
      OnlyOne(last, b);
    }
  }

  lemma OnlyOne(key: Key, of: seq<Key>)
    ensures Only([key], of) == if key in of then [key] else []
    ensures Only([], of) == []
  {
    assert [key][..0] == [];
  }

  // ---------- Runs and groups ----------

  ghost predicate NoneFrom(prev: seq<Key>, next: seq<Key>, i: nat) {
    forall j :: i <= j < |prev| ==> prev[j] !in next
  }

  lemma {:induction false} RunWithin(prev: seq<Key>, next: seq<Key>)
    ensures forall key :: key in Run(prev, next) ==> key in prev && key !in next
  {
    if prev != [] && prev[|prev| - 1] !in next {
      RunWithin(prev[..|prev| - 1], next);
    }
  }

  lemma {:induction false} RunHas(prev: seq<Key>, next: seq<Key>, i: nat)
    requires Distinct(prev) && i < |prev|
    ensures prev[i] in Run(prev, next) <==> NoneFrom(prev, next, i)
  {
    var n := |prev| - 1;
    if prev[n] !in next && i < n {
      RunHas(prev[..n], next, i);
      assert NoneFrom(prev[..n], next, i) <==> NoneFrom(prev, next, i) by {
        assert forall j :: 0 <= j < n ==> prev[..n][j] == prev[j];
      }
    }
  }

  lemma {:induction false} RunDistinct(prev: seq<Key>, next: seq<Key>)
    requires Distinct(prev)
    ensures Distinct(Run(prev, next))
  {
    if prev != [] && prev[|prev| - 1] !in next {
      RunDistinct(prev[..|prev| - 1], next);
      RunWithin(prev[..|prev| - 1], next);
    }
  }

  lemma {:induction false} GroupIsRun(prev: seq<Key>, next: seq<Key>, i: nat)
    requires Distinct(prev) && i < |prev|
    ensures Group(prev, next, prev[i]) == Run(prev[..i], next)
  {
    if i < |prev| - 1 {
      GroupIsRun(prev[..|prev| - 1], next, i);
      assert prev[..|prev| - 1][..i] == prev[..i];
    }
  }

  lemma {:induction false} GroupOfOther(prev: seq<Key>, next: seq<Key>, key: Key)
    requires key !in prev
    ensures Group(prev, next, key) == []
  {
    if prev != [] {
      GroupOfOther(prev[..|prev| - 1], next, key);
    }
  }

  /** A key in a group stands before the group's key in prev, with no key of next from there on. */
  lemma GroupMember(prev: seq<Key>, next: seq<Key>, key: Key, member: Key) returns (i: nat, j: nat)
    requires Distinct(prev) && member in Group(prev, next, key)
    ensures i < j < |prev| && prev[i] == member && prev[j] == key
    ensures forall k :: i <= k < j ==> prev[k] !in next
  {
    if key !in prev {
      GroupOfOther(prev, next, key);
    }
    j :| 0 <= j < |prev| && prev[j] == key;
    GroupIsRun(prev, next, j);
    RunWithin(prev[..j], next);
    i :| 0 <= i < j && prev[..j][i] == member;
    RunHas(prev[..j], next, i);
    assert forall k :: i <= k < j ==> prev[..j][k] == prev[k];
  }

  lemma GroupsDisjoint(prev: seq<Key>, next: seq<Key>, a: Key, b: Key, member: Key)
    requires Distinct(prev) && a in next && b in next && a != b
    requires member in Group(prev, next, a)
    ensures member !in Group(prev, next, b)
  {
    hide Group;
    var i, j := GroupMember(prev, next, a, member);
    if member in Group(prev, next, b) {
      var k, l := GroupMember(prev, next, b, member);
    }
  }

  lemma GroupNotInRun(prev: seq<Key>, next: seq<Key>, key: Key, member: Key)
    requires Distinct(prev) && key in next && member in Group(prev, next, key)
    ensures member !in Run(prev, next)
  {
    hide Group, Run;
    var i, j := GroupMember(prev, next, key, member);
    RunHas(prev, next, i);
  }

  lemma GroupDistinct(prev: seq<Key>, next: seq<Key>, key: Key)
    requires Distinct(prev)
    ensures Distinct(Group(prev, next, key))
  {
    if key in prev {
      var i :| 0 <= i < |prev| && prev[i] == key;
      GroupIsRun(prev, next, i);
      RunDistinct(prev[..i], next);
    } else {
      GroupOfOther(prev, next, key);
    }
  }

  // ---------- Blocks ----------

  ghost predicate InGroups(prev: seq<Key>, next: seq<Key>, keys: seq<Key>, key: Key) {
    exists k :: k in keys && key in Group(prev, next, k)
  }

  lemma {:induction false} BlocksContain(prev: seq<Key>, next: seq<Key>, keys: seq<Key>, key: Key)
    ensures key in Blocks(prev, next, keys) <==> key in keys || InGroups(prev, next, keys, key)
  {
    if keys != [] {
      var init, last := keys[..|keys| - 1], keys[|keys| - 1];
      hide Group;
      BlocksContain(prev, next, init, key);
      assert keys == init + [last];
      BlocksSnoc(prev, next, keys);
      if InGroups(prev, next, init, key) {
        var k :| k in init && key in Group(prev, next, k);
        assert k in keys;
      }
      if InGroups(prev, next, keys, key) {
        var k :| k in keys && key in Group(prev, next, k);
        assert k in init || k == last;
      }
    }
  }

  lemma DistinctAppend(a: seq<Key>, b: seq<Key>)
    requires Distinct(a) && Distinct(b) && forall k :: k in a ==> k !in b
    ensures Distinct(a + b)
  {
    forall i, j | 0 <= i < j < |a + b| ensures (a + b)[i] != (a + b)[j] {
      if i < |a| <= j {
        assert a[i] in a && b[j - |a|] in b;
      }
    }
  }

  lemma {:induction false} BlocksDistinct(prev: seq<Key>, next: seq<Key>, keys: seq<Key>)
    requires Distinct(prev) && Distinct(keys) && forall k :: k in keys ==> k in next
    ensures Distinct(Blocks(prev, next, keys))
  {
    if keys != [] {
      var init, last := keys[..|keys| - 1], keys[|keys| - 1];
      hide Group, Blocks;
      BlocksDistinct(prev, next, init);
      var blocks, group := Blocks(prev, next, init), Group(prev, next, last);
      GroupDistinct(prev, next, last);
      forall k | k in blocks ensures k !in group && k != last {
        BlocksContain(prev, next, init, k);
        NotInGroup(prev, next, init, last, k);
      }
      if last in group {
        var i, j := GroupMember(prev, next, last, last);
      }
      DistinctAppend(blocks, group);
      DistinctAppend(blocks + group, [last]);
      BlocksSnoc(prev, next, keys);
    }
  }

  lemma BlocksSnoc(prev: seq<Key>, next: seq<Key>, keys: seq<Key>)
    requires keys != []
    ensures var key := keys[|keys| - 1];
            Blocks(prev, next, keys) == Blocks(prev, next, keys[..|keys| - 1]) + Group(prev, next, key) + [key]
  {
  }

  lemma NotInGroup(prev: seq<Key>, next: seq<Key>, init: seq<Key>, last: Key, key: Key)
    requires Distinct(prev) && last in next && last !in init && forall k :: k in init ==> k in next
    requires key in init || InGroups(prev, next, init, key)
    ensures key !in Group(prev, next, last) && key != last
  {
    hide Group;
    if key in init {
      if key in Group(prev, next, last) {
        var i, j := GroupMember(prev, next, last, key);
      }
    } else {
      var k :| k in init && key in Group(prev, next, k);
      GroupsDisjoint(prev, next, k, last, key);
      var i, j := GroupMember(prev, next, k, key);
    }
  }

  /** The merged order has no duplicates. */
  lemma OrderDistinct(prev: seq<Key>, next: seq<Key>)
    requires Distinct(prev) && Distinct(next)
    ensures Distinct(Order(prev, next))
  {
    hide Blocks, Run, Group;
    BlocksDistinct(prev, next, next);
    RunDistinct(prev, next);
    RunWithin(prev, next);
    var blocks, run := Blocks(prev, next, next), Run(prev, next);
    forall key | key in blocks ensures key !in run {
      BlocksContain(prev, next, next, key);
      if key !in next {
        var k :| k in next && key in Group(prev, next, k);
        GroupNotInRun(prev, next, k, key);
      }
    }
    DistinctAppend(blocks, run);
  }

  /** From any position of prev on, there is a next common key, or none until the end. */
  lemma FollowedBy(prev: seq<Key>, next: seq<Key>, i: nat) returns (j: nat)
    requires i < |prev| && prev[i] !in next
    ensures i < j <= |prev| && (j < |prev| ==> prev[j] in next)
    ensures forall k :: i <= k < j ==> prev[k] !in next
  {
    j := i + 1;
    while j < |prev| && prev[j] !in next
      invariant i < j <= |prev| && forall k :: i <= k < j ==> prev[k] !in next
    {
      j := j + 1;
    }
  }

  /** The merged order has exactly the keys of both. */
  lemma OrderIsUnion(prev: seq<Key>, next: seq<Key>, key: Key)
    requires Distinct(prev)
    ensures key in Order(prev, next) <==> key in prev || key in next
  {
    hide Blocks, Run, Group;
    BlocksContain(prev, next, next, key);
    RunWithin(prev, next);
    if key !in next {
      if key in prev {
        var i :| 0 <= i < |prev| && prev[i] == key;
        var j := FollowedBy(prev, next, i);
        RunHas(prev, next, i);
        if j < |prev| {
          GroupIsRun(prev, next, j);
          RunHas(prev[..j], next, i);
          assert prev[..j][i] == key;
          assert key in Group(prev, next, prev[j]);
        }
      } else if InGroups(prev, next, next, key) {
        var k :| k in next && key in Group(prev, next, k);
        var i, j := GroupMember(prev, next, k, key);
      }
    }
  }

  // ---------- What happens to the two orders ----------

  lemma GroupOnly(prev: seq<Key>, next: seq<Key>, key: Key)
    requires Distinct(prev)
    ensures Only(Group(prev, next, key), prev) == Group(prev, next, key)
    ensures Only(Group(prev, next, key), next) == []
  {
    hide Group, Only;
    var group := Group(prev, next, key);
    forall k | k in group ensures k in prev && k !in next {
      var i, j := GroupMember(prev, next, key, k);
    }
    OnlyAll(group, prev);
    OnlyNone(group, next);
  }

  lemma RunOnly(prev: seq<Key>, next: seq<Key>)
    ensures Only(Run(prev, next), prev) == Run(prev, next)
    ensures Only(Run(prev, next), next) == []
  {
    hide Run, Only;
    var run := Run(prev, next);
    RunWithin(prev, next);
    OnlyAll(run, prev);
    OnlyNone(run, next);
  }

  lemma OnlySnoc(keys: seq<Key>, of: seq<Key>)
    requires keys != []
    ensures var key := keys[|keys| - 1];
            Only(keys, of) == Only(keys[..|keys| - 1], of) + (if key in of then [key] else [])
  {
  }

  lemma {:induction false} BlocksOnlyNext(prev: seq<Key>, next: seq<Key>, keys: seq<Key>)
    requires Distinct(prev) && forall k :: k in keys ==> k in next
    ensures Only(Blocks(prev, next, keys), next) == keys
  {
    if keys != [] {
      hide Blocks, Group, Only;
      var init, key := keys[..|keys| - 1], keys[|keys| - 1];
      var blocks, group := Blocks(prev, next, init), Group(prev, next, key);
      assert keys == init + [key];
      assert key in next;
      BlocksOnlyNext(prev, next, init);
      calc {
        Only(Blocks(prev, next, keys), next);
        { BlocksSnoc(prev, next, keys); OnlyAppend(blocks + group, [key], next); OnlyOne(key, next); }
        Only(blocks + group, next) + [key];
        { OnlyAppend(blocks, group, next); GroupOnly(prev, next, key); }
        init + [] + [key];
      }
    } else {
      OnlyOne("", next);
    }
  }

  lemma {:induction false} BlocksOnlyPrev(prev: seq<Key>, next: seq<Key>, keys: seq<Key>)
    requires Distinct(prev)
    ensures Only(Blocks(prev, next, keys), prev) == Blocks(prev, next, Only(keys, prev))
  {
    if keys != [] {
      hide Blocks, Group, Only;
      var init, key := keys[..|keys| - 1], keys[|keys| - 1];
      var blocks, group, kept := Blocks(prev, next, init), Group(prev, next, key), Only(init, prev);
      BlocksOnlyPrev(prev, next, init);
      BlocksSnoc(prev, next, keys);
      OnlySnoc(keys, prev);
      OnlyAppend(blocks + group, [key], prev);
      OnlyAppend(blocks, group, prev);
      OnlyOne(key, prev);
      GroupOnly(prev, next, key);
      if key in prev {
        BlocksSnoc(prev, next, kept + [key]);
        assert (kept + [key])[..|kept|] == kept;
      } else {
        GroupOfOther(prev, next, key);
        assert kept + [] == kept;
      }
    }
  }

  /** The next order is always kept. */
  lemma NextOrderKept(prev: seq<Key>, next: seq<Key>)
    requires Distinct(prev)
    ensures KeepsOrder(next, Order(prev, next))
  {
    hide Blocks, Run, Only;
    BlocksOnlyNext(prev, next, next);
    RunOnly(prev, next);
    OnlyAppend(Blocks(prev, next, next), Run(prev, next), next);
  }

  lemma {:induction false} BlocksLater(prev: seq<Key>, next: seq<Key>, keys: seq<Key>)
    requires prev != [] && prev[|prev| - 1] !in keys
    ensures Blocks(prev, next, keys) == Blocks(prev[..|prev| - 1], next, keys)
  {
    if keys != [] {
      BlocksLater(prev, next, keys[..|keys| - 1]);
      assert keys[|keys| - 1] in keys;
    }
  }

  lemma {:induction false} OnlyMembers(s: seq<Key>, of: seq<Key>)
    ensures forall k :: k in Only(s, of) <==> k in s && k in of
  {
    if s != [] {
      OnlyMembers(s[..|s| - 1], of);
      assert s == s[..|s| - 1] + [s[|s| - 1]];
    }
  }

  lemma EndWithGroup(blocks: seq<Key>, run: seq<Key>, last: Key)
    ensures blocks + run + [last] + [] == (blocks + run) + [last] == blocks + (run + [last])
  {
  }

  /** The previous keys are the blocks of their common keys, then the last run. */
  lemma {:induction false} PrevIsBlocks(prev: seq<Key>, next: seq<Key>)
    requires Distinct(prev)
    ensures Blocks(prev, next, Only(prev, next)) + Run(prev, next) == prev
  {
    if prev != [] {
      var init, last := prev[..|prev| - 1], prev[|prev| - 1];
      var common := Only(init, next);
      hide Only, Blocks, Run, Group;
      PrevIsBlocks(init, next);
      OnlyMembers(init, next);
      OnlySnoc(prev, next);
      BlocksLater(prev, next, common);
      assert prev == init + [last];
      RunSnoc(prev, next);
      var blocks, run := Blocks(init, next, common), Run(init, next);
      if last in next {
        var more := common + [last];
        BlocksSnoc(prev, next, more);
        assert more[..|more| - 1] == common && more[|more| - 1] == last;
        GroupIsRun(prev, next, |init|);
        EndWithGroup(blocks, run, last);
      } else {
        assert common + [] == common;
        EndWithGroup(blocks, run, last);
      }
    }
  }

  lemma RunSnoc(prev: seq<Key>, next: seq<Key>)
    requires prev != []
    ensures var last := prev[|prev| - 1];
            Run(prev, next) == if last in next then [] else Run(prev[..|prev| - 1], next) + [last]
  {
  }

  /** The previous order is kept if and only if both list their common keys in the same order. */
  lemma PrevOrderKept(prev: seq<Key>, next: seq<Key>)
    requires Distinct(prev)
    ensures KeepsOrder(prev, Order(prev, next)) <==> Only(prev, next) == Only(next, prev)
  {
    hide Blocks, Run, Only;
    BlocksOnlyPrev(prev, next, next);
    RunOnly(prev, next);
    OnlyAppend(Blocks(prev, next, next), Run(prev, next), prev);
    PrevIsBlocks(prev, next);
    NextOrderKept(prev, next);
    OnlyCommutes(Order(prev, next), prev, next);
  }

  // ---------- Where the keys go that next lacks ----------

  lemma {:induction false} RunIsSlice(prev: seq<Key>, next: seq<Key>, h: nat, i: nat)
    requires h <= i <= |prev| && (h == 0 || prev[h - 1] in next)
    requires forall k :: h <= k < i ==> prev[k] !in next
    ensures Run(prev[..i], next) == prev[h..i]
    decreases i
  {
    if h < i {
      RunIsSlice(prev, next, h, i - 1);
      assert prev[..i][..i - 1] == prev[..i - 1];
      assert prev[h..i] == prev[h..i - 1] + [prev[i - 1]];
    }
  }

  /** The block of a key, wherever the key is. */
  lemma {:induction false} BlockOf(prev: seq<Key>, next: seq<Key>, keys: seq<Key>, key: Key) returns (before: seq<Key>)
    requires key in keys
    ensures before + Group(prev, next, key) + [key] <= Blocks(prev, next, keys)
  {
    var n := |keys| - 1;
    if keys[n] == key {
      before := Blocks(prev, next, keys[..n]);
    } else {
      before := BlockOf(prev, next, keys[..n], key);
    }
  }

  ghost predicate Consecutive(order: seq<Key>, part: seq<Key>) {
    exists before, after :: order == before + part + after
  }

  /**
   The keys that next lacks stay together, and right before the key of next that
   they came before, whatever next has put in front of it; the last ones come last.
   */
  lemma StaysInFrontOf(prev: seq<Key>, next: seq<Key>, h: nat, i: nat)
    requires Distinct(prev) && h <= i <= |prev| && (h == 0 || prev[h - 1] in next)
    requires (forall k :: h <= k < i ==> prev[k] !in next) && (i == |prev| || prev[i] in next)
    ensures var order := Order(prev, next);
            if i < |prev| then Consecutive(order, prev[h..i + 1])
            else |order| >= i - h && order[|order| - (i - h)..] == prev[h..]
  {
    hide Blocks, Group, Run;
    RunIsSlice(prev, next, h, i);
    if i < |prev| {
      var before := BlockOf(prev, next, next, prev[i]);
      GroupIsRun(prev, next, i);
      assert prev[h..i + 1] == prev[h..i] + [prev[i]];
      var order, part := Order(prev, next), prev[h..i + 1];
      assert before + prev[h..i] + [prev[i]] == before + part;
      assert order == before + part + order[|before| + |part|..];
    } else {
      assert prev[..i] == prev && prev[h..i] == prev[h..];
    }
  }

  // ---------- The loops ----------

  function Value<V>(prev: Mapping<V>, next: Mapping<V>, key: Key): V
    requires key in prev.values || key in next.values
  {
    if key in next.values then next.values[key] else prev.values[key]
  }

  ghost predicate TakesValues<V>(result: Mapping<V>, prev: Mapping<V>, next: Mapping<V>) {
    && result.Valid()
    && forall k :: k in result.values ==>
         (k in prev.values || k in next.values) && result.values[k] == Value(prev, next, k)
  }

  lemma FirstLoopStep(prev: seq<Key>, next: seq<Key>, i: nat)
    requires Distinct(prev) && i < |prev|
    ensures Run(prev[..i + 1], next) == if prev[i] in next then [] else Run(prev[..i], next) + [prev[i]]
    ensures Group(prev[..i], next, prev[i]) == []
    ensures forall k :: Group(prev[..i + 1], next, k) ==
                        if k == prev[i] then Run(prev[..i], next) else Group(prev[..i], next, k)
  {
    assert prev[..i + 1][..i] == prev[..i];
    GroupOfOther(prev[..i], next, prev[i]);
  }

  /** A new key goes to the end and takes its value from next if it can. */
  lemma SetKeeps<V>(result: Mapping<V>, prev: Mapping<V>, next: Mapping<V>, key: Key)
    requires TakesValues(result, prev, next) && key !in result.keys
    requires key in prev.values || key in next.values
    ensures var after := result.Set(key, Value(prev, next, key));
            TakesValues(after, prev, next) && after.keys == result.keys + [key]
  {
  }

  lemma NewKey(a: seq<Key>, b: seq<Key>, i: nat)
    requires Distinct(a + b) && i < |b|
    ensures b[i] !in a + b[..i]
  {
    var s := a + b;
    assert s[|a| + i] == b[i];
    assert a + b[..i] == s[..|a| + i];
  }

  /** The closure that the loops call for each pending key. */
  method AssignAll<V>(before: Mapping<V>, keys: seq<Key>, prev: Mapping<V>, next: Mapping<V>)
    returns (result: Mapping<V>)
    requires TakesValues(before, prev, next) && Distinct(before.keys + keys)
    requires forall k :: k in keys ==> k in prev.values || k in next.values
    ensures TakesValues(result, prev, next) && result.keys == before.keys + keys
  {
    hide Value, Distinct;
    result := before;
    for i := 0 to |keys|
      invariant TakesValues(result, prev, next) && result.keys == before.keys + keys[..i]
    {
      NewKey(before.keys, keys, i);
      SetKeeps(result, prev, next, keys[i]);
      hide TakesValues;
      result := result.Set(keys[i], Value(prev, next, keys[i]));
    }
  }

  lemma Members(prev: seq<Key>, next: seq<Key>, key: Key)
    requires Distinct(prev)
    ensures forall k :: k in Group(prev, next, key) || k in Run(prev, next) ==> k in prev
  {
    RunWithin(prev, next);
    forall k | k in Group(prev, next, key) ensures k in prev {
      var i, j := GroupMember(prev, next, key, k);
    }
  }

  /** The loop over the previous keys: which of them come right before which common key. */
  method Precede(prev: seq<Key>, next: seq<Key>) returns (preceding: map<Key, seq<Key>>, pending: seq<Key>)
    requires Distinct(prev)
    ensures pending == Run(prev, next)
    ensures forall k :: k in next ==> Group(prev, next, k) == if k in preceding then preceding[k] else []
  {
    preceding, pending := map[], [];
    hide Group, Run;
    assert prev[..0] == [];
    RunOfNone(next);
    for i := 0 to |prev|
      invariant pending == Run(prev[..i], next)
      invariant forall k :: k in next ==>
                            Group(prev[..i], next, k) == if k in preceding then preceding[k] else []
    {
      var key := prev[i];
      FirstLoopStep(prev, next, i);
      if key in next {
        if |pending| > 0 {
          preceding := preceding[key := pending];
          pending := [];
        }
      } else {
        pending := pending + [key];
      }
    }
    assert prev[..|prev|] == prev;
  }

  lemma RunOfNone(next: seq<Key>)
    ensures Run([], next) == [] && forall k :: Group([], next, k) == []
  {
  }

  lemma PrefixDistinct(a: seq<Key>, b: seq<Key>)
    requires Distinct(a + b)
    ensures Distinct(a)
  {
    assert forall i :: 0 <= i < |a| ==> (a + b)[i] == a[i];
  }

  /** What the second loop adds for its j-th key, and that it is all new. */
  lemma SecondLoopStep(prev: seq<Key>, next: seq<Key>, j: nat)
    requires Distinct(prev) && Distinct(next) && j < |next|
    ensures var before, group := Blocks(prev, next, next[..j]), Group(prev, next, next[j]);
            && Blocks(prev, next, next[..j + 1]) == before + group + [next[j]]
            && Distinct(before + group) && next[j] !in before + group
            && forall k :: k in group ==> k in prev
  {
    hide Blocks, Group;
    var upto := next[..j + 1];
    assert upto[..j] == next[..j] && upto[j] == next[j];
    BlocksDistinct(prev, next, upto);
    BlocksSnoc(prev, next, upto);
    Members(prev, next, next[j]);
    var before := Blocks(prev, next, next[..j]) + Group(prev, next, next[j]);
    PrefixDistinct(before, [next[j]]);
    NewKey(before, [next[j]], 0);
    assert before + [next[j]][..0] == before;
  }

  /**
   mergeChildMappings: the merged order, with the values of next wherever next has
   the key. NextOrderKept, PrevOrderKept and OrderIsUnion say what that order is.
   */
  method MergeChildMappings<V>(prev: Mapping<V>, next: Mapping<V>) returns (result: Mapping<V>)
    requires prev.Valid() && next.Valid()
    ensures result.Valid() && result.keys == Order(prev.keys, next.keys)
    ensures result.values == prev.values + next.values
  {
    hide Group, Run, Blocks, Value;
    var preceding, pending := Precede(prev.keys, next.keys);
    result := Mapping([], map[]);
    BlocksOfNone(prev.keys, next.keys);
    for j := 0 to |next.keys|
      invariant TakesValues(result, prev, next)
      invariant result.keys == Blocks(prev.keys, next.keys, next.keys[..j])
    {
      hide TakesValues, Distinct;
      var key := next.keys[j];
      SecondLoopStep(prev.keys, next.keys, j);
      if key in preceding {
        result := AssignAll(result, preceding[key], prev, next);
      }
      SetKeeps(result, prev, next, key);
      result := result.Set(key, Value(prev, next, key));
    }
    FinishMerge(prev, next, result);
    result := AssignAll(result, pending, prev, next);
    MergedValues(prev, next, result);
  }

  lemma BlocksOfNone(prev: seq<Key>, next: seq<Key>)
    ensures Blocks(prev, next, next[..0]) == []
  {
  }

  lemma FinishMerge<V>(prev: Mapping<V>, next: Mapping<V>, result: Mapping<V>)
    requires prev.Valid() && next.Valid()
    requires result.keys == Blocks(prev.keys, next.keys, next.keys[..|next.keys|])
    ensures result.keys + Run(prev.keys, next.keys) == Order(prev.keys, next.keys)
    ensures Distinct(result.keys + Run(prev.keys, next.keys))
    ensures forall k :: k in Run(prev.keys, next.keys) ==> k in prev.values
  {
    hide Blocks, Run;
    assert next.keys[..|next.keys|] == next.keys;
    OrderDistinct(prev.keys, next.keys);
    RunWithin(prev.keys, next.keys);
  }

  lemma MergedValues<V>(prev: Mapping<V>, next: Mapping<V>, result: Mapping<V>)
    requires prev.Valid() && next.Valid() && TakesValues(result, prev, next)
    requires result.keys == Order(prev.keys, next.keys)
    ensures result.values == prev.values + next.values
  {
    hide Order;
    forall k ensures k in result.values <==> k in prev.values || k in next.values {
      OrderIsUnion(prev.keys, next.keys, k);
    }
  }
}
