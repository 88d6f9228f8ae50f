/**
 Grouping a batch by a key, as the relay groups its rows by topic: one list per
 key, each in the order of the batch.
 */
module Grouping {
  import opened Prelude

  /** The elements of `s` whose key is `k`, in order. */
  function Matching<T, K(==)>(s: seq<T>, key: T -> K, k: K): seq<T> {
    if s == [] then []
    else Matching(s[..|s| - 1], key, k) + if key(s[|s| - 1]) == k then [s[|s| - 1]] else []
  }

  lemma {:induction false} MatchingMembers<T(!new), K(!new)>(s: seq<T>, key: T -> K, k: K)
    ensures forall x {:trigger x in Matching(s, key, k)} {:trigger x in s} :: x in Matching(s, key, k) <==> x in s && key(x) == k
  {
    if s != [] {
      MatchingMembers(s[..|s| - 1], key, k);
      assert s == s[..|s| - 1] + [s[|s| - 1]];
    }
  }

  lemma {:induction false} MatchingConcat<T(!new), K(!new)>(a: seq<T>, b: seq<T>, key: T -> K, k: K)
    ensures Matching(a + b, key, k) == Matching(a, key, k) + Matching(b, key, k)
  {
    if b == [] {
      assert a + b == a;
    } else {
      MatchingConcat(a, b[..|b| - 1], key, k);
      assert (a + b)[..|a + b| - 1] == a + b[..|b| - 1];
    }
  }

  lemma MatchingOne<T(!new), K(!new)>(s: seq<T>, x: T, key: T -> K, k: K)
    ensures Matching(s + [x], key, k) == Matching(s, key, k) + if key(x) == k then [x] else []
  {
    assert (s + [x])[..|s|] == s;
  }

  lemma {:induction false} MatchingTwice<T(!new), K(!new)>(s: seq<T>, key: T -> K, k: K, l: K)
    ensures Matching(Matching(s, key, k), key, l) == if k == l then Matching(s, key, k) else []
  {
    if s != [] {
      var before := Matching(s[..|s| - 1], key, k);
      MatchingTwice(s[..|s| - 1], key, k, l);
      MatchingOne(before, s[|s| - 1], key, l);
      assert before + [] == before;
    }
  }

  /** Grouping loses, invents and repeats nothing. */
  lemma {:induction false} GroupsArePartition<T(!new), K(!new)>(s: seq<T>, key: T -> K, k: K, x: T)
    ensures Count(Matching(s, key, k), x) == if key(x) == k then Count(s, x) else 0
  {
    if s != [] {
      var before := Matching(s[..|s| - 1], key, k);
      GroupsArePartition(s[..|s| - 1], key, k, x);
      CountAppend(before, s[|s| - 1], x);
      assert before + [] == before;
    }
  }

  lemma {:induction false} MatchingDistinct<T(!new), K(!new)>(s: seq<T>, key: T -> K, k: K)
    requires Distinct(s)
    ensures Distinct(Matching(s, key, k))
  {
    if s != [] {
      MatchingDistinct(s[..|s| - 1], key, k);
      MatchingMembers(s[..|s| - 1], key, k);
      var before := Matching(s[..|s| - 1], key, k);
      forall i | 0 <= i < |before|
        ensures before[i] != s[|s| - 1]
      {
        assert before[i] in before && before[i] in s[..|s| - 1];
      }
    }
  }

  /** The whole batch, group after group. */
  function Concatenated<T, K(==)>(s: seq<T>, key: T -> K, keys: seq<K>): seq<T> {
    if keys == [] then []
    else Concatenated(s, key, keys[..|keys| - 1]) + Matching(s, key, keys[|keys| - 1])
  }

  lemma {:induction false} ConcatenatedMembers<T(!new), K(!new)>(s: seq<T>, key: T -> K, keys: seq<K>)
    ensures forall x {:trigger x in Concatenated(s, key, keys)} {:trigger x in s} :: x in Concatenated(s, key, keys) <==> x in s && key(x) in keys
  {
    if keys != [] {
      var last := |keys| - 1;
      ConcatenatedMembers(s, key, keys[..last]);
      MatchingMembers(s, key, keys[last]);
      assert keys == keys[..last] + [keys[last]];
    }
  }

  lemma {:induction false} ConcatenatedDistinct<T(!new), K(!new)>(s: seq<T>, key: T -> K, keys: seq<K>)
    requires Distinct(s) && Distinct(keys)
    ensures Distinct(Concatenated(s, key, keys))
  {
    if keys != [] {
      var last := |keys| - 1;
      var before, group := Concatenated(s, key, keys[..last]), Matching(s, key, keys[last]);
      ConcatenatedDistinct(s, key, keys[..last]);
      ConcatenatedMembers(s, key, keys[..last]);
      MatchingMembers(s, key, keys[last]);
      MatchingDistinct(s, key, keys[last]);
      forall i, j | 0 <= i < |before| && 0 <= j < |group|
        ensures before[i] != group[j]
      {
        assert before[i] in before && group[j] in group;
      }
    }
  }

  /** Taken key by key, the concatenation gives back each group of the batch unchanged. */
  lemma {:induction false} ConcatenatedGroups<T(!new), K(!new)>(s: seq<T>, key: T -> K, keys: seq<K>, k: K)
    requires Distinct(keys)
    ensures Matching(Concatenated(s, key, keys), key, k) == if k in keys then Matching(s, key, k) else []
  {
    if keys != [] {
      var rest, last := keys[..|keys| - 1], keys[|keys| - 1];
      LastKey(keys, rest, last, k);
      ConcatenatedGroups(s, key, rest, k);
      MatchingConcat(Concatenated(s, key, rest), Matching(s, key, last), key, k);
      MatchingTwice(s, key, last, k);
      OneGroup(Matching(Concatenated(s, key, rest), key, k), Matching(Matching(s, key, last), key, k));
    }
  }

  lemma LastKey<K(!new)>(keys: seq<K>, rest: seq<K>, last: K, k: K)
    requires keys != [] && rest == keys[..|keys| - 1] && last == keys[|keys| - 1] && Distinct(keys)
    ensures k in keys <==> k in rest || k == last
    ensures last !in rest && Distinct(rest)
  {
    assert keys == rest + [last];
  }

  lemma OneGroup<T(!new)>(a: seq<T>, b: seq<T>)
    ensures a == [] ==> a + b == b
    ensures b == [] ==> a + b == a
  {
  }

  function GroupOf<T, K(==)>(groups: map<K, seq<T>>, k: K): seq<T> {
    if k in groups then groups[k] else []
  }

  /** The groups one after the other, in the order of `keys`. */
  function Flatten<T, K(==)>(keys: seq<K>, groups: map<K, seq<T>>): seq<T> {
    if keys == [] then [] else Flatten(keys[..|keys| - 1], groups) + GroupOf(groups, keys[|keys| - 1])
  }

  /** `k` is the key of an element before any element has the key `l`. */
  ghost predicate AppearsBefore<T(!new), K(!new)>(s: seq<T>, key: T -> K, k: K, l: K) {
    exists i :: 0 <= i < |s| && key(s[i]) == k && forall j :: 0 <= j <= i ==> key(s[j]) != l
  }

  lemma AppearsBeforeStill<T(!new), K(!new)>(s: seq<T>, x: T, key: T -> K, k: K, l: K)
    requires AppearsBefore(s, key, k, l)
    ensures AppearsBefore(s + [x], key, k, l)
  {
    var i :| 0 <= i < |s| && key(s[i]) == k && forall j :: 0 <= j <= i ==> key(s[j]) != l;
    var more := s + [x];
    assert key(more[i]) == k;
    assert forall j :: 0 <= j <= i ==> more[j] == s[j];
  }

  /** A key in the batch appears before one that is not in it. */
  lemma AppearsBeforeNew<T(!new), K(!new)>(s: seq<T>, key: T -> K, k: K, l: K)
    requires Matching(s, key, k) != [] && forall x :: x in s ==> key(x) != l
    ensures AppearsBefore(s, key, k, l)
  {
    MatchingMembers(s, key, k);
    var x := Matching(s, key, k)[0];
    assert x in Matching(s, key, k) && x in s;
    var i :| 0 <= i < |s| && s[i] == x;
    assert key(s[i]) == k;
    forall j | 0 <= j <= i
      ensures key(s[j]) != l
    {
      assert s[j] in s;
    }
  }

  ghost predicate InOrderOfAppearance<T(!new), K(!new)>(s: seq<T>, key: T -> K, keys: seq<K>) {
    forall a, b :: 0 <= a < b < |keys| ==> AppearsBefore(s, key, keys[a], keys[b])
  }

  /** The groups are those of the elements' keys, in the order of the elements. */
  ghost predicate GroupsMatch<T(!new), K(!new)>(s: seq<T>, key: T -> K, groups: map<K, seq<T>>) {
    forall k :: Matching(s, key, k) == GroupOf(groups, k)
  }

  ghost predicate KeysCover<T(!new), K(!new)>(s: seq<T>, key: T -> K, keys: seq<K>) {
    forall x :: x in s ==> key(x) in keys
  }

  /** The map has exactly these keys, and no empty group. */
  ghost predicate KeysMatch<T(!new), K(!new)>(keys: seq<K>, groups: map<K, seq<T>>) {
    && Distinct(keys)
    && (forall k :: k in groups <==> k in keys)
    && (forall k :: k in groups ==> groups[k] != [])
  }

  ghost predicate Grouped<T(!new), K(!new)>(s: seq<T>, key: T -> K, keys: seq<K>, groups: map<K, seq<T>>) {
    KeysMatch(keys, groups) && KeysCover(s, key, keys) && GroupsMatch(s, key, groups) && InOrderOfAppearance(s, key, keys)
  }

  /** The keys and the groups after one more element. */
  function MoreKeys<T, K(==)>(keys: seq<K>, groups: map<K, seq<T>>, k: K): seq<K> {
    if k in groups then keys else keys + [k]
  }

  function MoreGroups<T, K(==)>(groups: map<K, seq<T>>, k: K, x: T): map<K, seq<T>> {
    groups[k := GroupOf(groups, k) + [x]]
  }

  lemma KeysMatchMore<T(!new), K(!new)>(keys: seq<K>, groups: map<K, seq<T>>, k: K, x: T)
    requires KeysMatch(keys, groups)
    ensures KeysMatch(MoreKeys(keys, groups, k), MoreGroups(groups, k, x))
  {
  }

  lemma KeysCoverMore<T(!new), K(!new)>(s: seq<T>, x: T, key: T -> K, keys: seq<K>, groups: map<K, seq<T>>)
    requires KeysCover(s, key, keys) && KeysMatch(keys, groups)
    ensures KeysCover(s + [x], key, MoreKeys(keys, groups, key(x)))
  {
    var more := MoreKeys(keys, groups, key(x));
    assert forall k :: k in keys ==> k in more;
    assert key(x) in more;
  }

  lemma GroupsMatchMore<T(!new), K(!new)>(s: seq<T>, x: T, key: T -> K, groups: map<K, seq<T>>)
    requires GroupsMatch(s, key, groups)
    ensures GroupsMatch(s + [x], key, MoreGroups(groups, key(x), x))
  {
    forall k
      ensures Matching(s + [x], key, k) == GroupOf(MoreGroups(groups, key(x), x), k)
    {
      MatchingOne(s, x, key, k);
      assert Matching(s, key, k) == GroupOf(groups, k);
    }
  }

  lemma OldKeyAppears<T(!new), K(!new)>(s: seq<T>, key: T -> K, keys: seq<K>, groups: map<K, seq<T>>, k: K, l: K)
    requires KeysMatch(keys, groups) && KeysCover(s, key, keys) && GroupsMatch(s, key, groups)
    requires k in keys && l !in keys
    ensures AppearsBefore(s, key, k, l)
  {
    assert k in groups && Matching(s, key, k) == GroupOf(groups, k);
    AppearsBeforeNew(s, key, k, l);
  }

  lemma OrderMore<T(!new), K(!new)>(s: seq<T>, x: T, key: T -> K, keys: seq<K>, groups: map<K, seq<T>>)
    requires Grouped(s, key, keys, groups)
    ensures InOrderOfAppearance(s + [x], key, MoreKeys(keys, groups, key(x)))
  {
    var more := MoreKeys(keys, groups, key(x));
    forall a, b | 0 <= a < b < |more|
      ensures AppearsBefore(s + [x], key, more[a], more[b])
    {
      if b < |keys| {
        assert AppearsBefore(s, key, keys[a], keys[b]);
      } else {
        OldKeyAppears(s, key, keys, groups, keys[a], key(x));
      }
      AppearsBeforeStill(s, x, key, more[a], more[b]);
    }
  }

  lemma GroupedOneMore<T(!new), K(!new)>(s: seq<T>, x: T, key: T -> K, keys: seq<K>, groups: map<K, seq<T>>)
    requires Grouped(s, key, keys, groups)
    ensures Grouped(s + [x], key, MoreKeys(keys, groups, key(x)), MoreGroups(groups, key(x), x))
  {
    KeysMatchMore(keys, groups, key(x), x);
    KeysCoverMore(s, x, key, keys, groups);
    GroupsMatchMore(s, x, key, groups);
    OrderMore(s, x, key, keys, groups);
  }

  /**
   `groups.set(key, [...(groups.get(key) ?? []), x])` for every element: the
   lists are a stable partition of the batch, keys in order of first appearance.
   */
  method GroupBy<T(!new), K(==, !new)>(s: seq<T>, key: T -> K) returns (keys: seq<K>, groups: map<K, seq<T>>)
    ensures Grouped(s, key, keys, groups)
  {
    keys, groups := [], map[];
    for i := 0 to |s|
      invariant Grouped(s[..i], key, keys, groups)
    {
      var k := key(s[i]);
      assert s[..i + 1] == s[..i] + [s[i]];
      GroupedOneMore(s[..i], s[i], key, keys, groups);
      if k !in groups {
        keys := keys + [k];
      }
      groups := groups[k := GroupOf(groups, k) + [s[i]]];
    }
    assert s[..|s|] == s;
  }

  lemma {:induction false} FlattenIsConcatenated<T(!new), K(!new)>(s: seq<T>, key: T -> K, keys: seq<K>, groups: map<K, seq<T>>)
    requires GroupsMatch(s, key, groups)
    ensures Flatten(keys, groups) == Concatenated(s, key, keys)
  {
    if keys != [] {
      FlattenIsConcatenated(s, key, keys[..|keys| - 1], groups);
      assert Matching(s, key, keys[|keys| - 1]) == GroupOf(groups, keys[|keys| - 1]);
    }
  }

  /** Sending group after group sends every element once, and each key's elements in batch order. */
  lemma FlattenedBatch<T(!new), K(!new)>(s: seq<T>, key: T -> K, keys: seq<K>, groups: map<K, seq<T>>)
    requires Distinct(s) && Grouped(s, key, keys, groups)
    ensures var order := Flatten(keys, groups);
            && Distinct(order)
            && (forall x :: x in order <==> x in s)
            && (forall k :: Matching(order, key, k) == Matching(s, key, k))
  {
    FlattenIsConcatenated(s, key, keys, groups);
    ConcatenatedMembers(s, key, keys);
    ConcatenatedDistinct(s, key, keys);
    forall k
      ensures Matching(Concatenated(s, key, keys), key, k) == Matching(s, key, k)
    {
      ConcatenatedGroups(s, key, keys, k);
      assert Matching(s, key, k) == GroupOf(groups, k);
    }
  }

  /** Selecting by two keys in either order gives the same list. */
  lemma {:induction false} MatchingCommutes<T(!new), K(!new), L(!new)>(s: seq<T>, key: T -> K, k: K, other: T -> L, l: L)
    ensures Matching(Matching(s, key, k), other, l) == Matching(Matching(s, other, l), key, k)
  {
    if s != [] {
      var last := |s| - 1;
      MatchingCommutes(s[..last], key, k, other, l);
      MatchingOne(Matching(s[..last], key, k), s[last], other, l);
      MatchingOne(Matching(s[..last], other, l), s[last], key, k);
      var a, b := Matching(s[..last], key, k), Matching(s[..last], other, l);
      assert a + [] == a && b + [] == b;
    }
  }

  lemma {:induction false} MatchingAll<T(!new), K(!new)>(s: seq<T>, key: T -> K, k: K)
    requires forall x :: x in s ==> key(x) == k
    ensures Matching(s, key, k) == s
  {
    if s != [] {
      MatchingAll(s[..|s| - 1], key, k);
      assert s == s[..|s| - 1] + [s[|s| - 1]];
    }
  }

  lemma {:induction false} MatchingSameKeys<T(!new), K(!new)>(s: seq<T>, key: T -> K, other: T -> K, k: K)
    requires forall x :: key(x) == other(x)
    ensures Matching(s, key, k) == Matching(s, other, k)
  {
    if s != [] {
      MatchingSameKeys(s[..|s| - 1], key, other, k);
    }
  }
}
