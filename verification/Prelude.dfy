/** Small datatypes shared by every module. */
module Prelude {
  datatype Option<+T> = None | Some(value: T)

  /** How an awaited call ends: with a value, or by throwing. */
  datatype Settlement<+T> = Fulfilled(value: T) | Rejected

  function Min(a: int, b: int): int {
    if a <= b then a else b
  }

  function Max(a: int, b: int): int {
    if a >= b then a else b
  }

  predicate Increasing(ids: seq<nat>) {
    forall i, j :: 0 <= i < j < |ids| ==> ids[i] < ids[j]
  }

  predicate Distinct<T(==)>(s: seq<T>) {
    forall i, j :: 0 <= i < j < |s| ==> s[i] != s[j]
  }

  /** The positions of the elements that `picks` picks, in order. */
  function Positions<T>(s: seq<T>, picks: T -> bool): (ids: seq<nat>)
    ensures |ids| <= |s|
  {
    if s == [] then []
    else Positions(s[..|s| - 1], picks) + if picks(s[|s| - 1]) then [|s| - 1] else []
  }

  lemma {:induction false} PositionsFine<T>(s: seq<T>, picks: T -> bool)
    ensures Increasing(Positions(s, picks))
    ensures forall id: nat :: id in Positions(s, picks) <==> id < |s| && picks(s[id])
  {
    if s != [] {
      var front, last := s[..|s| - 1], |s| - 1;
      PositionsFine(front, picks);
      PositionsMore(Positions(front, picks), last);
      forall id: nat
        ensures id in Positions(s, picks) <==> id < |s| && picks(s[id])
      {
        assert id < last ==> front[id] == s[id];
        assert id in Positions(s, picks) <==> id in Positions(front, picks) || (id == last && picks(s[last]));
      }
    }
  }

  lemma PositionsMore(ids: seq<nat>, last: nat)
    requires Increasing(ids) && forall id :: id in ids ==> id < last
    ensures Increasing(ids + [last])
  {
    forall i | 0 <= i < |ids|
      ensures ids[i] < last
    {
      assert ids[i] in ids;
    }
  }

  function Picked<T>(s: seq<T>, picks: T -> bool): set<nat> {
    set id: nat | id < |s| && picks(s[id])
  }

  /** The ids are the first ones picked: as many as the limit allows, and none is left out before one of them. */
  ghost predicate TakesFirst<T>(s: seq<T>, picks: T -> bool, limit: nat, ids: seq<nat>) {
    && Increasing(ids)
    && (forall k :: 0 <= k < |ids| ==> ids[k] < |s| && picks(s[ids[k]]))
    && |ids| == (if |Picked(s, picks)| <= limit then |Picked(s, picks)| else limit)
    && forall id: nat, k :: 0 <= k < |ids| && id < ids[k] && id < |s| && picks(s[id]) ==> id in ids
  }

  /** `ORDER BY id LIMIT n` of the picked rows. */
  function FirstPositions<T>(s: seq<T>, picks: T -> bool, limit: nat): seq<nat> {
    var ids := Positions(s, picks);
    ids[..Min(limit, |ids|)]
  }

  function Ids(ids: seq<nat>): set<nat> {
    set i | i in ids
  }

  lemma {:induction false} IncreasingSize(ids: seq<nat>)
    requires Increasing(ids)
    ensures |Ids(ids)| == |ids|
  {
    if ids == [] {
      assert Ids(ids) == {};
    } else {
      var last := |ids| - 1;
      IncreasingSize(ids[..last]);
      assert ids == ids[..last] + [ids[last]];
      assert Ids(ids) == Ids(ids[..last]) + {ids[last]};
      assert ids[last] !in ids[..last];
    }
  }

  lemma FirstPositionsFine<T>(s: seq<T>, picks: T -> bool, limit: nat)
    ensures TakesFirst(s, picks, limit, FirstPositions(s, picks, limit))
  {
    var all, ids := Positions(s, picks), FirstPositions(s, picks, limit);
    PositionsFine(s, picks);
    IncreasingSize(all);
    assert Ids(all) == Picked(s, picks);
    forall k | 0 <= k < |ids|
      ensures ids[k] < |s| && picks(s[ids[k]])
    {
      assert ids[k] == all[k] && all[k] in all;
    }
    forall id: nat, k | 0 <= k < |ids| && id < ids[k] && id < |s| && picks(s[id])
      ensures id in ids
    {
      assert id in all;
      var j :| 0 <= j < |all| && all[j] == id;
      assert !(k < j);
      assert j <= k < |ids|;
    }
  }

  predicate IsDigit(c: char) {
    '0' <= c <= '9'
  }

  /** How often `x` occurs in `s`. */
  function Count<T(==)>(s: seq<T>, x: T): nat {
    if s == [] then 0 else Count(s[..|s| - 1], x) + if s[|s| - 1] == x then 1 else 0
  }

  lemma CountAppend<T>(s: seq<T>, y: T, x: T)
    ensures Count(s + [y], x) == Count(s, x) + if y == x then 1 else 0
  {
    assert (s + [y])[..|s|] == s;
  }

  lemma {:induction false} CountPositive<T>(s: seq<T>, x: T)
    ensures Count(s, x) > 0 <==> x in s
  {
    if s != [] {
      CountPositive(s[..|s| - 1], x);
      assert s == s[..|s| - 1] + [s[|s| - 1]];
    }
  }

  lemma {:induction false} CountConcat<T>(a: seq<T>, b: seq<T>, x: T)
    ensures Count(a + b, x) == Count(a, x) + Count(b, x)
  {
    if b == [] {
      assert a + b == a;
    } else {
      CountConcat(a, b[..|b| - 1], x);
      assert a + b == a + b[..|b| - 1] + [b[|b| - 1]];
      CountAppend(a + b[..|b| - 1], b[|b| - 1], x);
    }
  }

  /** The elements that `picks` picks, in order. */
  function Select(ids: seq<nat>, picks: nat -> bool): seq<nat> {
    if ids == [] then []
    else Select(ids[..|ids| - 1], picks) + if picks(ids[|ids| - 1]) then [ids[|ids| - 1]] else []
  }

  lemma SelectOneMore(ids: seq<nat>, k: nat, picks: nat -> bool)
    requires k < |ids|
    ensures Select(ids[..k + 1], picks) == Select(ids[..k], picks) + if picks(ids[k]) then [ids[k]] else []
  {
    assert ids[..k + 1][..k] == ids[..k];
  }

  lemma LastOfIncreasing(ids: seq<nat>, front: seq<nat>, last: nat, id: nat)
    requires ids != [] && Increasing(ids) && front == ids[..|ids| - 1] && last == ids[|ids| - 1]
    ensures Increasing(front) && last !in front
    ensures id in ids <==> id in front || id == last
  {
    assert ids == front + [last];
  }

  lemma {:induction false} SelectCount(ids: seq<nat>, picks: nat -> bool, id: nat)
    requires Increasing(ids)
    ensures Count(Select(ids, picks), id) == if id in ids && picks(id) then 1 else 0
  {
    if ids != [] {
      var front, last := ids[..|ids| - 1], ids[|ids| - 1];
      LastOfIncreasing(ids, front, last, id);
      SelectCount(front, picks, id);
      var before := Select(front, picks);
      if picks(last) {
        CountAppend(before, last, id);
        assert Select(ids, picks) == before + [last];
      } else {
        assert Select(ids, picks) == before;
      }
    }
  }

  lemma SubsetSize<T>(a: set<T>, b: set<T>)
    requires a <= b
    ensures |a| <= |b|
  {
    if a != {} {
      var x :| x in a;
      SubsetSize(a - {x}, b - {x});
    }
  }
}
