/** Paths of a step relation, and the invariants they keep. */
module Paths {
  ghost predicate IsPath<S(!new)>(step: (S, S) -> bool, path: seq<S>, s: S, t: S) {
    && |path| > 0
    && path[0] == s
    && path[|path| - 1] == t
    && forall k :: 0 <= k < |path| - 1 ==> step(path[k], path[k + 1])
  }

  /** Some run of the system goes from `s` to `t`. */
  ghost predicate Leads<S(!new)>(step: (S, S) -> bool, s: S, t: S) {
    exists path :: IsPath(step, path, s, t)
  }

  lemma LeadsNowhere<S(!new)>(step: (S, S) -> bool, s: S)
    ensures Leads(step, s, s)
  {
    assert IsPath(step, [s], s, s);
  }

  lemma LeadsStep<S(!new)>(step: (S, S) -> bool, s: S, t: S, u: S)
    requires Leads(step, s, t) && step(t, u)
    ensures Leads(step, s, u)
  {
    var path :| IsPath(step, path, s, t);
    var longer := path + [u];
    forall k | 0 <= k < |longer| - 1
      ensures step(longer[k], longer[k + 1])
    {
      if k < |path| - 1 {
        assert step(path[k], path[k + 1]);
      }
    }
    assert IsPath(step, longer, s, u);
  }

  lemma {:induction false} LeadsOn<S(!new)>(step: (S, S) -> bool, s: S, t: S, path: seq<S>, u: S)
    requires Leads(step, s, t) && IsPath(step, path, t, u)
    ensures Leads(step, s, u)
    decreases |path|
  {
    if |path| > 1 {
      var shorter := path[..|path| - 1];
      LeadsOn(step, s, t, shorter, path[|path| - 2]);
      assert step(path[|path| - 2], path[|path| - 2 + 1]);
      LeadsStep(step, s, path[|path| - 2], u);
    }
  }

  lemma LeadsTransitive<S(!new)>(step: (S, S) -> bool, s: S, t: S, u: S)
    requires Leads(step, s, t) && Leads(step, t, u)
    ensures Leads(step, s, u)
  {
    var path :| IsPath(step, path, t, u);
    LeadsOn(step, s, t, path, u);
  }

  lemma {:induction false} PathKeeps<S(!new)>(step: (S, S) -> bool, inv: S -> bool, path: seq<S>, s: S, t: S)
    requires IsPath(step, path, s, t) && inv(s)
    requires forall a, b :: inv(a) && step(a, b) ==> inv(b)
    ensures inv(t)
    decreases |path|
  {
    if |path| > 1 {
      PathKeeps(step, inv, path[..|path| - 1], s, path[|path| - 2]);
      assert step(path[|path| - 2], path[|path| - 2 + 1]);
    }
  }

  /** What every step keeps holds at the end of every run. */
  lemma LeadsKeeps<S(!new)>(step: (S, S) -> bool, inv: S -> bool, s: S, t: S)
    requires Leads(step, s, t) && inv(s)
    requires forall a, b :: inv(a) && step(a, b) ==> inv(b)
    ensures inv(t)
  {
    var path :| IsPath(step, path, s, t);
    PathKeeps(step, inv, path, s, t);
  }
}
