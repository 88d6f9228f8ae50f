/**
 The shared-counter scheduler `mapWithConcurrency`.

 Workers run between awaits without interruption, so a run of the scheduler is
 a sequence of two kinds of steps, in any order: a worker takes the next index
 and calls the mapper (or returns when the indices are used up), and a pending
 mapper call settles.
 */
module BoundedMap {
  import opened Prelude

  /** A number as the caller may pass it for the requested concurrency. */
  datatype JsNumber = NaN | PosInfinity | NegInfinity | Finite(r: real)

  /** Math.max(1, Math.min(n, Math.floor(requested) || 1)) */
  function Concurrency(n: nat, requested: JsNumber): (c: nat)
    requires n > 0
    ensures 1 <= c <= n
    ensures requested.Finite? && 1 <= requested.r.Floor <= n ==> c == requested.r.Floor
    ensures requested.PosInfinity? || (requested.Finite? && requested.r.Floor > n) ==> c == n
    ensures requested.NaN? || requested.NegInfinity? || (requested.Finite? && requested.r.Floor < 1) ==> c == 1
  {
    match requested
    case NaN => 1
    case PosInfinity => n
    case NegInfinity => 1
    case Finite(r) =>
      var whole := if r.Floor == 0 then 1 else r.Floor;
      Max(1, Min(n, whole))
  }

  datatype Worker = Ready | Awaiting(index: nat) | Returned | Threw(index: nat)

  /** `calls` is the history of the mapper calls, by index. */
  datatype State<R> = State(
    n: nat,
    next: nat,
    workers: seq<Worker>,
    results: seq<Option<R>>,
    calls: seq<nat>,
    failed: set<nat>)

  datatype Action<R> = Take(w: nat) | Settle(w: nat, outcome: Settlement<R>)

  ghost predicate Init<R>(s: State<R>, n: nat, c: nat) {
    && 1 <= c <= n
    && s == State(n, 0, seq(c, _ => Ready), seq(n, _ => None), [], {})
  }

  predicate Enabled<R>(s: State<R>, a: Action<R>) {
    && a.w < |s.workers|
    && match a
       case Take(w) => s.workers[w].Ready?
       case Settle(w, _) => s.workers[w].Awaiting? && s.workers[w].index < |s.results|
  }

  function Apply<R>(s: State<R>, a: Action<R>): State<R>
    requires Enabled(s, a)
  {
    match a
    case Take(w) =>
      if s.next >= s.n then
        s.(next := s.next + 1, workers := s.workers[w := Returned])
      else
        s.(next := s.next + 1,
           workers := s.workers[w := Awaiting(s.next)],
           calls := s.calls + [s.next])
    case Settle(w, outcome) =>
      var i := s.workers[w].index;
      match outcome
      case Fulfilled(v) =>
        s.(workers := s.workers[w := Ready], results := s.results[i := Some(v)])
      case Rejected =>
        s.(workers := s.workers[w := Threw(i)], failed := s.failed + {i})
  }

  ghost predicate Next<R(!new)>(s: State<R>, t: State<R>) {
    exists a :: Enabled(s, a) && t == Apply(s, a)
  }

  // ------------------------------------------------------------ invariant

  function Claimed<R>(s: State<R>): nat {
    if s.next < s.n then s.next else s.n
  }

  ghost predicate Waits<R>(s: State<R>, i: nat) {
    exists w :: 0 <= w < |s.workers| && s.workers[w] == Awaiting(i)
  }

  ghost predicate HasThrown<R>(s: State<R>, i: nat) {
    exists w :: 0 <= w < |s.workers| && s.workers[w] == Threw(i)
  }

  /** The mapper has been called once for every index of a prefix, in order. */
  ghost predicate CallsArePrefix<R>(s: State<R>) {
    && |s.calls| == Claimed(s)
    && forall k :: 0 <= k < |s.calls| ==> s.calls[k] == k
  }

  /** Every claimed index is done, failed or in flight, and only one of them. */
  ghost predicate Partitioned<R>(s: State<R>) {
    && |s.results| == s.n
    && (forall i: nat :: i < s.n ==> (s.results[i].Some? ==> i < s.next && i !in s.failed && !Waits(s, i)))
    && (forall i :: i in s.failed ==> i < Claimed(s) && !Waits(s, i) && HasThrown(s, i))
    && (forall i: nat :: Waits(s, i) ==> i < Claimed(s))
    && (forall i: nat :: i < Claimed(s) ==> s.results[i].Some? || i in s.failed || Waits(s, i))
  }

  ghost predicate WorkersAgree<R>(s: State<R>) {
    && (forall v, w :: 0 <= v < w < |s.workers| && s.workers[v].Awaiting? ==> s.workers[w] != s.workers[v])
    && (forall v, w :: 0 <= v < w < |s.workers| && s.workers[v].Threw? ==> s.workers[w] != s.workers[v])
    && (forall w :: 0 <= w < |s.workers| && s.workers[w].Threw? ==> s.workers[w].index in s.failed)
    && (forall w :: 0 <= w < |s.workers| && s.workers[w].Returned? ==> s.next >= s.n)
  }

  ghost predicate Inv<R>(s: State<R>) {
    1 <= |s.workers| <= s.n && CallsArePrefix(s) && Partitioned(s) && WorkersAgree(s)
  }

  lemma InitInv<R>(s: State<R>, n: nat, c: nat)
    requires Init(s, n, c)
    ensures Inv(s)
  {
  }

  lemma TakeInv<R>(s: State<R>, w: nat)
    requires Inv(s) && Enabled(s, Take(w))
    ensures Inv(Apply(s, Take(w)))
  {
    var t := Apply(s, Take(w));
    forall i: nat
      ensures Waits(t, i) <==> Waits(s, i) || (s.next < s.n && i == s.next)
      ensures HasThrown(s, i) ==> HasThrown(t, i)
    {
      if Waits(s, i) {
        var v :| 0 <= v < |s.workers| && s.workers[v] == Awaiting(i);
        assert t.workers[v] == Awaiting(i);
      }
      if s.next < s.n && i == s.next {
        assert t.workers[w] == Awaiting(i);
      }
      if HasThrown(s, i) {
        var v :| 0 <= v < |s.workers| && s.workers[v] == Threw(i);
        assert t.workers[v] == Threw(i);
      }
    }
    forall v | 0 <= v < |s.workers| && s.workers[v].Awaiting?
      ensures s.workers[v].index < s.next
    {
      assert Waits(s, s.workers[v].index);
    }
  }

  lemma SettleMoves<R>(s: State<R>, w: nat, outcome: Settlement<R>)
    requires WorkersAgree(s) && Enabled(s, Settle(w, outcome))
    ensures var t, done := Apply(s, Settle(w, outcome)), s.workers[w].index;
            && Waits(s, done)
            && (forall i: nat :: Waits(t, i) <==> Waits(s, i) && i != done)
            && (forall i: nat :: HasThrown(t, i) <==> HasThrown(s, i) || (outcome.Rejected? && i == done))
  {
    var t := Apply(s, Settle(w, outcome));
    var done := s.workers[w].index;
    forall i: nat
      ensures Waits(t, i) <==> Waits(s, i) && i != done
      ensures HasThrown(t, i) <==> HasThrown(s, i) || (outcome.Rejected? && i == done)
    {
      if Waits(s, i) && i != done {
        var v :| 0 <= v < |s.workers| && s.workers[v] == Awaiting(i);
        assert t.workers[v] == Awaiting(i);
      }
      if HasThrown(s, i) {
        var v :| 0 <= v < |s.workers| && s.workers[v] == Threw(i);
        assert t.workers[v] == Threw(i);
      }
      if outcome.Rejected? && i == done {
        assert t.workers[w] == Threw(i);
      }
    }
  }

  lemma SettleInv<R>(s: State<R>, w: nat, outcome: Settlement<R>)
    requires Inv(s) && Enabled(s, Settle(w, outcome))
    ensures Inv(Apply(s, Settle(w, outcome)))
  {
    SettleMoves(s, w, outcome);
  }

  lemma StepInv<R>(s: State<R>, a: Action<R>)
    requires Inv(s) && Enabled(s, a)
    ensures Inv(Apply(s, a))
  {
    match a
    case Take(w) => TakeInv(s, w);
    case Settle(w, outcome) => SettleInv(s, w, outcome);
  }

  // ------------------------------------------- what a finished run has done

  predicate Finished<R>(s: State<R>) {
    forall w :: 0 <= w < |s.workers| ==> s.workers[w].Returned? || s.workers[w].Threw?
  }

  /** Promise.all fulfils: every worker has returned. */
  predicate Resolved<R>(s: State<R>) {
    forall w :: 0 <= w < |s.workers| ==> s.workers[w].Returned?
  }

  /** If no worker threw, every index was mapped once and its result stored. */
  lemma ResolvedCoversAll<R>(s: State<R>)
    requires Inv(s) && Resolved(s)
    ensures |s.calls| == s.n && s.failed == {}
    ensures forall i :: 0 <= i < s.n ==> s.calls[i] == i && s.results[i].Some?
  {
    assert s.workers[0].Returned?;
    assert forall i :: i in s.failed ==> HasThrown(s, i);
    forall i: nat | i < s.n
      ensures s.results[i].Some?
    {
      assert !Waits(s, i);
    }
  }

  lemma ThrowersAreInjective(workers: seq<Worker>, k: nat) returns (indices: set<nat>)
    requires k <= |workers|
    requires forall w :: 0 <= w < k ==> workers[w].Threw?
    requires forall v, w :: 0 <= v < w < k ==> workers[w] != workers[v]
    ensures |indices| == k
    ensures forall i :: i in indices ==> exists w :: 0 <= w < k && workers[w] == Threw(i)
  {
    if k == 0 {
      indices := {};
    } else {
      var smaller := ThrowersAreInjective(workers, k - 1);
      indices := smaller + {workers[k - 1].index};
    }
  }

  /** With fewer failures than workers, every index is still attempted. */
  lemma FewFailuresStillCoverAll<R>(s: State<R>)
    requires Inv(s) && Finished(s) && |s.failed| < |s.workers|
    ensures |s.calls| == s.n
    ensures forall i :: 0 <= i < s.n ==> s.results[i].Some? || i in s.failed
  {
    if forall w :: 0 <= w < |s.workers| ==> s.workers[w].Threw? {
      var indices := ThrowersAreInjective(s.workers, |s.workers|);
      assert indices <= s.failed;
      SubsetSize(indices, s.failed);
      assert false;
    }
    forall i: nat | i < s.n
      ensures s.results[i].Some? || i in s.failed
    {
      assert !Waits(s, i);
    }
  }

  /** The indices whose mapper call is pending. */
  function InFlight(workers: seq<Worker>): set<nat> {
    set w | 0 <= w < |workers| && workers[w].Awaiting? :: workers[w].index
  }

  lemma {:induction false} InFlightBound(workers: seq<Worker>)
    ensures |InFlight(workers)| <= |workers|
  {
    if workers == [] {
      assert InFlight(workers) == {};
    } else {
      var last := |workers| - 1;
      InFlightBound(workers[..last]);
      var rest := InFlight(workers[..last]);
      if workers[last].Awaiting? {
        assert InFlight(workers) == rest + {workers[last].index};
      } else {
        assert InFlight(workers) == rest;
      }
    }
  }

  // ------------------------------------------------- every run is finite

  function Weight(w: Worker): nat {
    match w
    case Ready => 1
    case Awaiting(_) => 2
    case Returned => 0
    case Threw(_) => 0
  }

  function TotalWeight(workers: seq<Worker>): nat {
    if workers == [] then 0 else TotalWeight(workers[..|workers| - 1]) + Weight(workers[|workers| - 1])
  }

  lemma {:induction false} WeightUpdate(workers: seq<Worker>, w: nat, x: Worker)
    requires w < |workers|
    ensures TotalWeight(workers[w := x]) == TotalWeight(workers) - Weight(workers[w]) + Weight(x)
  {
    var last := |workers| - 1;
    var changed := workers[w := x];
    if w == last {
      assert changed[..last] == workers[..last];
    } else {
      WeightUpdate(workers[..last], w, x);
      assert changed[..last] == workers[..last][w := x];
    }
  }

  /** An upper bound on the number of steps left. */
  function StepsLeft<R>(s: State<R>): nat {
    3 * (s.n - Claimed(s)) + TotalWeight(s.workers)
  }

  lemma StepDecreases<R>(s: State<R>, a: Action<R>)
    requires Inv(s) && Enabled(s, a)
    ensures StepsLeft(Apply(s, a)) < StepsLeft(s)
  {
    var t := Apply(s, a);
    WeightUpdate(s.workers, a.w, t.workers[a.w]);
  }

  lemma {:induction false} WeightOfReady(c: nat)
    ensures TotalWeight(seq(c, _ => Ready)) == c
  {
    if c > 0 {
      WeightOfReady(c - 1);
      assert seq(c, _ => Ready)[..c - 1] == seq(c - 1, _ => Ready);
    }
  }

  /** A run: any interleaving of worker steps from the initial state. */
  ghost predicate IsRun<R(!new)>(run: seq<State<R>>, n: nat, c: nat) {
    && |run| > 0
    && Init(run[0], n, c)
    && forall k :: 0 <= k < |run| - 1 ==> Next(run[k], run[k + 1])
  }

  lemma {:induction false} RunInv<R(!new)>(run: seq<State<R>>, n: nat, c: nat, k: nat)
    requires IsRun(run, n, c) && k < |run|
    ensures Inv(run[k]) && run[k].n == n && |run[k].workers| == c
    ensures StepsLeft(run[k]) + k <= 3 * n + c
  {
    if k == 0 {
      WeightOfReady(c);
    } else {
      RunInv(run, n, c, k - 1);
      assert Next(run[k - 1], run[k - 1 + 1]);
      var a :| Enabled(run[k - 1], a) && run[k] == Apply(run[k - 1], a);
      StepInv(run[k - 1], a);
      StepDecreases(run[k - 1], a);
    }
  }

  /**
   Scheduler correctness over every interleaving: a run has at most 3n + c
   steps and can be continued until every worker is finished; at each state
   the calls made are exactly those for a prefix of the indices, in order and
   each once, the prefix splits into done, failed and in flight, and at most
   c calls are in flight.
   */
  lemma EveryInterleaving<R(!new)>(run: seq<State<R>>, n: nat, c: nat, k: nat)
    requires IsRun(run, n, c) && k < |run|
    ensures k <= 3 * n + c
    ensures !Finished(run[k]) ==> exists a :: Enabled(run[k], a)
    ensures CallsArePrefix(run[k]) && Partitioned(run[k])
    ensures |InFlight(run[k].workers)| <= c <= n
    ensures Finished(run[k]) && |run[k].failed| < c ==> |run[k].calls| == n
    ensures Resolved(run[k]) ==> forall i :: 0 <= i < n ==> run[k].results[i].Some?
  {
    RunInv(run, n, c, k);
    var s := run[k];
    InFlightBound(s.workers);
    if Finished(s) && |s.failed| < c {
      FewFailuresStillCoverAll(s);
    }
    if Resolved(s) {
      ResolvedCoversAll(s);
    }
    if !Finished(s) {
      var w :| 0 <= w < |s.workers| && !s.workers[w].Returned? && !s.workers[w].Threw?;
      if s.workers[w].Ready? {
        assert Enabled(s, Take(w));
      } else {
        assert Waits(s, s.workers[w].index);
        assert Enabled(s, Settle(w, Rejected));
      }
    }
  }

  // -------------------------------------------------- the method itself

  /** The variables that the workers share. */
  class Shared<R> {
    var nextIndex: nat
    const results: array<Option<R>>
    var workers: seq<Worker>
    var calls: seq<nat>
    var failed: set<nat>

    function Model(): State<R>
      reads this, results
    {
      State(results.Length, nextIndex, workers, results[..], calls, failed)
    }

    constructor (n: nat, c: nat)
      requires 1 <= c <= n
      ensures fresh(results) && Init(Model(), n, c)
    {
      nextIndex, workers, calls, failed := 0, seq(c, _ => Ready), [], {};
      results := new Option<R>[n](_ => None);
    }

    /** `const index = nextIndex++` and the test after it. */
    method TakeIndex(w: nat)
      requires Enabled(Model(), Take(w))
      modifies this
      ensures Model() == Apply(old(Model()), Take(w))
    {
      var index := nextIndex;
      nextIndex := nextIndex + 1;
      if index >= results.Length {
        workers := workers[w := Returned];
      } else {
        calls := calls + [index];
        workers := workers[w := Awaiting(index)];
      }
    }

    /** `results[index] = await mapper(...)` when the awaited call settles. */
    method SettleCall(w: nat, outcome: Settlement<R>)
      requires Enabled(Model(), Settle(w, outcome))
      modifies this, results
      ensures Model() == Apply(old(Model()), Settle(w, outcome))
    {
      var index := workers[w].index;
      match outcome {
        case Fulfilled(value) =>
          results[index] := Some(value);
          workers := workers[w := Ready];
        case Rejected =>
          failed := failed + {index};
          workers := workers[w := Threw(index)];
      }
    }
  }

  /** What the stored results and failures say when the mapper is `mapper`. */
  ghost predicate Answers<T, R>(items: seq<T>, mapper: (T, nat) -> Settlement<R>, s: State<R>) {
    && |items| == |s.results| == s.n
    && (forall i :: 0 <= i < s.n && s.results[i].Some? ==> mapper(items[i], i) == Fulfilled(s.results[i].value))
    && (forall i :: i in s.failed ==> i < s.n && mapper(items[i], i).Rejected?)
  }

  lemma StepAnswers<T, R>(items: seq<T>, mapper: (T, nat) -> Settlement<R>, s: State<R>, a: Action<R>)
    requires Inv(s) && Enabled(s, a) && Answers(items, mapper, s)
    requires a.Settle? ==> a.outcome == mapper(items[s.workers[a.w].index], s.workers[a.w].index)
    ensures Inv(Apply(s, a)) && Answers(items, mapper, Apply(s, a))
    ensures StepsLeft(Apply(s, a)) < StepsLeft(s)
  {
    StepInv(s, a);
    StepDecreases(s, a);
  }

  /** A finished run answers for all items: rejected exactly if some mapper call rejects. */
  lemma FinishedAnswers<T, R>(items: seq<T>, mapper: (T, nat) -> Settlement<R>, s: State<R>)
    requires Inv(s) && Finished(s) && Answers(items, mapper, s)
    ensures Resolved(s) <==> forall i :: 0 <= i < |items| ==> mapper(items[i], i).Fulfilled?
    ensures Resolved(s) ==> s.calls == seq(s.n, i => i)
    ensures Resolved(s) ==> forall i :: 0 <= i < s.n ==> s.results[i].Some? && mapper(items[i], i) == Fulfilled(s.results[i].value)
  {
    if Resolved(s) {
      ResolvedCoversAll(s);
    } else {
      var w :| 0 <= w < |s.workers| && !s.workers[w].Returned?;
      assert s.workers[w].index in s.failed;
    }
  }

  /** A worker runs until its next await. */
  method Resume<T, R>(shared: Shared<R>, w: nat, items: seq<T>, mapper: (T, nat) -> Settlement<R>)
    requires Inv(shared.Model()) && Answers(items, mapper, shared.Model())
    requires w < |shared.workers| && !shared.workers[w].Returned? && !shared.workers[w].Threw?
    modifies shared, shared.results
    ensures Inv(shared.Model()) && Answers(items, mapper, shared.Model())
    ensures StepsLeft(shared.Model()) < old(StepsLeft(shared.Model()))
  {
    ghost var before := shared.Model();
    if shared.workers[w].Ready? {
      StepAnswers(items, mapper, before, Take(w));
      shared.TakeIndex(w);
    } else {
      var index := shared.workers[w].index;
      assert Waits(before, index);
      var outcome := mapper(items[index], index);
      StepAnswers(items, mapper, before, Settle(w, outcome));
      shared.SettleCall(w, outcome);
    }
  }

  /**
   The scheduler run to quiescence. Which runnable worker moves next is chosen
   arbitrarily, so the postcondition covers every interleaving.
   */
  method MapWithConcurrency<T, R>(items: seq<T>, requested: JsNumber, mapper: (T, nat) -> Settlement<R>)
    returns (out: Settlement<seq<R>>, calls: seq<nat>)
    ensures out.Fulfilled? <==> forall i :: 0 <= i < |items| ==> mapper(items[i], i).Fulfilled?
    ensures out.Fulfilled? ==>
              && |out.value| == |items|
              && (forall i :: 0 <= i < |items| ==> mapper(items[i], i) == Fulfilled(out.value[i]))
              && calls == seq(|items|, i => i)
    ensures |calls| <= |items| && calls == seq(|calls|, i => i)
  {
    if |items| == 0 {
      return Fulfilled([]), [];
    }
    var c := Concurrency(|items|, requested);
    var shared := new Shared<R>(|items|, c);
    while !Finished(shared.Model())
      invariant fresh(shared) && fresh(shared.results)
      invariant Inv(shared.Model()) && Answers(items, mapper, shared.Model())
      decreases StepsLeft(shared.Model())
    {
      var w :| 0 <= w < |shared.workers| && !shared.workers[w].Returned? && !shared.workers[w].Threw?;
      Resume(shared, w, items, mapper);
    }
    FinishedAnswers(items, mapper, shared.Model());
    calls := shared.calls;
    if Resolved(shared.Model()) {
      var stored := shared.results[..];
      out := Fulfilled(seq(|items|, i requires 0 <= i < |stored| && stored[i].Some? => stored[i].value));
    } else {
      out := Rejected;
    }
  }
}
