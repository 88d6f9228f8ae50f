/**
 The two engines that run an agent workflow: the graph the worker compiles, and
 the older loop. What an agent answers is arbitrary, and a call may throw.
 */
module AgentWorkflow {
  import opened Prelude

  datatype Stage = ContextIndexing | Planning | Implementing | Testing | Reviewing | End

  /** `answer(stage, turn)`: whether the agent of that stage passes, if its call returns. The iteration limit need not be whole. */
  datatype Agents = Agents(limit: real, answer: (Stage, nat) -> Settlement<bool>)

  datatype Status = WaitingApproval | Failed

  datatype Visit = Visit(stage: Stage, passed: bool)

  /** State of a graph run. `turns` counts the visits to implementing and `visits` lists the calls that returned. */
  datatype Run = Run(stage: Stage, iteration: nat, testerPassed: bool, reviewerPassed: bool,
                     threw: bool, turns: nat, visits: seq<Visit>)

  const START := Run(ContextIndexing, 1, true, true, false, 0, [])

  predicate Done(s: Run) {
    s.stage == End || s.threw
  }

  // -------------------------------------------------------------- the graph

  function RouteTester(limit: real, s: Run): Stage {
    if s.testerPassed then Reviewing
    else if s.iteration as real >= limit then Reviewing
    else Implementing
  }

  function RouteReviewer(limit: real, s: Run): Stage {
    if s.reviewerPassed then End
    else if s.iteration as real >= limit then End
    else Implementing
  }

  /** One node of the graph, and the edge taken out of it. */
  function Next(agents: Agents, s: Run): Run
    requires !Done(s)
  {
    var turns := if s.stage == Implementing then s.turns + 1 else s.turns;
    match agents.answer(s.stage, turns)
    case Rejected => s.(threw := true, turns := turns)
    case Fulfilled(passed) =>
      var u := s.(turns := turns, visits := s.visits + [Visit(s.stage, passed)]);
      match s.stage
      case ContextIndexing => u.(stage := Planning)
      case Planning => u.(stage := Implementing)
      case Implementing => u.(stage := Testing)
      case Testing =>
        var v := u.(testerPassed := passed, iteration := if passed then s.iteration else s.iteration + 1);
        v.(stage := RouteTester(agents.limit, v))
      case Reviewing =>
        var v := u.(reviewerPassed := passed, iteration := if passed then s.iteration else s.iteration + 1);
        v.(stage := RouteReviewer(agents.limit, v))
  }

  /** The least whole number that is not below the limit. */
  function Ceiling(limit: real): int {
    -(-limit).Floor
  }

  lemma CeilingFine(limit: real, k: int)
    ensures k as real >= limit <==> k >= Ceiling(limit)
  {
  }

  function Rank(s: Run): nat {
    if s.threw then 0
    else match s.stage
      case ContextIndexing => 5
      case Planning => 4
      case Implementing => 3
      case Testing => 2
      case Reviewing => 1
      case End => 0
  }

  /** The whole run from a state: it ends, as every way back to implementing has raised the iteration below the limit. */
  function Finish(agents: Agents, s: Run): Run
    decreases Max(0, Ceiling(agents.limit) - s.iteration), Rank(s)
  {
    if Done(s) then s
    else
      var t := Next(agents, s);
      Finish(agents, t)
  }

  /** The turn in which a run makes its last visit to implementing, if nothing ends it before. */
  function LastTurn(limit: real): nat {
    if Ceiling(limit) <= 2 then 1 else Ceiling(limit) - 1
  }

  // ------------------------------------------- what every graph run satisfies

  ghost function ImplementingVisits(visits: seq<Visit>): nat {
    if visits == [] then 0
    else ImplementingVisits(visits[..|visits| - 1]) + if visits[|visits| - 1].stage == Implementing then 1 else 0
  }

  /** A review of a failing test is the last visit, and the run has ended. */
  ghost predicate LateDiagnosis(s: Run) {
    forall i {:trigger s.visits[i]} :: 0 <= i < |s.visits| - 1 && s.visits[i] == Visit(Testing, false) && s.visits[i + 1].stage == Reviewing ==>
      i + 2 == |s.visits| && s.stage == End
  }

  /** The stage is one an edge leads to from the last visit. */
  ghost predicate Follows(limit: real, s: Run) {
    if s.visits == [] then s.stage == ContextIndexing
    else
      var last := s.visits[|s.visits| - 1];
      match last.stage
      case ContextIndexing => s.stage == Planning
      case Planning => s.stage == Implementing
      case Implementing => s.stage == Testing
      case Testing => s.stage == Implementing || (s.stage == Reviewing && (last.passed || s.iteration as real >= limit))
      case Reviewing => s.stage == Implementing || s.stage == End
      case End => false
  }

  ghost predicate Sound(limit: real, s: Run) {
    && s.turns == ImplementingVisits(s.visits) + (if s.threw && s.stage == Implementing then 1 else 0)
    && Follows(limit, s)
    && LateDiagnosis(s)
  }

  lemma NextVisits(agents: Agents, s: Run)
    requires !Done(s)
    ensures var t := Next(agents, s);
            if t.threw then t.visits == s.visits && t.stage == s.stage
            else |t.visits| == |s.visits| + 1 && t.visits[..|s.visits|] == s.visits && t.visits[|s.visits|].stage == s.stage
  {
  }

  lemma NextFollows(agents: Agents, s: Run)
    requires Follows(agents.limit, s) && !Done(s)
    ensures Follows(agents.limit, Next(agents, s))
  {
  }

  lemma NextLate(agents: Agents, s: Run)
    requires Follows(agents.limit, s) && LateDiagnosis(s) && !Done(s)
    ensures LateDiagnosis(Next(agents, s))
  {
    NextVisits(agents, s);
    var t, n := Next(agents, s), |s.visits|;
    if !t.threw {
      assert forall i :: 0 <= i < n ==> t.visits[i] == t.visits[..n][i];
      if n > 0 && t.visits[n - 1] == Visit(Testing, false) && t.visits[n].stage == Reviewing {
        assert s.iteration as real >= agents.limit;
        assert t.stage == End;
      }
    }
  }

  lemma NextSound(agents: Agents, s: Run)
    requires Sound(agents.limit, s) && !Done(s)
    ensures Sound(agents.limit, Next(agents, s))
  {
    NextVisits(agents, s);
    NextFollows(agents, s);
    NextLate(agents, s);
  }

  ghost function Left(agents: Agents, s: Run): nat {
    Max(0, Ceiling(agents.limit) - s.iteration)
  }

  lemma OneNode(agents: Agents, s: Run) returns (t: Run)
    requires !Done(s)
    ensures t == Next(agents, s) && Finish(agents, s) == Finish(agents, t)
    ensures Left(agents, t) < Left(agents, s) || (Left(agents, t) == Left(agents, s) && Rank(t) < Rank(s))
  {
    t := Next(agents, s);
  }

  lemma {:induction false} FinishSound(agents: Agents, s: Run)
    requires Sound(agents.limit, s)
    ensures Sound(agents.limit, Finish(agents, s)) && Done(Finish(agents, s))
    decreases Left(agents, s), Rank(s)
  {
    if !Done(s) {
      NextSound(agents, s);
      var t := OneNode(agents, s);
      FinishSound(agents, t);
    }
  }

  /** Every run of the graph ends or throws; it ends right after a review, and reviews a failing test only then. */
  lemma GraphEnds(agents: Agents)
    ensures var f := Finish(agents, START);
            && Done(f)
            && f.turns == ImplementingVisits(f.visits) + (if f.threw && f.stage == Implementing then 1 else 0)
            && (f.stage == End ==> |f.visits| > 0 && f.visits[|f.visits| - 1].stage == Reviewing)
            && LateDiagnosis(f)
  {
    FinishSound(agents, START);
  }

  lemma {:induction false} FinishUnthrown(agents: Agents, s: Run)
    requires forall stage, turn :: agents.answer(stage, turn).Fulfilled?
    requires !s.threw
    ensures !Finish(agents, s).threw
    decreases Max(0, Ceiling(agents.limit) - s.iteration), Rank(s)
  {
    if !Done(s) {
      var t := OneNode(agents, s);
      FinishUnthrown(agents, t);
    }
  }

  // ------------------------------------------------------------ turn by turn

  /** The turn has the code written, and both the tester and the reviewer pass it. */
  predicate Passes(agents: Agents, turn: nat) {
    && agents.answer(Implementing, turn).Fulfilled?
    && agents.answer(Testing, turn).Fulfilled? && agents.answer(Testing, turn).value
    && agents.answer(Reviewing, turn).Fulfilled? && agents.answer(Reviewing, turn).value
  }

  /** The turn ends with changes asked for, by the tester or else by the reviewer. */
  predicate Returns(agents: Agents, turn: nat) {
    && agents.answer(Implementing, turn).Fulfilled?
    && agents.answer(Testing, turn).Fulfilled?
    && (agents.answer(Testing, turn).value ==>
          agents.answer(Reviewing, turn).Fulfilled? && !agents.answer(Reviewing, turn).value)
  }

  /** The first turn from `turn` up to `last` that does not ask for changes, or the one after the last. */
  function FirstStop(agents: Agents, turn: nat, last: nat): (stop: nat)
    requires turn <= last + 1
    ensures turn <= stop <= last + 1
    ensures forall k :: turn <= k < stop ==> Returns(agents, k)
    ensures stop <= last ==> !Returns(agents, stop)
    decreases last + 1 - turn
  {
    if turn == last + 1 || !Returns(agents, turn) then turn else FirstStop(agents, turn + 1, last)
  }

  predicate Begins(agents: Agents) {
    agents.answer(ContextIndexing, 0).Fulfilled? && agents.answer(Planning, 0).Fulfilled?
  }

  ghost predicate Approved(s: Run) {
    s.stage == End && s.testerPassed && s.reviewerPassed
  }

  /** At the start of a turn the iteration is the turn, and below the limit except in the first. */
  ghost predicate AtTurn(agents: Agents, s: Run, turn: nat) {
    && s.stage == Implementing && !s.threw
    && turn >= 1 && s.iteration == turn && s.turns == turn - 1
    && turn <= LastTurn(agents.limit)
  }

  /** A turn that asks for changes before the last leads to the next turn. */
  lemma TurnGoesOn(agents: Agents, s: Run, turn: nat) returns (t: Run)
    requires AtTurn(agents, s, turn) && turn < LastTurn(agents.limit) && Returns(agents, turn)
    ensures AtTurn(agents, t, turn + 1) && Finish(agents, s) == Finish(agents, t)
  {
    CeilingFine(agents.limit, turn + 1);
    t := OneNode(agents, s);
    assert t.stage == Testing && t.turns == turn && !t.threw;
    t := OneNode(agents, t);
    if agents.answer(Testing, turn).value {
      assert t.stage == Reviewing && t.turns == turn && !t.threw;
      t := OneNode(agents, t);
    }
  }

  /** A turn that is the last, or does not ask for changes, ends the run. */
  lemma TurnEnds(agents: Agents, s: Run, turn: nat)
    requires AtTurn(agents, s, turn) && (turn == LastTurn(agents.limit) || !Returns(agents, turn))
    ensures Finish(agents, s).turns == turn
    ensures Approved(Finish(agents, s)) <==> Passes(agents, turn)
  {
    CeilingFine(agents.limit, turn + 1);
    var t := OneNode(agents, s);
    if !t.threw {
      assert t.stage == Testing && t.turns == turn && t.iteration == turn;
      t := OneNode(agents, t);
      if !t.threw {
        assert t.stage == Reviewing && t.turns == turn;
        t := OneNode(agents, t);
      }
    }
    assert Done(t);
  }

  lemma {:induction false} TurnsFinish(agents: Agents, s: Run, turn: nat)
    requires AtTurn(agents, s, turn)
    ensures var f, stop := Finish(agents, s), FirstStop(agents, turn, LastTurn(agents.limit));
            && f.turns == Min(stop, LastTurn(agents.limit))
            && (Approved(f) <==> stop <= LastTurn(agents.limit) && Passes(agents, stop))
    decreases LastTurn(agents.limit) - turn
  {
    if turn < LastTurn(agents.limit) && Returns(agents, turn) {
      var t := TurnGoesOn(agents, s, turn);
      TurnsFinish(agents, t, turn + 1);
    } else {
      TurnEnds(agents, s, turn);
    }
  }

  /**
   The graph makes as many turns as it takes until one does not ask for changes,
   but no more than one below the limit (one, if the limit is below three), and
   it is approved iff the turn it stopped at passed.
   */
  lemma GraphTurns(agents: Agents)
    requires Begins(agents)
    ensures var f, last := Finish(agents, START), LastTurn(agents.limit);
            var stop := FirstStop(agents, 1, last);
            f.turns == Min(stop, last) && (Approved(f) <==> stop <= last && Passes(agents, stop))
  {
    var planning := Next(agents, START);
    assert planning.stage == Planning;
    var first := Next(agents, planning);
    assert Finish(agents, START) == Finish(agents, planning) == Finish(agents, first);
    TurnsFinish(agents, first, 1);
  }

  // --------------------------------------------------------------- the loop

  /** The loop engine: the run's status and the number of turns it began. */
  method RunLoop(agents: Agents) returns (status: Status, turns: nat)
    ensures status == LoopStatus(agents)
    ensures turns == if Begins(agents) then Min(FirstStop(agents, 1, LoopTurns(agents)), LoopTurns(agents)) else 0
  {
    status, turns := Failed, 0;
    if !agents.answer(ContextIndexing, 0).Fulfilled? || !agents.answer(Planning, 0).Fulfilled? {
      return;
    }
    var iteration := 1;
    while iteration as real <= agents.limit
      invariant turns == iteration - 1 <= LoopTurns(agents)
      invariant FirstStop(agents, 1, LoopTurns(agents)) == FirstStop(agents, iteration, LoopTurns(agents))
      decreases LoopTurns(agents) - turns
    {
      turns := iteration;
      if !agents.answer(Implementing, iteration).Fulfilled? {
        return;
      }
      var tester := agents.answer(Testing, iteration);
      if tester.Rejected? {
        return;
      }
      if tester.value {
        var reviewer := agents.answer(Reviewing, iteration);
        if reviewer.Rejected? {
          return;
        }
        if reviewer.value {
          status := WaitingApproval;
          return;
        }
      }
      iteration := iteration + 1;
    }
  }

  /** How many turns the loop has room for. */
  function LoopTurns(agents: Agents): nat {
    Max(0, agents.limit.Floor)
  }

  ghost function LoopStatus(agents: Agents): Status {
    var stop := FirstStop(agents, 1, LoopTurns(agents));
    if Begins(agents) && stop <= LoopTurns(agents) && Passes(agents, stop) then WaitingApproval else Failed
  }

  // -------------------------------------------------------- the two compared

  ghost predicate NeverThrows(agents: Agents) {
    forall stage, turn :: agents.answer(stage, turn).Fulfilled?
  }

  /** When no call throws, the loop asks for approval iff one of its turns passes. */
  lemma LoopApproves(agents: Agents)
    requires NeverThrows(agents)
    ensures LoopStatus(agents) == WaitingApproval <==> exists k :: 1 <= k <= LoopTurns(agents) && Passes(agents, k)
  {
    var stop := FirstStop(agents, 1, LoopTurns(agents));
    var tester, reviewer := agents.answer(Testing, stop), agents.answer(Reviewing, stop);
    assert tester.Fulfilled? && reviewer.Fulfilled?;
    assert stop <= LoopTurns(agents) ==> Passes(agents, stop);
    forall k: nat | Passes(agents, k)
      ensures stop <= k || k < 1
    {
      assert !Returns(agents, k);
    }
    assert Begins(agents);
  }

  /** What the worker reports once the graph has ended: it asks for approval without looking at the decisions. */
  ghost function GraphStatus(agents: Agents): Option<Status> {
    if Finish(agents, START).stage == End then Some(WaitingApproval) else None
  }

  /** When no call throws, the graph always asks for approval, so the engines report the same iff some turn of the loop passes. */
  lemma ReportsDiffer(agents: Agents)
    requires NeverThrows(agents)
    ensures GraphStatus(agents) == Some(WaitingApproval)
    ensures GraphStatus(agents) == Some(LoopStatus(agents)) <==>
            exists k :: 1 <= k <= LoopTurns(agents) && Passes(agents, k)
  {
    FinishUnthrown(agents, START);
    GraphEnds(agents);
    LoopApproves(agents);
  }

  lemma {:induction false} FirstStopShorter(agents: Agents, turn: nat, short: nat, long: nat)
    requires turn <= short + 1 && short <= long
    ensures FirstStop(agents, turn, short) == Min(FirstStop(agents, turn, long), short + 1)
    decreases short + 1 - turn
  {
    if turn <= short && Returns(agents, turn) {
      FirstStopShorter(agents, turn + 1, short, long);
    }
  }

  /** The loop has one turn more than the graph exactly when the limit is a whole number from two on. */
  lemma OneTurnMore(agents: Agents)
    requires agents.limit >= 1.0
    ensures LoopTurns(agents) == LastTurn(agents.limit)
                                 + if agents.limit >= 2.0 && agents.limit == agents.limit.Floor as real then 1 else 0
  {
    CeilingFine(agents.limit, agents.limit.Floor);
    CeilingFine(agents.limit, agents.limit.Floor + 1);
  }

  /** The engines approve the same work, unless the first turn to pass is the one the graph does not have. */
  lemma EnginesApproveAlike(agents: Agents)
    requires agents.limit >= 1.0 && Begins(agents)
    ensures (Approved(Finish(agents, START)) <==> LoopStatus(agents) == WaitingApproval) <==>
            !(var whole := agents.limit.Floor;
              && agents.limit == whole as real && whole >= 2
              && (forall k: nat :: 1 <= k < whole ==> Returns(agents, k))
              && Passes(agents, whole))
  {
    var last, all := LastTurn(agents.limit), LoopTurns(agents);
    OneTurnMore(agents);
    GraphTurns(agents);
    FirstStopShorter(agents, 1, last, all);
    var stop := FirstStop(agents, 1, all);
    if all > last && (forall k: nat :: 1 <= k < all ==> Returns(agents, k)) && Passes(agents, all) {
      assert !Returns(agents, all);
      assert stop >= all;
    }
  }

  lemma {:induction false} AlwaysReturning(agents: Agents, turn: nat, last: nat)
    requires turn <= last + 1
    requires forall k :: Returns(agents, k)
    ensures FirstStop(agents, turn, last) == last + 1
    decreases last + 1 - turn
  {
    if turn <= last {
      AlwaysReturning(agents, turn + 1, last);
    }
  }

  /** The bound on the turns is reached by agents that always ask for changes. */
  lemma BoundIsReached(limit: real)
    requires limit >= 1.0
    ensures var agents := Agents(limit, (stage, turn) => Fulfilled(false));
            Finish(agents, START).stage == End && Finish(agents, START).turns == LastTurn(limit)
  {
    var agents := Agents(limit, (stage, turn) => Fulfilled(false));
    FinishUnthrown(agents, START);
    GraphEnds(agents);
    GraphTurns(agents);
    AlwaysReturning(agents, 1, LastTurn(limit));
  }

  /** The number of calls returned by the time of each stage, if every turn goes through all three of its stages. */
  function FullVisits(s: Run): int {
    var done := if s.threw && s.stage == Implementing then s.turns - 1 else s.turns;
    match s.stage
    case ContextIndexing => 3 * done
    case Planning => 3 * done + 1
    case Implementing => 3 * done + 2
    case Testing => 3 * done
    case Reviewing => 3 * done + 1
    case End => 3 * done + 2
  }

  lemma {:induction false} FinishVisits(agents: Agents, s: Run)
    requires |s.visits| <= FullVisits(s)
    ensures |Finish(agents, s).visits| <= FullVisits(Finish(agents, s))
    decreases Left(agents, s), Rank(s)
  {
    if !Done(s) {
      var t := OneNode(agents, s);
      FinishVisits(agents, t);
    }
  }

  /** Agents that pass everything but the review. */
  function NeverApproving(limit: real): Agents {
    Agents(limit, (stage, turn) => Fulfilled(stage != Reviewing))
  }

  lemma {:induction false} FinishFullVisits(limit: real, s: Run)
    requires !s.threw && |s.visits| == FullVisits(s)
    ensures |Finish(NeverApproving(limit), s).visits| == FullVisits(Finish(NeverApproving(limit), s))
    decreases Left(NeverApproving(limit), s), Rank(s)
  {
    if !Done(s) {
      var t := OneNode(NeverApproving(limit), s);
      var turns := if s.stage == Implementing then s.turns + 1 else s.turns;
      var answer := NeverApproving(limit).answer(s.stage, turns);
      assert answer.Fulfilled? && answer.value == (s.stage != Reviewing);
      FinishFullVisits(limit, t);
    }
  }

  /** A graph run has at most three nodes for each turn and two before the first. */
  lemma VisitsAreBounded(agents: Agents)
    ensures |Finish(agents, START).visits| <= 3 * LastTurn(agents.limit) + 2
  {
    FinishVisits(agents, START);
    if Begins(agents) {
      GraphTurns(agents);
    } else {
      var t := OneNode(agents, START);
      if !t.threw {
        assert t.stage == Planning && t.turns == 0;
        t := OneNode(agents, t);
      }
      assert t.threw && t.turns == 0;
    }
  }

  /** And that many if every review asks for changes, so a library that stops a run after fewer nodes cuts it off. */
  lemma VisitsBoundIsReached(limit: real)
    requires limit >= 1.0
    ensures Finish(NeverApproving(limit), START).stage == End
    ensures |Finish(NeverApproving(limit), START).visits| == 3 * LastTurn(limit) + 2
  {
    var agents := NeverApproving(limit);
    FinishFullVisits(limit, START);
    FinishUnthrown(agents, START);
    GraphEnds(agents);
    GraphTurns(agents);
    AlwaysReturning(agents, 1, LastTurn(limit));
  }
}
