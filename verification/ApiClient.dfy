/**
 The browser's API client between its awaits: requests that meet a 401 either
 start a refresh of the session or are parked until one ends.
 */
module ApiClient {
  import opened Prelude
  import opened Paths

  /** What a fetch comes to: a good response, a 401, or any other failure. */
  datatype Answer = Good | Unauthorized | Bad

  datatype Outcome = Got(path: string) | Failed

  /** Where a call of `apiRequest` waits. `Retrying` and `Following` wait for the request with that number. */
  datatype Phase = Fetching | Refreshing | Retrying(child: nat) | Parked | Following(child: nat) | Done(outcome: Outcome)

  /** `parkings` and `settlements` count how often the request was parked, and its parked promise resolved or rejected. */
  datatype Request = Request(path: string, phase: Phase, parkings: nat, settlements: nat)

  datatype State = State(isRefreshing: bool, failedQueue: seq<nat>, requests: seq<Request>)

  datatype Action =
    | Call(path: string)
    | Respond(id: nat, answer: Answer)
    | RefreshEnds(id: nat, ok: bool)
    | RetryEnds(id: nat)
    | FollowEnds(id: nat)

  const INIT := State(false, [], [])

  function NewRequest(path: string): Request {
    Request(path, Fetching, 0, 0)
  }

  function InPhase(requests: seq<Request>, id: nat, phase: Phase): (changed: seq<Request>)
    requires id < |requests|
    ensures |changed| == |requests|
  {
    requests[id := requests[id].(phase := phase)]
  }

  // ----------------------------------------------------------- processQueue

  /** Settles one parked promise: with a new request for the same path, or with the failure. */
  function SettleParked(requests: seq<Request>, id: nat, success: bool): (settled: seq<Request>)
    requires id < |requests|
    ensures |settled| == |requests| + if success then 1 else 0
  {
    var was := requests[id];
    if success then
      requests[id := was.(phase := Following(|requests|), settlements := was.settlements + 1)] + [NewRequest(was.path)]
    else
      requests[id := was.(phase := Done(Failed), settlements := was.settlements + 1)]
  }

  function ProcessQueue(requests: seq<Request>, queue: seq<nat>, success: bool): (settled: seq<Request>)
    requires forall k :: 0 <= k < |queue| ==> queue[k] < |requests|
    ensures |settled| == |requests| + if success then |queue| else 0
  {
    if queue == [] then requests
    else
      var before := ProcessQueue(requests, queue[..|queue| - 1], success);
      SettleParked(before, queue[|queue| - 1], success)
  }

  // ------------------------------------------------------------------ steps

  predicate Is(s: State, id: nat, phase: Phase) {
    id < |s.requests| && s.requests[id].phase == phase
  }

  predicate Ended(s: State, id: nat) {
    id < |s.requests| && s.requests[id].phase.Done?
  }

  predicate Enabled(s: State, a: Action) {
    match a
    case Call(_) => true
    case Respond(id, _) => Is(s, id, Fetching)
    case RefreshEnds(id, _) => Is(s, id, Refreshing)
    case RetryEnds(id) => id < |s.requests| && s.requests[id].phase.Retrying? && Ended(s, s.requests[id].phase.child)
    case FollowEnds(id) => id < |s.requests| && s.requests[id].phase.Following? && Ended(s, s.requests[id].phase.child)
  }

  predicate QueueExists(s: State) {
    forall k :: 0 <= k < |s.failedQueue| ==> s.failedQueue[k] < |s.requests|
  }

  function Unauthorised(s: State, id: nat): State
    requires Is(s, id, Fetching)
  {
    if s.isRefreshing then
      s.(failedQueue := s.failedQueue + [id],
         requests := s.requests[id := s.requests[id].(phase := Parked, parkings := s.requests[id].parkings + 1)])
    else
      s.(isRefreshing := true, requests := InPhase(s.requests, id, Refreshing))
  }

  /** The flag is cleared, the queue resolved, and the request sent again. */
  function Refreshed(s: State, id: nat): State
    requires Is(s, id, Refreshing) && QueueExists(s)
  {
    var woken := ProcessQueue(s.requests, s.failedQueue, true);
    State(false, [], InPhase(woken, id, Retrying(|woken|)) + [NewRequest(woken[id].path)])
  }

  /** The flag is cleared, the queue rejected, and the call throws. */
  function GivesUp(s: State, id: nat): State
    requires id < |s.requests| && QueueExists(s)
  {
    State(false, [], InPhase(ProcessQueue(s.requests, s.failedQueue, false), id, Done(Failed)))
  }

  function Apply(s: State, a: Action): State
    requires Enabled(s, a) && QueueExists(s)
  {
    match a
    case Call(path) => s.(requests := s.requests + [NewRequest(path)])
    case Respond(id, answer) =>
      (match answer
       case Good => s.(requests := InPhase(s.requests, id, Done(Got(s.requests[id].path))))
       case Unauthorized => Unauthorised(s, id)
       case Bad => s.(requests := InPhase(s.requests, id, Done(Failed))))
    case RefreshEnds(id, ok) => if ok then Refreshed(s, id) else GivesUp(s, id)
    case RetryEnds(id) =>
      var outcome := s.requests[s.requests[id].phase.child].phase.outcome;
      if outcome == Failed then GivesUp(s, id) else s.(requests := InPhase(s.requests, id, Done(outcome)))
    case FollowEnds(id) =>
      s.(requests := InPhase(s.requests, id, Done(s.requests[s.requests[id].phase.child].phase.outcome)))
  }

  ghost predicate Step(s: State, t: State) {
    QueueExists(s) && exists a :: Enabled(s, a) && t == Apply(s, a)
  }

  // -------------------------------------------------------------- invariant

  /** The request was parked at most once, and settled as often unless it is parked now. */
  ghost predicate SettledOnce(r: Request) {
    r.parkings <= 1 && r.settlements == (if r.phase == Parked then 0 else r.parkings)
    && (r.phase == Parked ==> r.parkings == 1)
    && (r.phase == Fetching ==> r.parkings == 0)
  }

  /** A request waits for a later one with its own path, and ends with a response to its own path. */
  ghost predicate Linked(requests: seq<Request>, id: nat)
    requires id < |requests|
  {
    match requests[id].phase
    case Retrying(child) => id < child < |requests| && requests[child].path == requests[id].path
    case Following(child) => id < child < |requests| && requests[child].path == requests[id].path
    case Done(outcome) => outcome in {Got(requests[id].path), Failed}
    case _ => true
  }

  ghost predicate Fine(requests: seq<Request>) {
    forall id :: 0 <= id < |requests| ==> SettledOnce(requests[id]) && Linked(requests, id)
  }

  ghost predicate QueueIsParked(s: State) {
    && QueueExists(s) && Distinct(s.failedQueue)
    && forall id: nat :: id < |s.requests| ==> (s.requests[id].phase == Parked <==> id in s.failedQueue)
  }

  /** Parked requests have a refresh to wait for. */
  ghost predicate Awaited(s: State) {
    && (s.failedQueue != [] ==> s.isRefreshing)
    && (s.isRefreshing ==> exists id :: Is(s, id, Refreshing))
  }

  ghost predicate Inv(s: State) {
    Fine(s.requests) && QueueIsParked(s) && Awaited(s)
  }

  /** Request `id` after some parked ones were settled: settled once more if it was one of them, as before if not, or new. */
  ghost predicate SettledOf(requests: seq<Request>, settled: seq<Request>, parked: bool, success: bool, id: nat)
    requires |requests| <= |settled| && id < |settled|
  {
    var now := settled[id];
    if id >= |requests| then now.phase == Fetching && now.parkings == now.settlements == 0
    else if !parked then now == requests[id]
    else
      && now.path == requests[id].path
      && now.parkings == requests[id].parkings
      && now.settlements == requests[id].settlements + 1
      && (success ==> now.phase.Following? && Resent(requests, settled, now.phase.child, now.path))
      && (!success ==> now.phase == Done(Failed))
  }

  ghost predicate Resent(requests: seq<Request>, settled: seq<Request>, child: nat, path: string) {
    |requests| <= child < |settled| && settled[child].path == path
  }

  /** The parked request itself. */
  lemma LastSettles(requests: seq<Request>, before: seq<Request>, last: nat, success: bool)
    requires last < |requests| <= |before| && before[last] == requests[last]
    ensures SettledOf(requests, SettleParked(before, last, success), true, success, last)
  {
  }

  /** The request sent for it. */
  lemma NewSettles(requests: seq<Request>, before: seq<Request>, last: nat)
    requires last < |requests| <= |before|
    ensures SettledOf(requests, SettleParked(before, last, true), false, true, |before|)
  {
  }

  /** Any other. */
  lemma OtherSettles(requests: seq<Request>, before: seq<Request>, last: nat, parked: bool, success: bool, id: nat)
    requires last < |requests| <= |before| && id < |before| && id != last
    requires SettledOf(requests, before, parked, success, id)
    ensures SettledOf(requests, SettleParked(before, last, success), parked, success, id)
  {
  }

  /** What settling the queue leaves: every parked request is settled once more, all others are as before. */
  lemma {:induction false} ProcessQueueSettles(requests: seq<Request>, queue: seq<nat>, success: bool, id: nat)
    requires forall k :: 0 <= k < |queue| ==> queue[k] < |requests|
    requires Distinct(queue)
    requires id < |ProcessQueue(requests, queue, success)|
    ensures SettledOf(requests, ProcessQueue(requests, queue, success), id in queue, success, id)
  {
    if queue != [] {
      var last, front := queue[|queue| - 1], queue[..|queue| - 1];
      var before := ProcessQueue(requests, front, success);
      InFrontOrLast(queue, last, front, id);
      if id == last {
        ProcessQueueSettles(requests, front, success, last);
        LastSettles(requests, before, last, success);
      } else if id < |before| {
        ProcessQueueSettles(requests, front, success, id);
        OtherSettles(requests, before, last, id in front, success, id);
      } else {
        NewSettles(requests, before, last);
      }
    }
  }

  lemma InFrontOrLast(queue: seq<nat>, last: nat, front: seq<nat>, id: nat)
    requires queue != [] && last == queue[|queue| - 1] && front == queue[..|queue| - 1] && Distinct(queue)
    ensures id in queue <==> id in front || id == last
    ensures last !in front && Distinct(front)
  {
    assert queue == front + [last];
  }

  lemma ProcessQueueFine(s: State, success: bool)
    requires Inv(s)
    ensures var settled := ProcessQueue(s.requests, s.failedQueue, success);
            && Fine(settled)
            && (forall id :: 0 <= id < |settled| ==> settled[id].phase != Parked)
            && (forall id :: 0 <= id < |s.requests| && s.requests[id].phase != Parked ==> settled[id] == s.requests[id])
  {
    var settled := ProcessQueue(s.requests, s.failedQueue, success);
    forall id | 0 <= id < |settled|
      ensures SettledOnce(settled[id]) && settled[id].phase != Parked
      ensures id < |s.requests| && s.requests[id].phase != Parked ==> settled[id] == s.requests[id]
      ensures Linked(settled, id)
    {
      ProcessQueueSettles(s.requests, s.failedQueue, success, id);
      if id < |s.requests| {
        assert SettledOnce(s.requests[id]) && Linked(s.requests, id);
        PathsStay(s, success, id);
      }
    }
  }

  lemma PathsStay(s: State, success: bool, id: nat)
    requires Inv(s) && id < |s.requests|
    ensures var r, settled := s.requests[id], ProcessQueue(s.requests, s.failedQueue, success);
            r.phase.Retrying? ==> r.phase.child < |s.requests| && settled[r.phase.child].path == r.path
    ensures var r, settled := s.requests[id], ProcessQueue(s.requests, s.failedQueue, success);
            r.phase.Following? ==> r.phase.child < |s.requests| && settled[r.phase.child].path == r.path
  {
    var r := s.requests[id];
    assert Linked(s.requests, id);
    if r.phase.Retrying? || r.phase.Following? {
      ProcessQueueSettles(s.requests, s.failedQueue, success, r.phase.child);
    }
  }

  /** A request moving to a phase it may be in leaves the table fine. */
  lemma InPhaseFine(requests: seq<Request>, id: nat, r: Request)
    requires Fine(requests) && id < |requests|
    requires r.path == requests[id].path && SettledOnce(r) && Linked(requests[id := r], id)
    ensures Fine(requests[id := r])
  {
    var changed := requests[id := r];
    forall k | 0 <= k < |changed|
      ensures SettledOnce(changed[k]) && Linked(changed, k)
    {
      if k != id {
        assert SettledOnce(requests[k]) && Linked(requests, k);
      }
    }
  }

  lemma MoreFine(requests: seq<Request>, path: string)
    requires Fine(requests)
    ensures Fine(requests + [NewRequest(path)])
  {
    var more := requests + [NewRequest(path)];
    forall k | 0 <= k < |more|
      ensures SettledOnce(more[k]) && Linked(more, k)
    {
      if k < |requests| {
        assert SettledOnce(requests[k]) && Linked(requests, k);
      }
    }
  }

  lemma CallKeeps(s: State, path: string)
    requires Inv(s)
    ensures Inv(Apply(s, Call(path)))
  {
    var t := Apply(s, Call(path));
    MoreFine(s.requests, path);
    if s.isRefreshing {
      var id :| Is(s, id, Refreshing);
      assert Is(t, id, Refreshing);
    }
  }

  /** A request that was neither parked nor refreshing ends. */
  lemma EndKeeps(s: State, id: nat, outcome: Outcome)
    requires Inv(s) && id < |s.requests| && s.requests[id].phase !in {Parked, Refreshing}
    requires outcome in {Got(s.requests[id].path), Failed}
    ensures Inv(s.(requests := InPhase(s.requests, id, Done(outcome))))
  {
    var t := s.(requests := InPhase(s.requests, id, Done(outcome)));
    assert SettledOnce(s.requests[id]);
    InPhaseFine(s.requests, id, s.requests[id].(phase := Done(outcome)));
    if s.isRefreshing {
      var other :| Is(s, other, Refreshing);
      assert Is(t, other, Refreshing);
    }
  }

  lemma UnauthorizedKeeps(s: State, id: nat)
    requires Inv(s) && Is(s, id, Fetching)
    ensures Inv(Unauthorised(s, id))
  {
    var t := Unauthorised(s, id);
    assert SettledOnce(s.requests[id]);
    InPhaseFine(s.requests, id, t.requests[id]);
    if s.isRefreshing {
      var other :| Is(s, other, Refreshing);
      assert Is(t, other, Refreshing);
    } else {
      assert Is(t, id, Refreshing);
    }
  }

  lemma RefreshedKeeps(s: State, id: nat)
    requires Inv(s) && Is(s, id, Refreshing)
    ensures Inv(Refreshed(s, id))
  {
    var woken := ProcessQueue(s.requests, s.failedQueue, true);
    ProcessQueueFine(s, true);
    var more := woken + [NewRequest(woken[id].path)];
    MoreFine(woken, woken[id].path);
    assert SettledOnce(more[id]);
    InPhaseFine(more, id, more[id].(phase := Retrying(|woken|)));
    assert Refreshed(s, id).requests == more[id := more[id].(phase := Retrying(|woken|))];
  }

  lemma GivesUpKeeps(s: State, id: nat)
    requires Inv(s) && id < |s.requests| && s.requests[id].phase != Parked
    ensures Inv(GivesUp(s, id))
  {
    var settled := ProcessQueue(s.requests, s.failedQueue, false);
    ProcessQueueFine(s, false);
    assert SettledOnce(settled[id]);
    InPhaseFine(settled, id, settled[id].(phase := Done(Failed)));
  }

  /** Every step keeps the invariant. */
  lemma StepKeeps(s: State, t: State)
    requires Inv(s) && Step(s, t)
    ensures Inv(t)
  {
    var a :| Enabled(s, a) && t == Apply(s, a);
    match a
    case Call(path) => CallKeeps(s, path);
    case Respond(id, answer) =>
      match answer {
        case Good => EndKeeps(s, id, Got(s.requests[id].path));
        case Unauthorized => UnauthorizedKeeps(s, id);
        case Bad => EndKeeps(s, id, Failed);
      }
    case RefreshEnds(id, ok) =>
      if ok {
        RefreshedKeeps(s, id);
      } else {
        GivesUpKeeps(s, id);
      }
    case RetryEnds(id) => EndedFine(s, id); EitherEndKeeps(s, id);
    case FollowEnds(id) => EndedFine(s, id); EndKeeps(s, id, s.requests[s.requests[id].phase.child].phase.outcome);
  }

  lemma EndedFine(s: State, id: nat)
    requires Inv(s) && id < |s.requests|
    requires s.requests[id].phase.Retrying? || s.requests[id].phase.Following?
    requires Ended(s, s.requests[id].phase.child)
    ensures s.requests[s.requests[id].phase.child].phase.outcome in {Got(s.requests[id].path), Failed}
  {
    assert Linked(s.requests, id);
    assert Linked(s.requests, s.requests[id].phase.child);
  }

  lemma EitherEndKeeps(s: State, id: nat)
    requires Inv(s) && Enabled(s, RetryEnds(id))
    requires s.requests[s.requests[id].phase.child].phase.outcome in {Got(s.requests[id].path), Failed}
    ensures Inv(Apply(s, RetryEnds(id)))
  {
    var outcome := s.requests[s.requests[id].phase.child].phase.outcome;
    if outcome == Failed {
      GivesUpKeeps(s, id);
    } else {
      EndKeeps(s, id, outcome);
    }
  }

  // ------------------------------------------------------------ main results

  lemma RunKeeps(s: State)
    requires Leads(Step, INIT, s)
    ensures Inv(s)
  {
    forall a, b | Inv(a) && Step(a, b)
      ensures Inv(b)
    {
      StepKeeps(a, b);
    }
    LeadsKeeps(Step, Inv, INIT, s);
  }

  /** In every run: parked requests imply the flag, the flag implies a refresh in flight, and no promise is settled twice. */
  lemma NoLostWakeup(s: State)
    requires Leads(Step, INIT, s)
    ensures s.failedQueue != [] ==> s.isRefreshing
    ensures s.isRefreshing ==> exists id :: Is(s, id, Refreshing)
    ensures forall id: nat :: id < |s.requests| ==> (s.requests[id].phase == Parked <==> id in s.failedQueue)
    ensures forall id :: 0 <= id < |s.requests| ==> SettledOnce(s.requests[id])
  {
    RunKeeps(s);
  }

  /** The step that runs `processQueue`. */
  predicate ProcessesQueue(s: State, a: Action)
    requires Enabled(s, a)
  {
    a.RefreshEnds? || (a.RetryEnds? && s.requests[s.requests[a.id].phase.child].phase.outcome == Failed)
  }

  lemma RefreshedSettles(s: State, id: nat, k: nat)
    requires Inv(s) && Is(s, id, Refreshing) && k < |s.requests|
    ensures Refreshed(s, id).requests[k].settlements
         == s.requests[k].settlements + if s.requests[k].phase == Parked then 1 else 0
  {
    ProcessQueueSettles(s.requests, s.failedQueue, true, k);
  }

  lemma GivesUpSettles(s: State, id: nat, k: nat)
    requires Inv(s) && id < |s.requests| && k < |s.requests|
    ensures GivesUp(s, id).requests[k].settlements
         == s.requests[k].settlements + if s.requests[k].phase == Parked then 1 else 0
  {
    ProcessQueueSettles(s.requests, s.failedQueue, false, k);
  }

  /** A step that runs `processQueue` clears the flag and settles every parked promise once; no other step settles one or clears it. */
  lemma SettledWithTheFlag(s: State, a: Action, k: nat)
    requires Leads(Step, INIT, s) && Enabled(s, a) && k < |s.requests|
    ensures QueueExists(s) && k < |Apply(s, a).requests|
    ensures var t := Apply(s, a);
            if ProcessesQueue(s, a) then
              && !t.isRefreshing && t.failedQueue == []
              && t.requests[k].settlements == s.requests[k].settlements + if s.requests[k].phase == Parked then 1 else 0
            else
              && (s.isRefreshing ==> t.isRefreshing) && s.failedQueue <= t.failedQueue
              && t.requests[k].settlements == s.requests[k].settlements
  {
    RunKeeps(s);
    if ProcessesQueue(s, a) {
      if a.RefreshEnds? && a.ok {
        RefreshedSettles(s, a.id, k);
      } else {
        GivesUpSettles(s, a.id, k);
      }
    }
  }

  /** What an answer does to a request, and that it leaves all others alone. */
  lemma AnswerEnds(s: State, id: nat, answer: Answer)
    requires Leads(Step, INIT, s) && Is(s, id, Fetching)
    ensures QueueExists(s) && |Apply(s, Respond(id, answer)).requests| == |s.requests|
    ensures var t := Apply(s, Respond(id, answer));
            && (forall k :: 0 <= k < |s.requests| && k != id ==> t.requests[k] == s.requests[k])
            && t.requests[id].path == s.requests[id].path
            && t.requests[id].phase == (match answer
                                        case Good => Done(Got(s.requests[id].path))
                                        case Bad => Done(Failed)
                                        case Unauthorized => if s.isRefreshing then Parked else Refreshing)
            && (answer != Unauthorized ==> t.isRefreshing == s.isRefreshing && t.failedQueue == s.failedQueue)
            && (answer == Unauthorized ==>
                  t.isRefreshing && t.failedQueue == s.failedQueue + if s.isRefreshing then [id] else [])
  {
    RunKeeps(s);
  }

  /** A good response reaches whoever waits for it: through a retry, and through the promise of a parked request. */
  lemma SuccessTravels(s: State, id: nat)
    requires Leads(Step, INIT, s) && id < |s.requests|
    requires s.requests[id].phase.Retrying? || s.requests[id].phase.Following?
    requires Ended(s, s.requests[id].phase.child) && s.requests[s.requests[id].phase.child].phase.outcome.Got?
    ensures QueueExists(s)
    ensures var a := if s.requests[id].phase.Retrying? then RetryEnds(id) else FollowEnds(id);
            && Enabled(s, a) && |Apply(s, a).requests| == |s.requests|
            && Apply(s, a).requests[id].phase == Done(Got(s.requests[id].path))
  {
    RunKeeps(s);
    EndedFine(s, id);
  }

  /** A refresh that succeeds sends its own request again, and ends with it; one that fails ends it. */
  lemma RefreshSendsAgain(s: State, id: nat)
    requires Leads(Step, INIT, s) && Is(s, id, Refreshing)
    ensures QueueExists(s)
    ensures var t := Apply(s, RefreshEnds(id, true));
            && |t.requests| == |s.requests| + |s.failedQueue| + 1
            && t.requests[id].phase == Retrying(|t.requests| - 1)
            && t.requests[|t.requests| - 1].phase == Fetching && t.requests[|t.requests| - 1].path == s.requests[id].path
    ensures var t := Apply(s, RefreshEnds(id, false)); id < |t.requests| && t.requests[id].phase == Done(Failed)
  {
    RunKeeps(s);
    ProcessQueueSettles(s.requests, s.failedQueue, true, id);
  }

  /** A response reaches only requests for its path. */
  lemma ResponsesMatch(s: State, id: nat)
    requires Leads(Step, INIT, s) && Ended(s, id)
    ensures s.requests[id].phase.outcome in {Got(s.requests[id].path), Failed}
  {
    RunKeeps(s);
    assert Linked(s.requests, id);
  }

  /** While a request is unfinished, a fetch or a refresh is in flight or a call can go on: nothing waits for ever. */
  lemma NeverStuck(s: State, id: nat) returns (next: nat)
    requires Leads(Step, INIT, s) && id < |s.requests| && !s.requests[id].phase.Done?
    ensures Is(s, next, Fetching) || Is(s, next, Refreshing) || Enabled(s, RetryEnds(next)) || Enabled(s, FollowEnds(next))
  {
    RunKeeps(s);
    next := Waiting(s, id);
  }

  lemma {:induction false} Waiting(s: State, id: nat) returns (next: nat)
    requires Inv(s) && id < |s.requests| && !s.requests[id].phase.Done?
    ensures Is(s, next, Fetching) || Is(s, next, Refreshing) || Enabled(s, RetryEnds(next)) || Enabled(s, FollowEnds(next))
    decreases |s.requests| - id
  {
    next := id;
    var phase := s.requests[id].phase;
    assert Linked(s.requests, id);
    if phase == Parked {
      assert id in s.failedQueue;
      next :| Is(s, next, Refreshing);
    } else if (phase.Retrying? || phase.Following?) && !Ended(s, phase.child) {
      next := Waiting(s, phase.child);
    }
  }

  // ----------------------------------------------------------- single flight

  /** At most one refresh is in flight, and the flag says whether one is. */
  ghost predicate SingleFlight(s: State) {
    && (forall i, j :: Is(s, i, Refreshing) && Is(s, j, Refreshing) ==> i == j)
    && (s.isRefreshing <==> exists id :: Is(s, id, Refreshing))
  }

  /** A retry fails while another request's refresh is in flight. */
  predicate LateRetryFails(s: State, a: Action)
    requires Enabled(s, a)
  {
    a.RetryEnds? && s.isRefreshing && s.requests[s.requests[a.id].phase.child].phase.outcome == Failed
  }

  /** A step breaks single flight exactly when it clears the flag for a retry that failed under another's refresh. */
  lemma SingleFlightBreaks(s: State, a: Action)
    requires Inv(s) && SingleFlight(s) && Enabled(s, a)
    ensures SingleFlight(Apply(s, a)) <==> !LateRetryFails(s, a)
  {
    var t := Apply(s, a);
    forall k: nat
      ensures Is(t, k, Refreshing) <==>
              (Is(s, k, Refreshing) && a != RefreshEnds(k, true) && a != RefreshEnds(k, false))
              || (a == Respond(k, Unauthorized) && !s.isRefreshing)
    {
      PhasesStay(s, a, k);
    }
    if LateRetryFails(s, a) {
      var id :| Is(s, id, Refreshing);
      assert Is(t, id, Refreshing) && !t.isRefreshing;
    } else if a.Respond? && a.answer == Unauthorized && !s.isRefreshing {
      assert Is(t, a.id, Refreshing);
    } else if s.isRefreshing {
      var id :| Is(s, id, Refreshing);
      assert (a.RefreshEnds? && a.id == id) || Is(t, id, Refreshing);
    }
  }

  lemma RefreshedPhases(s: State, id: nat, k: nat)
    requires Inv(s) && Is(s, id, Refreshing)
    ensures Is(Refreshed(s, id), k, Refreshing) <==> Is(s, k, Refreshing) && k != id
  {
    if k < |ProcessQueue(s.requests, s.failedQueue, true)| {
      ProcessQueueSettles(s.requests, s.failedQueue, true, k);
    }
  }

  lemma GivesUpPhases(s: State, id: nat, k: nat)
    requires Inv(s) && id < |s.requests|
    ensures Is(GivesUp(s, id), k, Refreshing) <==> Is(s, k, Refreshing) && k != id
  {
    if k < |s.requests| {
      ProcessQueueSettles(s.requests, s.failedQueue, false, k);
    }
  }

  /** A step starts a refresh only for a request that meets a 401 while the flag is clear, and ends only the one it is about. */
  lemma PhasesStay(s: State, a: Action, k: nat)
    requires Inv(s) && Enabled(s, a)
    ensures Is(Apply(s, a), k, Refreshing) <==>
              (Is(s, k, Refreshing) && a != RefreshEnds(k, true) && a != RefreshEnds(k, false))
              || (a == Respond(k, Unauthorized) && !s.isRefreshing)
  {
    if ProcessesQueue(s, a) {
      if a.RefreshEnds? && a.ok {
        RefreshedPhases(s, a.id, k);
      } else {
        GivesUpPhases(s, a.id, k);
      }
    }
  }

  ghost predicate CalmStep(s: State, t: State) {
    QueueExists(s) && exists a :: Enabled(s, a) && !LateRetryFails(s, a) && t == Apply(s, a)
  }

  /** Runs in which no retry fails under another's refresh are single-flight throughout. */
  lemma SingleFlightHolds(s: State)
    requires Leads(CalmStep, INIT, s)
    ensures SingleFlight(s)
  {
    var inv := (u: State) => Inv(u) && SingleFlight(u);
    forall a, b | inv(a) && CalmStep(a, b)
      ensures inv(b)
    {
      CalmKeeps(a, b);
    }
    LeadsKeeps(CalmStep, inv, INIT, s);
  }

  lemma CalmKeeps(s: State, t: State)
    requires Inv(s) && SingleFlight(s) && CalmStep(s, t)
    ensures Inv(t) && SingleFlight(t)
  {
    var a :| Enabled(s, a) && !LateRetryFails(s, a) && t == Apply(s, a);
    SingleFlightBreaks(s, a);
    StepKeeps(s, t);
  }

  lemma ActionLeads(s: State, a: Action) returns (t: State)
    requires Leads(Step, INIT, s) && QueueExists(s) && Enabled(s, a)
    ensures t == Apply(s, a) && Leads(Step, INIT, t)
  {
    t := Apply(s, a);
    assert Step(s, t);
    LeadsStep(Step, INIT, s, t);
  }

  /** Single flight is not an invariant: a request's retry fails under another's refresh, and a third request starts one more. */
  lemma TwoRefreshesInFlight(path: string) returns (s: State)
    ensures Leads(Step, INIT, s)
    ensures Is(s, 2, Refreshing) && Is(s, 3, Refreshing)
  {
    s := INIT;
    LeadsNowhere(Step, INIT);
    s := ActionLeads(s, Call(path));
    s := ActionLeads(s, Respond(0, Unauthorized));
    s := ActionLeads(s, RefreshEnds(0, true));
    assert s == State(false, [], [Request(path, Retrying(1), 0, 0), NewRequest(path)]);
    s := ActionLeads(s, Call(path));
    s := ActionLeads(s, Respond(2, Unauthorized));
    s := ActionLeads(s, Respond(1, Bad));
    s := ActionLeads(s, RetryEnds(0));
    assert !s.isRefreshing && Is(s, 2, Refreshing) && |s.requests| == 3;
    s := ActionLeads(s, Call(path));
    s := ActionLeads(s, Respond(3, Unauthorized));
  }

  // -------------------------------------------------------------- the client

  /** The module's variables, and the calls that wait. */
  class Client {
    var isRefreshing: bool
    var failedQueue: seq<nat>
    var requests: seq<Request>

    function Model(): State
      reads this
    {
      State(isRefreshing, failedQueue, requests)
    }

    constructor ()
      ensures Model() == INIT
    {
      isRefreshing, failedQueue, requests := false, [], [];
    }

    /** `apiRequest` up to its first await. */
    method Begin(path: string) returns (id: nat)
      modifies this`requests
      ensures id == |old(requests)| && Model() == old(Model()).(requests := old(requests) + [NewRequest(path)])
    {
      id := |requests|;
      requests := requests + [NewRequest(path)];
    }

    /** `prom.resolve(apiRequest(...))` or `prom.reject(error)`. */
    method SettleOne(parked: nat, success: bool)
      requires parked < |requests|
      modifies this`requests
      ensures requests == SettleParked(old(requests), parked, success)
    {
      requests := requests[parked := requests[parked].(settlements := requests[parked].settlements + 1)];
      if success {
        var sent := Begin(requests[parked].path);
        requests := InPhase(requests, parked, Following(sent));
      } else {
        requests := InPhase(requests, parked, Done(Failed));
      }
    }

    /** `processQueue`. */
    method RunProcessQueue(success: bool)
      requires forall k :: 0 <= k < |failedQueue| ==> failedQueue[k] < |requests|
      modifies this`failedQueue, this`requests
      ensures requests == ProcessQueue(old(requests), old(failedQueue), success) && failedQueue == []
    {
      for k := 0 to |failedQueue|
        invariant failedQueue == old(failedQueue)
        invariant |requests| >= |old(requests)|
        invariant requests == ProcessQueue(old(requests), failedQueue[..k], success)
      {
        assert failedQueue[..k + 1][..k] == failedQueue[..k];
        SettleOne(failedQueue[k], success);
      }
      assert failedQueue[..|failedQueue|] == failedQueue;
      failedQueue := [];
    }

    /** The rest of `apiRequest` once the fetch is answered. */
    method OnResponse(id: nat, answer: Answer)
      requires Inv(Model()) && Enabled(Model(), Respond(id, answer))
      modifies this
      ensures Model() == Apply(old(Model()), Respond(id, answer)) && Inv(Model())
    {
      StepKeeps(Model(), Apply(Model(), Respond(id, answer)));
      match answer {
        case Good => requests := InPhase(requests, id, Done(Got(requests[id].path)));
        case Bad => requests := InPhase(requests, id, Done(Failed));
        case Unauthorized =>
          if isRefreshing {
            failedQueue := failedQueue + [id];
            requests := requests[id := requests[id].(phase := Parked, parkings := requests[id].parkings + 1)];
          } else {
            isRefreshing := true;
            requests := InPhase(requests, id, Refreshing);
          }
      }
    }

    /** The `catch` block. */
    method GiveUp(id: nat)
      requires QueueExists(Model()) && id < |requests|
      modifies this
      ensures Model() == GivesUp(old(Model()), id)
    {
      isRefreshing := false;
      RunProcessQueue(false);
      requests := InPhase(requests, id, Done(Failed));
    }

    /** The `try` block after the refresh, up to the await of the retry. */
    method OnRefreshEnded(id: nat, ok: bool)
      requires Inv(Model()) && Enabled(Model(), RefreshEnds(id, ok))
      modifies this
      ensures Model() == Apply(old(Model()), RefreshEnds(id, ok)) && Inv(Model())
    {
      StepKeeps(Model(), Apply(Model(), RefreshEnds(id, ok)));
      if ok {
        isRefreshing := false;
        RunProcessQueue(true);
        var retry := Begin(requests[id].path);
        requests := InPhase(requests, id, Retrying(retry));
        assert requests == Refreshed(old(Model()), id).requests;
      } else {
        GiveUp(id);
      }
    }

    /** The awaited retry settles, still inside the `try`. */
    method OnRetryEnded(id: nat)
      requires Inv(Model()) && Enabled(Model(), RetryEnds(id))
      modifies this
      ensures Model() == Apply(old(Model()), RetryEnds(id)) && Inv(Model())
    {
      StepKeeps(Model(), Apply(Model(), RetryEnds(id)));
      var outcome := requests[requests[id].phase.child].phase.outcome;
      if outcome == Failed {
        GiveUp(id);
      } else {
        requests := InPhase(requests, id, Done(outcome));
      }
    }

    /** The request a parked promise was resolved with settles. */
    method OnFollowEnded(id: nat)
      requires Inv(Model()) && Enabled(Model(), FollowEnds(id))
      modifies this
      ensures Model() == Apply(old(Model()), FollowEnds(id)) && Inv(Model())
    {
      StepKeeps(Model(), Apply(Model(), FollowEnds(id)));
      requests := InPhase(requests, id, Done(requests[requests[id].phase.child].phase.outcome));
    }
  }
}
