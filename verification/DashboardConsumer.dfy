/**
 The dashboard consumer's handlers side by side: a batch is mapped several
 messages at a time, and batches may overlap, so handlers of one event
 interleave. Every database call is a step, and a handler may throw at any time.
 */
module DashboardConsumer {
  import opened Prelude
  import opened Paths
  import opened NotificationStore
  import opened DashboardWorker

  /** Where a call of `processMessage` is between its awaits. */
  datatype Phase = Reading | Counting | Trying(attempts: int) | Exhausted(attempts: int) | Returned | Threw

  datatype Handler = Handler(message: Message, phase: Phase)

  datatype State = State(retryLimit: int, table: Table, handlers: seq<Handler>)

  datatype Action =
    | Deliver(message: Message)
    | Read(j: nat)
    | CountTry(j: nat)
    | Complete(j: nat)
    | TryFails(j: nat)
    | GiveUp(j: nat)
    | Throw(j: nat)

  predicate Init(s: State) {
    s.table == Table(map[], []) && s.handlers == []
  }

  /** The handler has found the event unsettled and has not ended. */
  predicate AtWork(phase: Phase) {
    phase.Counting? || phase.Trying? || phase.Exhausted?
  }

  /** The handler is at work on the event, or died on it. */
  predicate Concerns(h: Handler, e: EventId) {
    !h.message.NoValue? && KeyOf(h.message) == e && (AtWork(h.phase) || h.phase.Threw?)
  }

  predicate Enabled(s: State, a: Action) {
    match a
    case Deliver(_) => true
    case Read(j) => j < |s.handlers| && s.handlers[j].phase.Reading?
    case CountTry(j) => j < |s.handlers| && s.handlers[j].phase.Counting? && s.handlers[j].message.Event?
    case Complete(j) => j < |s.handlers| && s.handlers[j].phase.Trying? && s.handlers[j].message.Event?
    case TryFails(j) => j < |s.handlers| && s.handlers[j].phase.Trying? && s.handlers[j].message.Event?
    case GiveUp(j) => j < |s.handlers| && s.handlers[j].phase.Exhausted? && s.handlers[j].message.Event?
    case Throw(j) => j < |s.handlers| && (s.handlers[j].phase.Reading? || AtWork(s.handlers[j].phase))
  }

  function Moved(s: State, j: nat, phase: Phase, table: Table): State
    requires j < |s.handlers|
  {
    s.(handlers := s.handlers[j := s.handlers[j].(phase := phase)], table := table)
  }

  /** Up to the look at the receipt. */
  function AfterRead(s: State, j: nat): State
    requires Enabled(s, Read(j))
  {
    var message := s.handlers[j].message;
    match message
    case NoValue => Moved(s, j, Threw, s.table)
    case Unreadable(_, _) => Moved(s, j, Returned, RecordTerminal(s.table, KeyOf(message), s.retryLimit))
    case Event(_) => Moved(s, j, if IsSettled(s.table.receipts, KeyOf(message)) then Returned else Counting, s.table)
  }

  function Apply(s: State, a: Action): State
    requires Enabled(s, a)
  {
    match a
    case Deliver(message) => s.(handlers := s.handlers + [Handler(message, Reading)])
    case Read(j) => AfterRead(s, j)
    case CountTry(j) =>
      var e := KeyOf(s.handlers[j].message);
      var attempts := AttemptsIn(s.table.receipts, e) + 1;
      Moved(s, j, Trying(attempts), WithReceipt(s.table, e, Receipt(Retrying, attempts)))
    case Complete(j) =>
      Moved(s, j, Returned,
            WithReceipt(s.table, KeyOf(s.handlers[j].message), Receipt(Processed, s.handlers[j].phase.attempts)))
    case TryFails(j) =>
      var attempts := s.handlers[j].phase.attempts;
      Moved(s, j, if attempts >= s.retryLimit then Exhausted(attempts) else Counting, s.table)
    case GiveUp(j) =>
      Moved(s, j, Returned, RecordTerminal(s.table, KeyOf(s.handlers[j].message), s.handlers[j].phase.attempts))
    case Throw(j) => Moved(s, j, Threw, s.table)
  }

  ghost predicate Next(s: State, t: State) {
    exists a :: Enabled(s, a) && t == Apply(s, a)
  }

  // -------------------------------------------------------------- invariant

  /** Some handler is at work on the event, or died on it. */
  ghost predicate Concerned(s: State, e: EventId) {
    exists j :: 0 <= j < |s.handlers| && Concerns(s.handlers[j], e)
  }

  ghost predicate ReturnedFrom(h: Handler, e: EventId) {
    !h.message.NoValue? && KeyOf(h.message) == e && h.phase.Returned?
  }

  /** Receipts that are not settled have a handler to settle them, or one that died. */
  ghost predicate EventFine(s: State, e: EventId) {
    && (e in s.table.receipts && !IsSettled(s.table.receipts, e) ==> Concerned(s, e))
    && (forall j :: 0 <= j < |s.handlers| && ReturnedFrom(s.handlers[j], e) ==> e in s.table.receipts)
    && (e in s.table.receipts && s.table.receipts[e].status.Terminal? ==> e in s.table.letters)
  }

  ghost predicate Fine(s: State) {
    Distinct(s.table.letters) && forall e :: EventFine(s, e)
  }

  /** A handler that goes on being at work, or dies, still concerns its event; the others are as before. */
  lemma StillConcerned(s: State, j: nat, phase: Phase, table: Table, e: EventId)
    requires j < |s.handlers| && Concerned(s, e)
    requires AtWork(phase) || phase.Threw? || s.handlers[j].message.NoValue? || KeyOf(s.handlers[j].message) != e
             || !Concerns(s.handlers[j], e)
    ensures Concerned(Moved(s, j, phase, table), e)
  {
    var k :| 0 <= k < |s.handlers| && Concerns(s.handlers[k], e);
    assert Concerns(Moved(s, j, phase, table).handlers[k], e);
  }

  lemma DeliverFine(s: State, message: Message, e: EventId)
    requires EventFine(s, e)
    ensures EventFine(Apply(s, Deliver(message)), e)
  {
    var t := Apply(s, Deliver(message));
    if Concerned(s, e) {
      var k :| 0 <= k < |s.handlers| && Concerns(s.handlers[k], e);
      assert Concerns(t.handlers[k], e);
    }
  }

  lemma MoveFine(s: State, a: Action, e: EventId)
    requires EventFine(s, e) && Enabled(s, a) && !a.Deliver?
    ensures EventFine(Apply(s, a), e)
  {
    var t := Apply(s, a);
    var phase := t.handlers[a.j].phase;
    if e in t.table.receipts && !IsSettled(t.table.receipts, e) {
      if a.CountTry? && KeyOf(s.handlers[a.j].message) == e {
        assert Concerns(t.handlers[a.j], e);
      } else {
        StillConcerned(s, a.j, phase, t.table, e);
      }
    }
  }

  lemma StepFine(s: State, t: State)
    requires Fine(s) && Next(s, t)
    ensures Fine(t)
  {
    var a :| Enabled(s, a) && t == Apply(s, a);
    forall e
      ensures EventFine(t, e)
    {
      assert EventFine(s, e);
      if a.Deliver? {
        DeliverFine(s, a.message, e);
      } else {
        MoveFine(s, a, e);
      }
    }
  }

  lemma RunFine(s0: State, s: State)
    requires Init(s0) && Leads(Next, s0, s)
    ensures Fine(s)
  {
    forall t, u | Fine(t) && Next(t, u)
      ensures Fine(u)
    {
      StepFine(t, u);
    }
    LeadsKeeps(Next, Fine, s0, s);
    assert Fine(s);
  }

  // ------------------------------------------------------------ main results

  /**
   However handlers interleave, an event whose handlers have all returned is
   processed or terminal: only a handler that throws, which rejects its batch,
   can leave a receipt retrying.
   */
  lemma ReturnedIsSettled(s0: State, s: State, j: nat)
    requires Init(s0) && Leads(Next, s0, s)
    requires j < |s.handlers| && s.handlers[j].phase.Returned? && !s.handlers[j].message.NoValue?
    requires forall k :: 0 <= k < |s.handlers| ==> !Concerns(s.handlers[k], KeyOf(s.handlers[j].message))
    ensures IsSettled(s.table.receipts, KeyOf(s.handlers[j].message))
  {
    RunFine(s0, s);
    var e := KeyOf(s.handlers[j].message);
    assert EventFine(s, e) && ReturnedFrom(s.handlers[j], e);
  }

  /** However handlers interleave, no event has two dead letters, and every terminal one has its letter. */
  lemma NeverTwoLetters(s0: State, s: State)
    requires Init(s0) && Leads(Next, s0, s)
    ensures Distinct(s.table.letters)
    ensures forall e :: e in s.table.receipts && s.table.receipts[e].status.Terminal? ==> e in s.table.letters
  {
    RunFine(s0, s);
    forall e | e in s.table.receipts && s.table.receipts[e].status.Terminal?
      ensures e in s.table.letters
    {
      assert EventFine(s, e);
    }
  }

  /** A settled receipt stays settled in a step exactly if the step does not count a try of its event. */
  lemma SettledStaysUnlessCounted(s: State, a: Action, e: EventId)
    requires Enabled(s, a) && IsSettled(s.table.receipts, e)
    ensures IsSettled(Apply(s, a).table.receipts, e) <==> !(a.CountTry? && KeyOf(s.handlers[a.j].message) == e)
  {
  }

  /** A message without a value throws and leaves no receipt. */
  lemma NoValueThrows(s: State, j: nat)
    requires Enabled(s, Read(j)) && s.handlers[j].message.NoValue?
    ensures var t := Apply(s, Read(j));
            t.table == s.table && t.handlers == s.handlers[j := Handler(NoValue, Threw)]
  {
  }

  /** Until it ends a handler may throw at any time, and then writes nothing more. */
  lemma HandlersMayThrow(s: State, j: nat)
    requires j < |s.handlers| && s.handlers[j].phase != Returned && s.handlers[j].phase != Threw
    ensures Enabled(s, Throw(j))
    ensures var t := Apply(s, Throw(j));
            t.table == s.table && t.handlers[j].phase == Threw && forall a :: Enabled(t, a) && !a.Deliver? ==> a.j != j
  {
  }

  lemma TakeStep(s0: State, s: State, a: Action) returns (t: State)
    requires Leads(Next, s0, s) && Enabled(s, a)
    ensures t == Apply(s, a) && Leads(Next, s0, t)
  {
    t := Apply(s, a);
    LeadsStep(Next, s0, s, t);
  }

  /** That happens: of two handlers that both found the event new, one processes it and then the other counts its try. */
  lemma OverlapReopens(retryLimit: int, id: string) returns (s0: State, settled: State, s: State)
    ensures Init(s0) && Leads(Next, s0, settled) && Leads(Next, settled, s)
    ensures IsSettled(settled.table.receipts, Real(id)) && !IsSettled(s.table.receipts, Real(id))
  {
    s0 := State(retryLimit, Table(map[], []), []);
    LeadsNowhere(Next, s0);
    settled := TakeStep(s0, s0, Deliver(Event(id)));
    settled := TakeStep(s0, settled, Deliver(Event(id)));
    settled := TakeStep(s0, settled, Read(0));
    settled := TakeStep(s0, settled, Read(1));
    settled := TakeStep(s0, settled, CountTry(0));
    settled := TakeStep(s0, settled, Complete(0));
    LeadsNowhere(Next, settled);
    s := TakeStep(settled, settled, CountTry(1));
  }

  // ------------------------------------------------------- one handler alone

  /** The handler is in its try `i`, the first having the attempt count `start`. */
  ghost predicate AtTry(s: State, j: nat, before: Table, start: int, i: nat) {
    && j < |s.handlers| && s.handlers[j].message.Event? && s.handlers[j].phase == Trying(start + i)
    && s.table == WithReceipt(before, KeyOf(s.handlers[j].message), Receipt(Retrying, start + i))
  }

  lemma GoodTry(s0: State, s: State, j: nat, before: Table, start: int, i: nat) returns (t: State)
    requires Leads(Next, s0, s) && AtTry(s, j, before, start, i)
    ensures Leads(Next, s0, t)
    ensures t == Moved(s, j, Returned, WithReceipt(before, KeyOf(s.handlers[j].message), Receipt(Processed, start + i)))
  {
    t := TakeStep(s0, s, Complete(j));
  }

  lemma LastTry(s0: State, s: State, j: nat, before: Table, start: int, i: nat) returns (t: State)
    requires Leads(Next, s0, s) && AtTry(s, j, before, start, i) && start + i >= s.retryLimit
    ensures Leads(Next, s0, t)
    ensures t == Moved(s, j, Returned, RecordTerminal(before, KeyOf(s.handlers[j].message), start + i))
  {
    t := TakeStep(s0, s, TryFails(j));
    t := TakeStep(s0, t, GiveUp(j));
  }

  lemma TryAgain(s0: State, s: State, j: nat, before: Table, start: int, i: nat) returns (t: State)
    requires Leads(Next, s0, s) && AtTry(s, j, before, start, i) && start + i < s.retryLimit
    ensures Leads(Next, s0, t) && AtTry(t, j, before, start, i + 1)
    ensures t == Moved(s, j, Trying(start + i + 1), t.table)
  {
    t := TakeStep(s0, s, TryFails(j));
    t := TakeStep(s0, t, CountTry(j));
  }

  /** From try `i` on, a handler alone ends as the loop of `processMessage` does. */
  lemma {:induction false} TriesArePath(s0: State, s: State, j: nat, completes: nat -> bool, before: Table, start: int, i: nat)
    returns (t: State)
    requires Leads(Next, s0, s) && AtTry(s, j, before, start, i)
    requires var most := RetriesLeft(start, s.retryLimit) + 1; i < most && i <= FirstSuccess(completes, most)
    ensures Leads(Next, s0, t)
    ensures var most := RetriesLeft(start, s.retryLimit) + 1;
            t == Moved(s, j, Returned, Tried(before, KeyOf(s.handlers[j].message), start, most, FirstSuccess(completes, most)))
    decreases RetriesLeft(start, s.retryLimit) + 1 - i
  {
    var most := RetriesLeft(start, s.retryLimit) + 1;
    if i == FirstSuccess(completes, most) {
      t := GoodTry(s0, s, j, before, start, i);
    } else if start + i >= s.retryLimit {
      t := LastTry(s0, s, j, before, start, i);
    } else {
      var u := TryAgain(s0, s, j, before, start, i);
      t := TriesArePath(s0, u, j, completes, before, start, i + 1);
    }
  }

  /** One handler alone: `processMessage` as a whole is a path of the steps, with exactly its effect on the table. */
  lemma MessageIsPath(s: State, j: nat, completes: nat -> bool) returns (t: State)
    requires j < |s.handlers| && s.handlers[j].phase.Reading? && !s.handlers[j].message.NoValue?
    ensures Leads(Next, s, t)
    ensures t == Moved(s, j, Returned, Handled(s.table, s.retryLimit, s.handlers[j].message, completes))
  {
    LeadsNowhere(Next, s);
    t := TakeStep(s, s, Read(j));
    if t.handlers[j].phase.Counting? {
      var e := KeyOf(s.handlers[j].message);
      var start := AttemptsIn(s.table.receipts, e) + 1;
      t := TakeStep(s, t, CountTry(j));
      t := TriesArePath(s, t, j, completes, s.table, start, 0);
    }
  }
}
