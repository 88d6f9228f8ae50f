/**
 The notification consumer group as a step system: batches fetched from the
 committed offset, their messages handled by the bounded scheduler, each handler
 a sequence of database transactions that may fail, offsets committed when the
 whole batch has been mapped. Batches of any number of consumers interleave.
 */
module NotificationConsumer {
  import opened Prelude
  import opened Paths
  import opened NotificationStore
  import BoundedMap

  /** A message as the consumer sees it: unparseable, of a type it does not handle, or an event to notify about. */
  datatype Incoming = Unreadable | Ignored | Notify(id: string, auction: Option<string>)

  /** Where a handler is between its awaits. */
  datatype Phase =
    | Idle
    | Reading
    | Resolving
    | Writing(drafts: seq<Draft>)
    | Failing
    | Exhausted(attempts: int)
    | Returned
    | Threw

  /** A handler works for a message of a batch, or for the recovery of an auction. */
  datatype Source = Kafka(log: nat, offset: nat, batch: nat) | Recover(product: string)

  datatype Job = Job(source: Source, phase: Phase)

  /** The messages `lo..hi` of one partition's log; message `lo + i` is handled by job `base + i`. */
  datatype Batch = Batch(log: nat, lo: nat, hi: nat, base: nat, sched: BoundedMap.State<()>)

  /** A counted processing failure that rejected a batch. */
  datatype Throw = Throw(batch: nat, event: EventId)

  datatype State = State(
    retryLimit: int,
    now: int,
    logs: seq<seq<Incoming>>,
    committed: seq<nat>,
    db: Db,
    batches: seq<Batch>,
    jobs: seq<Job>,
    thrown: seq<Throw>,
    skipped: set<(nat, nat)>)

  /**
   A failing statement may have been applied, its reply lost, or not. A failing
   first read of a message to notify about ends in the catch block like any
   other failure; an unreadable message has no catch block.
   */
  datatype Action =
    | Tick(ms: nat)
    | Append(log: nat, message: Incoming)
    | Fetch(log: nat, hi: nat, concurrency: nat)
    | TakeMessage(b: nat, w: nat)
    | Skip(j: nat)
    | Read(j: nat)
    | ReadFails(j: nat)
    | RejectFails(j: nat, applied: bool)
    | Resolve(j: nat, drafts: seq<Draft>)
    | ResolveFails(j: nat)
    | Write(j: nat)
    | WriteFails(j: nat, applied: bool)
    | RecordFailure(j: nat)
    | RecordFails(j: nat, applied: bool)
    | GiveUp(j: nat)
    | GiveUpFails(j: nat, applied: bool)
    | SettleMessage(b: nat, w: nat)
    | Commit(b: nat)
    | StartRecovery(product: string)
    | Reopen(e: EventId)

  predicate IsMessage(s: State, log: nat, offset: nat) {
    log < |s.logs| && offset < |s.logs[log]|
  }

  /** The event a handler works on. */
  function KeyOf(logs: seq<seq<Incoming>>, source: Source): EventId {
    match source
    case Recover(product) => Recovery(product)
    case Kafka(log, offset, _) =>
      if log < |logs| && offset < |logs[log]| && logs[log][offset].Notify? then Real(logs[log][offset].id)
      else Synthetic(log, offset)
  }

  function Key(s: State, j: nat): EventId
    requires j < |s.jobs|
  {
    KeyOf(s.logs, s.jobs[j].source)
  }

  function AuctionOf(s: State, j: nat): Option<string>
    requires j < |s.jobs|
  {
    match s.jobs[j].source
    case Recover(product) => Some(product)
    case Kafka(log, offset, _) =>
      if IsMessage(s, log, offset) && s.logs[log][offset].Notify? then s.logs[log][offset].auction else None
  }

  predicate InPhase(s: State, j: nat, phase: Phase) {
    j < |s.jobs| && s.jobs[j].phase == phase
  }

  predicate FromKafka(s: State, j: nat) {
    j < |s.jobs| && s.jobs[j].source.Kafka? && IsMessage(s, s.jobs[j].source.log, s.jobs[j].source.offset)
  }

  function MessageOf(s: State, j: nat): Incoming
    requires FromKafka(s, j)
  {
    s.logs[s.jobs[j].source.log][s.jobs[j].source.offset]
  }

  /** Between reading an unsettled receipt and the handler's end. */
  predicate Active(phase: Phase) {
    phase.Resolving? || phase.Writing? || phase.Failing? || phase.Exhausted?
  }

  predicate BatchReady(s: State, b: nat, w: nat) {
    b < |s.batches| && w < |s.batches[b].sched.workers|
  }

  predicate Enabled(s: State, a: Action) {
    match a
    case Tick(_) => true
    case Append(log, _) => log < |s.logs|
    case Fetch(log, hi, concurrency) =>
      log < |s.logs| && log < |s.committed| && s.committed[log] < hi <= |s.logs[log]| && 1 <= concurrency <= hi - s.committed[log]
    case TakeMessage(b, w) =>
      && BatchReady(s, b, w)
      && BoundedMap.Enabled(s.batches[b].sched, BoundedMap.Take(w))
      && s.batches[b].base + s.batches[b].sched.n <= |s.jobs|
    case Skip(j) => InPhase(s, j, Reading) && FromKafka(s, j)
    case Read(j) => InPhase(s, j, Reading) && FromKafka(s, j)
    case ReadFails(j) => InPhase(s, j, Reading) && FromKafka(s, j) && MessageOf(s, j).Notify?
    case RejectFails(j, _) => InPhase(s, j, Reading) && FromKafka(s, j) && MessageOf(s, j).Unreadable?
    case Resolve(j, _) => InPhase(s, j, Resolving)
    case ResolveFails(j) => InPhase(s, j, Resolving)
    case Write(j) => j < |s.jobs| && s.jobs[j].phase.Writing?
    case WriteFails(j, _) => j < |s.jobs| && s.jobs[j].phase.Writing?
    case RecordFailure(j) => InPhase(s, j, Failing) && FromKafka(s, j)
    case RecordFails(j, _) => InPhase(s, j, Failing)
    case GiveUp(j) => j < |s.jobs| && s.jobs[j].phase.Exhausted?
    case GiveUpFails(j, _) => j < |s.jobs| && s.jobs[j].phase.Exhausted?
    case SettleMessage(b, w) =>
      && BatchReady(s, b, w)
      && s.batches[b].sched.workers[w].Awaiting?
      && var i := s.batches[b].sched.workers[w].index;
      && i < |s.batches[b].sched.results|
      && s.batches[b].base + i < |s.jobs|
      && (s.jobs[s.batches[b].base + i].phase.Returned? || s.jobs[s.batches[b].base + i].phase.Threw?)
    case Commit(b) => b < |s.batches| && BoundedMap.Resolved(s.batches[b].sched) && s.batches[b].log < |s.committed|
    case StartRecovery(product) => product !in s.db.notifiedAt
    case Reopen(e) => HasStatus(s.db, e, Terminal)
  }

  function SetPhase(s: State, j: nat, phase: Phase): State
    requires j < |s.jobs|
  {
    s.(jobs := s.jobs[j := s.jobs[j].(phase := phase)])
  }

  /** A handler whose drafts or transaction failed: the consumer catches, the recovery gives up. */
  function Caught(s: State, j: nat): Phase
    requires j < |s.jobs|
  {
    if s.jobs[j].source.Kafka? then Failing else Threw
  }

  /** The first part of `processKafkaMessage`, up to the look at the receipt. */
  function AfterRead(s: State, j: nat): State
    requires InPhase(s, j, Reading) && FromKafka(s, j)
  {
    match MessageOf(s, j)
    case Unreadable => SetPhase(s, j, Returned).(db := TerminalTx(s.db, Key(s, j), s.retryLimit))
    case Ignored => SetPhase(s, j, Returned)
    case Notify(_, _) => SetPhase(s, j, if Settled(s.db, Key(s, j)) then Returned else Resolving)
  }

  /** The handler's transaction. */
  function Enqueued(s: State, j: nat): Db
    requires j < |s.jobs| && s.jobs[j].phase.Writing?
  {
    EnqueueTx(s.db, Key(s, j), AuctionOf(s, j), s.jobs[j].phase.drafts, s.now)
  }

  /** The catch block: count the failure, then give up or throw. */
  function AfterRecord(s: State, j: nat): State
    requires InPhase(s, j, Failing) && FromKafka(s, j)
  {
    var e := Key(s, j);
    var attempts := Attempts(s.db, e) + 1;
    var t := s.(db := FailureTx(s.db, e));
    if attempts >= s.retryLimit then SetPhase(t, j, Exhausted(attempts))
    else SetPhase(t, j, Threw).(thrown := s.thrown + [Throw(s.jobs[j].source.batch, e)])
  }

  function NewBatch(s: State, log: nat, hi: nat, concurrency: nat): State
    requires log < |s.committed| && s.committed[log] <= hi
  {
    var lo := s.committed[log];
    var n := hi - lo;
    var b := |s.batches|;
    var sched := BoundedMap.State(n, 0, seq(concurrency, _ => BoundedMap.Ready), seq(n, _ => None), [], {});
    s.(batches := s.batches + [Batch(log, lo, hi, |s.jobs|, sched)],
       jobs := s.jobs + seq(n, i requires 0 <= i < n => Job(Kafka(log, lo + i, b), Idle)))
  }

  function SetSched(s: State, b: nat, sched: BoundedMap.State<()>): State
    requires b < |s.batches|
  {
    s.(batches := s.batches[b := s.batches[b].(sched := sched)])
  }

  function Apply(s: State, a: Action): State
    requires Enabled(s, a)
  {
    match a
    case Tick(ms) => s.(now := s.now + ms)
    case Append(log, message) => s.(logs := s.logs[log := s.logs[log] + [message]])
    case Fetch(log, hi, concurrency) => NewBatch(s, log, hi, concurrency)
    case TakeMessage(b, w) =>
      var batch := s.batches[b];
      var t := SetSched(s, b, BoundedMap.Apply(batch.sched, BoundedMap.Take(w)));
      if batch.sched.next < batch.sched.n then SetPhase(t, batch.base + batch.sched.next, Reading) else t
    case Skip(j) => SetPhase(s, j, Returned).(skipped := s.skipped + {(s.jobs[j].source.log, s.jobs[j].source.offset)})
    case Read(j) => AfterRead(s, j)
    case ReadFails(j) => SetPhase(s, j, Failing)
    case RejectFails(j, applied) =>
      SetPhase(s, j, Threw).(db := if applied then TerminalTx(s.db, Key(s, j), s.retryLimit) else s.db)
    case Resolve(j, drafts) => SetPhase(s, j, Writing(drafts))
    case ResolveFails(j) => SetPhase(s, j, Caught(s, j))
    case Write(j) => SetPhase(s, j, Returned).(db := Enqueued(s, j))
    case WriteFails(j, applied) => SetPhase(s, j, Caught(s, j)).(db := if applied then Enqueued(s, j) else s.db)
    case RecordFailure(j) => AfterRecord(s, j)
    case RecordFails(j, applied) =>
      SetPhase(s, j, Threw).(db := if applied then FailureTx(s.db, Key(s, j)) else s.db)
    case GiveUp(j) => SetPhase(s, j, Returned).(db := TerminalTx(s.db, Key(s, j), s.jobs[j].phase.attempts))
    case GiveUpFails(j, applied) =>
      SetPhase(s, j, Threw).(db := if applied then TerminalTx(s.db, Key(s, j), s.jobs[j].phase.attempts) else s.db)
    case SettleMessage(b, w) =>
      var batch := s.batches[b];
      var phase := s.jobs[batch.base + batch.sched.workers[w].index].phase;
      SetSched(s, b, BoundedMap.Apply(batch.sched,
        BoundedMap.Settle(w, if phase.Returned? then Fulfilled(()) else Rejected)))
    case Commit(b) => s.(committed := s.committed[s.batches[b].log := s.batches[b].hi])
    case StartRecovery(product) =>
      s.(jobs := s.jobs + [Job(Recover(product), if Settled(s.db, Recovery(product)) then Returned else Resolving)])
    case Reopen(e) => s.(db := ReopenTx(s.db, e))
  }

  ghost predicate Next(s: State, t: State) {
    exists a :: Enabled(s, a) && t == Apply(s, a)
  }

  ghost predicate Init(s: State) {
    && |s.committed| == |s.logs|
    && (forall l :: 0 <= l < |s.committed| ==> s.committed[l] == 0)
    && s.db == EMPTY && s.batches == [] && s.jobs == [] && s.thrown == [] && s.skipped == {}
  }

  predicate CountsFailure(a: Action) {
    a.RecordFailure? || (a.RecordFails? && a.applied)
  }

  predicate GivesUp(a: Action) {
    a.GiveUp? || (a.GiveUpFails? && a.applied)
  }

  predicate Enqueues(a: Action) {
    a.Write? || (a.WriteFails? && a.applied)
  }

  /** A catch block counts a failure of an event that has been settled, and not reopened, in the meantime. */
  predicate Unsettles(s: State, a: Action)
    requires Enabled(s, a)
  {
    CountsFailure(a) && Settled(s.db, Key(s, a.j)) && Key(s, a.j) !in s.db.reopened
  }

  /** A catch block writes a receipt that has been settled in the meantime; it does not look at the old status. */
  predicate OverwritesSettled(s: State, a: Action)
    requires Enabled(s, a)
  {
    (CountsFailure(a) || GivesUp(a)) && Settled(s.db, Key(s, a.j))
  }

  ghost predicate KeepingNext(s: State, t: State) {
    exists a :: Enabled(s, a) && !Unsettles(s, a) && t == Apply(s, a)
  }

  ghost predicate GuardedNext(s: State, t: State) {
    exists a :: Enabled(s, a) && !OverwritesSettled(s, a) && t == Apply(s, a)
  }

  // --------------------------------------------------------- commit safety

  /** The message needs nothing any more. */
  ghost predicate Safe(s: State, log: nat, offset: nat) {
    IsMessage(s, log, offset) ==>
      || s.logs[log][offset].Ignored?
      || Settled(s.db, KeyOf(s.logs, Kafka(log, offset, 0)))
      || KeyOf(s.logs, Kafka(log, offset, 0)) in s.db.reopened
      || (log, offset) in s.skipped
  }

  ghost predicate JobFine(s: State, j: nat)
    requires j < |s.jobs|
  {
    var job := s.jobs[j];
    && (Active(job.phase) ==> !Key(s, j).Synthetic?)
    && (job.source.Kafka? ==> IsMessage(s, job.source.log, job.source.offset))
    && (job.phase.Returned? && job.source.Kafka? ==> Safe(s, job.source.log, job.source.offset))
    && ((job.phase.Failing? || job.phase.Exhausted?) ==> job.source.Kafka?)
  }

  /** Message `i` of the batch belongs to its job, which has returned if the scheduler has its result. */
  ghost predicate MessageFine(s: State, b: nat, i: nat)
    requires b < |s.batches|
  {
    var batch := s.batches[b];
    && i < |batch.sched.results|
    && batch.base + i < |s.jobs|
    && s.jobs[batch.base + i].source == Kafka(batch.log, batch.lo + i, b)
    && (batch.sched.results[i].Some? ==> s.jobs[batch.base + i].phase.Returned?)
  }

  ghost predicate BatchFine(s: State, b: nat)
    requires b < |s.batches|
  {
    var batch := s.batches[b];
    var n := batch.sched.n;
    && batch.log < |s.logs| && batch.lo + n == batch.hi <= |s.logs[batch.log]|
    && BoundedMap.Inv(batch.sched)
    && batch.base + n <= |s.jobs|
    && (forall i: nat :: i < n ==> MessageFine(s, b, i))
    && (forall offset: nat :: offset < batch.lo ==> Safe(s, batch.log, offset))
  }

  ghost predicate CommittedFine(s: State) {
    && |s.committed| == |s.logs|
    && forall l: nat, offset: nat :: l < |s.committed| && offset < s.committed[l] ==> IsMessage(s, l, offset) && Safe(s, l, offset)
  }

  /** The part of the invariant that commit safety rests on. */
  ghost predicate Sound(s: State) {
    && (forall j: nat :: j < |s.jobs| ==> JobFine(s, j))
    && (forall b: nat :: b < |s.batches| ==> BatchFine(s, b))
    && CommittedFine(s)
  }

  ghost predicate Fine(s: State) {
    DbFine(s.db) && Sound(s)
  }

  // ------------------------------------------------------------- frames

  /** Logs only grow, settled events stay settled or are reopened, skipped messages stay recorded. */
  ghost predicate Extends(s: State, t: State) {
    && |t.logs| == |s.logs|
    && (forall l: nat :: l < |s.logs| ==> s.logs[l] <= t.logs[l])
    && Absorbs(s.db, t.db)
    && s.skipped <= t.skipped
  }

  lemma SafeKept(s: State, t: State, log: nat, offset: nat)
    requires Extends(s, t) && IsMessage(s, log, offset) && Safe(s, log, offset)
    ensures IsMessage(t, log, offset) && t.logs[log][offset] == s.logs[log][offset] && Safe(t, log, offset)
  {
    assert s.logs[log] <= t.logs[log];
  }

  lemma KeyKept(s: State, t: State, j: nat)
    requires Extends(s, t) && j < |s.jobs| && j < |t.jobs| && t.jobs[j].source == s.jobs[j].source && JobFine(s, j)
    ensures Key(t, j) == Key(s, j)
  {
    if s.jobs[j].source.Kafka? {
      assert s.logs[s.jobs[j].source.log] <= t.logs[s.jobs[j].source.log];
    }
  }

  lemma JobKept(s: State, t: State, j: nat)
    requires Extends(s, t) && j < |s.jobs| && j < |t.jobs| && t.jobs[j] == s.jobs[j] && JobFine(s, j)
    ensures JobFine(t, j)
  {
    KeyKept(s, t, j);
    var source := s.jobs[j].source;
    if source.Kafka? {
      assert s.logs[source.log] <= t.logs[source.log];
      if s.jobs[j].phase.Returned? {
        SafeKept(s, t, source.log, source.offset);
      }
    }
  }

  ghost predicate JobsAdvance(s: State, t: State) {
    && |s.jobs| <= |t.jobs|
    && forall j: nat :: j < |s.jobs| ==>
         t.jobs[j].source == s.jobs[j].source && (s.jobs[j].phase.Returned? ==> t.jobs[j].phase.Returned?)
  }

  lemma BatchKept(s: State, t: State, b: nat)
    requires Extends(s, t) && JobsAdvance(s, t) && b < |s.batches| && b < |t.batches| && t.batches[b] == s.batches[b]
    requires BatchFine(s, b)
    ensures BatchFine(t, b)
  {
    var batch := s.batches[b];
    assert s.logs[batch.log] <= t.logs[batch.log];
    forall i: nat | i < batch.sched.n
      ensures MessageFine(t, b, i)
    {
      assert MessageFine(s, b, i);
    }
    forall offset: nat | offset < batch.lo
      ensures Safe(t, batch.log, offset)
    {
      SafeKept(s, t, batch.log, offset);
    }
  }

  lemma CommittedKept(s: State, t: State)
    requires Extends(s, t) && CommittedFine(s) && t.committed == s.committed
    ensures CommittedFine(t)
  {
    forall l: nat, offset: nat | l < |t.committed| && offset < t.committed[l]
      ensures IsMessage(t, l, offset) && Safe(t, l, offset)
    {
      SafeKept(s, t, l, offset);
    }
  }

  lemma Kept(s: State, t: State)
    requires Sound(s) && Extends(s, t) && JobsAdvance(s, t)
    requires t.batches == s.batches && t.committed == s.committed
    requires forall j: nat :: j < |t.jobs| ==> JobFine(t, j)
    ensures Sound(t)
  {
    CommittedKept(s, t);
    forall b: nat | b < |t.batches|
      ensures BatchFine(t, b)
    {
      BatchKept(s, t, b);
    }
  }

  /** One handler moves, and settled events stay settled. */
  lemma HandlerMoves(s: State, t: State, j: nat)
    requires Sound(s) && j < |s.jobs|
    requires t.logs == s.logs && t.batches == s.batches && t.committed == s.committed && s.skipped <= t.skipped
    requires exists phase :: t.jobs == s.jobs[j := s.jobs[j].(phase := phase)]
    requires !s.jobs[j].phase.Returned?
    requires Absorbs(s.db, t.db)
    requires JobFine(t, j)
    ensures Sound(t)
  {
    forall k: nat | k < |t.jobs|
      ensures JobFine(t, k)
    {
      if k != j {
        JobKept(s, t, k);
      }
    }
    Kept(s, t);
  }

  // ------------------------------------------------------ each step keeps it

  lemma TickFine(s: State, ms: nat)
    requires Sound(s)
    ensures Sound(Apply(s, Tick(ms)))
  {
    var t := Apply(s, Tick(ms));
    forall j: nat | j < |t.jobs|
      ensures JobFine(t, j)
    {
      JobKept(s, t, j);
    }
    Kept(s, t);
  }

  lemma AppendFine(s: State, log: nat, message: Incoming)
    requires Sound(s) && Enabled(s, Append(log, message))
    ensures Sound(Apply(s, Append(log, message)))
  {
    var t := Apply(s, Append(log, message));
    forall j: nat | j < |t.jobs|
      ensures JobFine(t, j)
    {
      JobKept(s, t, j);
    }
    Kept(s, t);
  }

  lemma FetchFine(s: State, log: nat, hi: nat, concurrency: nat)
    requires Sound(s) && Enabled(s, Fetch(log, hi, concurrency))
    ensures Sound(Apply(s, Fetch(log, hi, concurrency)))
  {
    var t := Apply(s, Fetch(log, hi, concurrency));
    var lo, b := s.committed[log], |s.batches|;
    forall j: nat | j < |t.jobs|
      ensures JobFine(t, j)
    {
      if j < |s.jobs| {
        JobKept(s, t, j);
      } else {
        assert t.jobs[j] == Job(Kafka(log, lo + (j - |s.jobs|), b), Idle);
      }
    }
    CommittedKept(s, t);
    BoundedMap.InitInv(t.batches[b].sched, hi - lo, concurrency);
    assert BatchFine(t, b) by {
      forall offset: nat | offset < lo
        ensures Safe(t, log, offset)
      {
        SafeKept(s, t, log, offset);
      }
      forall i: nat | i < hi - lo
        ensures MessageFine(t, b, i)
      {
        assert t.jobs[|s.jobs| + i] == Job(Kafka(log, lo + i, b), Idle);
      }
    }
    forall c: nat | c < |s.batches|
      ensures BatchFine(t, c)
    {
      BatchKept(s, t, c);
    }
  }

  /** The scheduler of one batch moves, and at most one job of that batch with it. */
  lemma SchedMoves(s: State, t: State, b: nat, sched: BoundedMap.State<()>)
    requires Sound(s) && b < |s.batches| && t.batches == s.batches[b := s.batches[b].(sched := sched)]
    requires t.logs == s.logs && t.db == s.db && t.committed == s.committed && t.skipped == s.skipped
    requires BoundedMap.Inv(sched) && sched.n == s.batches[b].sched.n
    requires |t.jobs| == |s.jobs|
    requires forall j: nat :: j < |s.jobs| ==>
               || t.jobs[j] == s.jobs[j]
               || (s.jobs[j].source.Kafka? && s.jobs[j].source.batch == b && t.jobs[j] == s.jobs[j].(phase := Reading))
    requires forall i: nat :: i < sched.n ==> MessageFine(t, b, i)
    ensures Sound(t)
  {
    forall j: nat | j < |t.jobs|
      ensures JobFine(t, j)
    {
      assert JobFine(s, j);
      if t.jobs[j] == s.jobs[j] {
        JobKept(s, t, j);
      }
    }
    CommittedKept(s, t);
    forall c: nat | c < |t.batches|
      ensures BatchFine(t, c)
    {
      assert BatchFine(s, c);
      forall offset: nat | offset < s.batches[c].lo
        ensures Safe(t, s.batches[c].log, offset)
      {
        SafeKept(s, t, s.batches[c].log, offset);
      }
      if c != b {
        forall i: nat | i < s.batches[c].sched.n
          ensures MessageFine(t, c, i)
        {
          assert MessageFine(s, c, i);
        }
      }
    }
  }

  lemma TakenMessageFine(s: State, b: nat, w: nat, i: nat)
    requires Sound(s) && Enabled(s, TakeMessage(b, w)) && i < s.batches[b].sched.n
    ensures MessageFine(Apply(s, TakeMessage(b, w)), b, i)
  {
    var batch := s.batches[b];
    assert BatchFine(s, b) && MessageFine(s, b, i);
    if batch.sched.next < batch.sched.n {
      assert MessageFine(s, b, batch.sched.next);
    }
  }

  lemma TakeMessageFine(s: State, b: nat, w: nat)
    requires Sound(s) && Enabled(s, TakeMessage(b, w))
    ensures Sound(Apply(s, TakeMessage(b, w)))
  {
    var t := Apply(s, TakeMessage(b, w));
    var batch := s.batches[b];
    assert BatchFine(s, b);
    BoundedMap.StepInv(batch.sched, BoundedMap.Take(w));
    var sched := BoundedMap.Apply(batch.sched, BoundedMap.Take(w));
    if batch.sched.next < batch.sched.n {
      assert MessageFine(s, b, batch.sched.next);
    }
    forall i: nat | i < sched.n
      ensures MessageFine(t, b, i)
    {
      TakenMessageFine(s, b, w, i);
    }
    SchedMoves(s, t, b, sched);
  }

  lemma SettleMessageFine(s: State, b: nat, w: nat)
    requires Sound(s) && Enabled(s, SettleMessage(b, w))
    ensures Sound(Apply(s, SettleMessage(b, w)))
  {
    var t := Apply(s, SettleMessage(b, w));
    var batch := s.batches[b];
    assert BatchFine(s, b);
    var phase := s.jobs[batch.base + batch.sched.workers[w].index].phase;
    var outcome: Settlement<()> := if phase.Returned? then Fulfilled(()) else Rejected;
    BoundedMap.StepInv(batch.sched, BoundedMap.Settle(w, outcome));
    var sched := BoundedMap.Apply(batch.sched, BoundedMap.Settle(w, outcome));
    forall i: nat | i < sched.n
      ensures MessageFine(t, b, i)
    {
      assert MessageFine(s, b, i);
    }
    SchedMoves(s, t, b, sched);
  }

  /** A resolved batch has handled every one of its messages. */
  lemma CommitFine(s: State, b: nat)
    requires Sound(s) && Enabled(s, Commit(b))
    ensures Sound(Apply(s, Commit(b)))
  {
    var t := Apply(s, Commit(b));
    var batch := s.batches[b];
    assert BatchFine(s, b);
    BoundedMap.ResolvedCoversAll(batch.sched);
    forall offset: nat | offset < batch.hi
      ensures IsMessage(s, batch.log, offset) && Safe(s, batch.log, offset)
    {
      if offset >= batch.lo {
        assert MessageFine(s, b, offset - batch.lo);
        assert JobFine(s, batch.base + (offset - batch.lo));
      }
    }
    forall l: nat, offset: nat | l < |t.committed| && offset < t.committed[l]
      ensures IsMessage(t, l, offset) && Safe(t, l, offset)
    {
      assert IsMessage(s, l, offset) && Safe(s, l, offset);
      SafeKept(s, t, l, offset);
    }
    forall j: nat | j < |t.jobs|
      ensures JobFine(t, j)
    {
      JobKept(s, t, j);
    }
    forall c: nat | c < |t.batches|
      ensures BatchFine(t, c)
    {
      BatchKept(s, t, c);
    }
  }

  /** A fetched batch starts at the committed offset and takes the messages up to the one asked for, each with a handler. */
  lemma FetchCovers(s: State, log: nat, hi: nat, concurrency: nat)
    requires Enabled(s, Fetch(log, hi, concurrency))
    ensures var t := Apply(s, Fetch(log, hi, concurrency));
            && |t.batches| == |s.batches| + 1
            && var batch := t.batches[|s.batches|];
               && batch.log == log && batch.lo == s.committed[log] && batch.hi == hi
               && batch.sched.n == hi - batch.lo && |batch.sched.workers| == concurrency
  {
  }

  /** A commit moves the offset behind the batch's last message, and no other offset. */
  lemma CommitReachesEnd(s: State, b: nat)
    requires Sound(s) && Enabled(s, Commit(b))
    ensures var batch, t := s.batches[b], Apply(s, Commit(b));
            && |t.committed| == |s.committed| && batch.log < |s.committed|
            && t.committed[batch.log] == batch.lo + batch.sched.n
            && (forall l :: 0 <= l < |s.committed| && l != batch.log ==> t.committed[l] == s.committed[l])
  {
    assert BatchFine(s, b);
  }

  /** By then each of its messages has been handled. */
  lemma CommittedIsHandled(s: State, b: nat, i: nat)
    requires Sound(s) && Enabled(s, Commit(b)) && i < s.batches[b].sched.n
    ensures var batch := s.batches[b];
            && batch.base + i < |s.jobs| && s.jobs[batch.base + i].source == Kafka(batch.log, batch.lo + i, b)
            && s.jobs[batch.base + i].phase.Returned?
  {
    assert BatchFine(s, b) && MessageFine(s, b, i);
    BoundedMap.ResolvedCoversAll(s.batches[b].sched);
  }

  predicate MovesHandler(a: Action) {
    || a.Skip? || a.Read? || a.ReadFails? || a.RejectFails? || a.Resolve? || a.ResolveFails? || a.Write? || a.WriteFails?
    || a.RecordFailure? || a.RecordFails? || a.GiveUp? || a.GiveUpFails?
  }

  lemma HandlerFine(s: State, a: Action)
    requires Sound(s) && Enabled(s, a) && MovesHandler(a) && !Unsettles(s, a)
    ensures Sound(Apply(s, a))
  {
    assert JobFine(s, a.j);
    HandlerMoves(s, Apply(s, a), a.j);
  }

  lemma StartRecoveryFine(s: State, product: string)
    requires Sound(s) && Enabled(s, StartRecovery(product))
    ensures Sound(Apply(s, StartRecovery(product)))
  {
    var t := Apply(s, StartRecovery(product));
    forall j: nat | j < |t.jobs|
      ensures JobFine(t, j)
    {
      if j < |s.jobs| {
        JobKept(s, t, j);
      }
    }
    Kept(s, t);
  }

  lemma ReopenStepFine(s: State, e: EventId)
    requires Sound(s) && Enabled(s, Reopen(e))
    ensures Sound(Apply(s, Reopen(e)))
  {
    var t := Apply(s, Reopen(e));
    forall j: nat | j < |t.jobs|
      ensures JobFine(t, j)
    {
      assert JobFine(s, j);
      JobKept(s, t, j);
    }
    Kept(s, t);
  }

  lemma StepSound(s: State, a: Action)
    requires Sound(s) && Enabled(s, a) && !Unsettles(s, a)
    ensures Sound(Apply(s, a))
  {
    match a
    case Tick(ms) => TickFine(s, ms);
    case Append(log, message) => AppendFine(s, log, message);
    case Fetch(log, hi, concurrency) => FetchFine(s, log, hi, concurrency);
    case TakeMessage(b, w) => TakeMessageFine(s, b, w);
    case SettleMessage(b, w) => SettleMessageFine(s, b, w);
    case Commit(b) => CommitFine(s, b);
    case StartRecovery(product) => StartRecoveryFine(s, product);
    case Reopen(e) => ReopenStepFine(s, e);
    case _ => HandlerFine(s, a);
  }

  // ------------------------------------------- the database under each step

  /** The steps that write receipts. */
  predicate WritesReceipt(a: Action) {
    a.Read? || a.RejectFails? || Enqueues(a) || CountsFailure(a) || GivesUp(a) || a.Reopen?
  }

  lemma OtherStepsKeepDb(s: State, a: Action)
    requires Enabled(s, a) && !WritesReceipt(a)
    ensures Apply(s, a).db == s.db
  {
  }

  lemma ReadKeepsDb(s: State, a: Action)
    requires Fine(s) && Enabled(s, a) && (a.Read? || a.RejectFails?)
    ensures DbFine(Apply(s, a).db)
  {
    assert EventFine(s.db, Key(s, a.j));
    if MessageOf(s, a.j).Unreadable? {
      TerminalFine(s.db, Key(s, a.j), s.retryLimit);
    }
  }

  lemma EnqueueKeepsDb(s: State, a: Action)
    requires Fine(s) && Enabled(s, a) && Enqueues(a)
    ensures Apply(s, a).db == Enqueued(s, a.j) && DbFine(Enqueued(s, a.j))
  {
    assert JobFine(s, a.j);
    EnqueueFine(s.db, Key(s, a.j), AuctionOf(s, a.j), s.jobs[a.j].phase.drafts, s.now);
  }

  lemma CatchKeepsDb(s: State, a: Action)
    requires Fine(s) && Enabled(s, a) && (CountsFailure(a) || GivesUp(a))
    ensures DbFine(Apply(s, a).db) <==> !Settled(s.db, Key(s, a.j))
  {
    assert JobFine(s, a.j);
    if CountsFailure(a) {
      FailureExact(s.db, Key(s, a.j));
    } else {
      TerminalExact(s.db, Key(s, a.j), s.jobs[a.j].phase.attempts);
    }
  }

  /** A step keeps the database's invariant exactly if it does not overwrite a settled receipt. */
  lemma StepKeepsDb(s: State, a: Action)
    requires Fine(s) && Enabled(s, a)
    ensures DbFine(Apply(s, a).db) <==> !OverwritesSettled(s, a)
  {
    if a.Read? || a.RejectFails? {
      ReadKeepsDb(s, a);
    } else if Enqueues(a) {
      EnqueueKeepsDb(s, a);
    } else if CountsFailure(a) || GivesUp(a) {
      CatchKeepsDb(s, a);
    } else if a.Reopen? {
      ReopenFine(s.db, a.e);
    } else {
      OtherStepsKeepDb(s, a);
    }
  }

  /** The exact condition: a step keeps the whole invariant if and only if it does not overwrite a settled receipt. */
  lemma StepFine(s: State, a: Action)
    requires Fine(s) && Enabled(s, a)
    ensures Fine(Apply(s, a)) <==> !OverwritesSettled(s, a)
  {
    StepKeepsDb(s, a);
    if !OverwritesSettled(s, a) {
      StepSound(s, a);
    }
  }

  lemma KeepingRun(s0: State, s: State)
    requires Init(s0) && Leads(KeepingNext, s0, s)
    ensures Sound(s)
  {
    forall t, u | Sound(t) && KeepingNext(t, u)
      ensures Sound(u)
    {
      var a :| Enabled(t, a) && !Unsettles(t, a) && u == Apply(t, a);
      StepSound(t, a);
    }
    LeadsKeeps(KeepingNext, Sound, s0, s);
    assert Sound(s);
  }

  lemma GuardedRun(s0: State, s: State)
    requires Init(s0) && Leads(GuardedNext, s0, s)
    ensures Fine(s)
  {
    forall t, u | Fine(t) && GuardedNext(t, u)
      ensures Fine(u)
    {
      var a :| Enabled(t, a) && !OverwritesSettled(t, a) && u == Apply(t, a);
      StepFine(t, a);
    }
    LeadsKeeps(GuardedNext, Fine, s0, s);
    assert Fine(s);
  }

  /**
   Commit safety: below a committed offset every message is of a type the group
   does not handle, or its receipt is processed or terminal, unless the stop
   check skipped it or an operator reopened its event. Handlers of one event may
   overlap as long as none counts a failure of an event already settled.
   */
  lemma CommitSafety(s0: State, s: State, log: nat, offset: nat)
    requires Init(s0) && Leads(KeepingNext, s0, s)
    requires log < |s.committed| && offset < s.committed[log]
    ensures IsMessage(s, log, offset)
    ensures var e := KeyOf(s.logs, Kafka(log, offset, 0));
            || s.logs[log][offset].Ignored?
            || HasStatus(s.db, e, Processed) || HasStatus(s.db, e, Terminal)
            || e in s.db.reopened
            || (log, offset) in s.skipped
  {
    KeepingRun(s0, s);
  }

  /**
   Idempotent effects: whatever was delivered twice, out of order or at the same
   time, an event's email rows are one for each key among the drafts of its first
   successful enqueue, with the first draft of that key; it has them exactly when
   its receipt is processed, and it has one dead letter for each time it became
   terminal.
   */
  lemma IdempotentEffects(s0: State, s: State, e: EventId)
    requires Init(s0) && Leads(GuardedNext, s0, s)
    ensures e in s.db.enqueued <==> HasStatus(s.db, e, Processed)
    ensures e in s.db.enqueued ==> RowsAreDrafts(s.db.emails, e, s.db.enqueued[e])
    ensures e !in s.db.enqueued ==> forall i :: 0 <= i < |s.db.emails| ==> s.db.emails[i].event != e
    ensures !e.Synthetic? ==> Count(s.db.dlq, e) == Count(s.db.reopened, e) + if HasStatus(s.db, e, Terminal) then 1 else 0
  {
    GuardedRun(s0, s);
    assert EventFine(s.db, e);
    if e in s.db.enqueued {
      RowsOfDrafts(s.db.emails, e, s.db.enqueued[e]);
    } else {
      forall i | 0 <= i < |s.db.emails|
        ensures s.db.emails[i].event != e
      {
        NoRows(s.db.emails, e, i);
      }
    }
  }

  // ------------------------------------------- what holds without the assumption

  lemma OnlyWritesEnqueue(s: State, a: Action)
    requires Enabled(s, a)
    ensures var t := Apply(s, a);
            if Enqueues(a) then t.db == Enqueued(s, a.j)
            else t.db.emails == s.db.emails && t.db.notifiedAt == s.db.notifiedAt
  {
  }

  /** In every run, overlapping handlers included, no two email rows share (event, recipient, template). */
  lemma EmailRowsUnique(s0: State, s: State)
    requires Init(s0) && Leads(Next, s0, s)
    ensures UniqueEmails(s.db.emails)
  {
    var inv := (t: State) => UniqueEmails(t.db.emails);
    forall t, u | inv(t) && Next(t, u)
      ensures inv(u)
    {
      var a :| Enabled(t, a) && u == Apply(t, a);
      OnlyWritesEnqueue(t, a);
      if Enqueues(a) {
        InsertKeepsUnique(t.db.emails, Key(t, a.j), t.jobs[a.j].phase.drafts);
      }
    }
    LeadsKeeps(Next, inv, s0, s);
  }

  /** An auction's notification stamp, once set, never changes. */
  lemma StampSetOnce(s0: State, s: State, product: string)
    requires Leads(Next, s0, s) && product in s0.db.notifiedAt
    ensures product in s.db.notifiedAt && s.db.notifiedAt[product] == s0.db.notifiedAt[product]
  {
    var inv := (t: State) => product in t.db.notifiedAt && t.db.notifiedAt[product] == s0.db.notifiedAt[product];
    forall t, u | inv(t) && Next(t, u)
      ensures inv(u)
    {
      var a :| Enabled(t, a) && u == Apply(t, a);
      OnlyWritesEnqueue(t, a);
    }
    LeadsKeeps(Next, inv, s0, s);
  }

  // ------------------------------------------- one handler of an event at a time

  /** The handlers of one event do not overlap. */
  ghost predicate OneAtATime(s: State) {
    forall j, k :: 0 <= j < k < |s.jobs| && Active(s.jobs[j].phase) && Active(s.jobs[k].phase) ==> Key(s, j) != Key(s, k)
  }

  ghost predicate OneAtATimeNext(s: State, t: State) {
    OneAtATime(s) && Next(s, t)
  }

  /** What leads into the catch block although the event is settled: its first read fails, or the reply to its write is lost. */
  predicate FailsSettled(s: State, a: Action)
    requires Enabled(s, a)
  {
    || (a.ReadFails? && Settled(s.db, Key(s, a.j)))
    || (a.WriteFails? && a.applied && s.jobs[a.j].source.Kafka?)
  }

  ghost predicate SerialNext(s: State, t: State) {
    OneAtATime(s) && exists a :: Enabled(s, a) && !FailsSettled(s, a) && t == Apply(s, a)
  }

  /** A handler at work works on an event that is not settled. */
  ghost predicate ActiveUnsettled(s: State) {
    forall j: nat :: j < |s.jobs| && Active(s.jobs[j].phase) ==> !Settled(s.db, Key(s, j))
  }

  /** A step settles no event but that of a handler at work, or of an unreadable message. */
  lemma SettlesItsOwn(s: State, a: Action, e: EventId)
    requires Sound(s) && Enabled(s, a) && Settled(Apply(s, a).db, e)
    ensures || Settled(s.db, e)
            || ((Enqueues(a) || GivesUp(a) || a.Read? || a.RejectFails?)
                && e == Key(s, a.j) && (Active(s.jobs[a.j].phase) || e.Synthetic?))
  {
  }

  /** A new handler at work is a recovery of an event that is not settled. */
  lemma NewJob(s: State, a: Action, k: nat)
    requires Sound(s) && Enabled(s, a) && |s.jobs| <= k < |Apply(s, a).jobs| && Active(Apply(s, a).jobs[k].phase)
    ensures a.StartRecovery? && !Settled(s.db, Key(Apply(s, a), k))
  {
  }

  lemma KeyStays(s: State, a: Action, k: nat)
    requires Sound(s) && Enabled(s, a) && k < |s.jobs|
    ensures k < |Apply(s, a).jobs| && Key(Apply(s, a), k) == Key(s, k)
  {
    assert JobFine(s, k);
  }

  /** A handler gets to work on an unsettled event; when it writes or gives up, it ends. */
  lemma OldJob(s: State, a: Action, k: nat)
    requires Enabled(s, a) && !FailsSettled(s, a)
    requires k < |s.jobs| && k < |Apply(s, a).jobs| && Active(Apply(s, a).jobs[k].phase)
    ensures !Active(s.jobs[k].phase) ==> (a.Read? || a.ReadFails?) && a.j == k && !Settled(s.db, Key(s, k))
    ensures Enqueues(a) || GivesUp(a) ==> a.j != k
  {
  }

  lemma AloneOnEvent(s: State, k: nat)
    requires OneAtATime(s) && k < |s.jobs| && Active(s.jobs[k].phase)
    ensures forall j: nat :: j < |s.jobs| && j != k && Active(s.jobs[j].phase) ==> Key(s, j) != Key(s, k)
  {
    assert forall j: nat :: j < |s.jobs| && Active(s.jobs[j].phase) ==> j < k || k < j || j == k;
  }

  lemma SerialKeeps(s: State, a: Action)
    requires Sound(s) && ActiveUnsettled(s) && OneAtATime(s) && Enabled(s, a) && !FailsSettled(s, a)
    ensures ActiveUnsettled(Apply(s, a))
  {
    var t := Apply(s, a);
    forall k: nat | k < |t.jobs| && Active(t.jobs[k].phase)
      ensures !Settled(t.db, Key(t, k))
    {
      if k >= |s.jobs| {
        NewJob(s, a, k);
      } else {
        KeyStays(s, a, k);
        OldJob(s, a, k);
        assert JobFine(s, k);
        if Active(s.jobs[k].phase) {
          AloneOnEvent(s, k);
        }
      }
      if Settled(t.db, Key(t, k)) {
        SettlesItsOwn(s, a, Key(t, k));
      }
    }
  }

  /** A handler that is led into the catch block of a settled event can overwrite its receipt next. */
  lemma SettledIsCaught(s: State, a: Action)
    requires Sound(s) && Enabled(s, a) && FailsSettled(s, a)
    ensures var t := Apply(s, a);
            && !ActiveUnsettled(t)
            && Enabled(t, RecordFailure(a.j)) && OverwritesSettled(t, RecordFailure(a.j))
  {
    var t := Apply(s, a);
    assert JobFine(s, a.j);
    assert Key(t, a.j) == Key(s, a.j) && t.jobs[a.j].phase == Failing;
  }

  lemma WorkOnUnsettled(s: State, a: Action)
    requires ActiveUnsettled(s) && Enabled(s, a)
    ensures !OverwritesSettled(s, a)
  {
  }

  /** The exact condition for one handler of an event at a time: those two steps and no others lead to such a catch block. */
  lemma SerialExact(s: State, a: Action)
    requires Sound(s) && ActiveUnsettled(s) && OneAtATime(s) && Enabled(s, a)
    ensures !OverwritesSettled(s, a)
    ensures ActiveUnsettled(Apply(s, a)) <==> !FailsSettled(s, a)
  {
    WorkOnUnsettled(s, a);
    if FailsSettled(s, a) {
      SettledIsCaught(s, a);
    } else {
      SerialKeeps(s, a);
    }
  }

  /**
   If the handlers of one event never overlap, no first read fails for a settled
   event and no reply to a write is lost, then no settled receipt is overwritten.
   */
  lemma SerialRunsAreGuarded(s0: State, s: State)
    requires Init(s0) && Leads(SerialNext, s0, s)
    ensures Leads(GuardedNext, s0, s) && Leads(KeepingNext, s0, s)
  {
    var inv := (t: State) => Fine(t) && ActiveUnsettled(t) && Leads(GuardedNext, s0, t) && Leads(KeepingNext, s0, t);
    LeadsNowhere(GuardedNext, s0);
    LeadsNowhere(KeepingNext, s0);
    forall t, u | inv(t) && SerialNext(t, u)
      ensures inv(u)
    {
      var a :| Enabled(t, a) && !FailsSettled(t, a) && u == Apply(t, a);
      SerialExact(t, a);
      StepFine(t, a);
      LeadsStep(GuardedNext, s0, t, u);
      LeadsStep(KeepingNext, s0, t, u);
    }
    LeadsKeeps(SerialNext, inv, s0, s);
  }

  // ------------------------------------------------ recovery and replay

  /** The recovery of an auction starts for any product without a stamp, and returns at once if its event is settled. */
  lemma RecoveryStarts(s: State, product: string)
    requires product !in s.db.notifiedAt
    ensures Enabled(s, StartRecovery(product))
    ensures var t := Apply(s, StartRecovery(product));
            && t == s.(jobs := t.jobs) && |t.jobs| == |s.jobs| + 1 && t.jobs[..|s.jobs|] == s.jobs
            && t.jobs[|s.jobs|].source == Recover(product)
            && (t.jobs[|s.jobs|].phase == Returned <==> Settled(s.db, Recovery(product)))
            && (t.jobs[|s.jobs|].phase == Resolving <==> !Settled(s.db, Recovery(product)))
  {
  }

  /** A recovery whose calls succeed leaves the auction stamped at the time of its transaction, and each draft inserted. */
  lemma RecoveryStamps(s: State, product: string, drafts: seq<Draft>, ms: nat) returns (t: State)
    requires product !in s.db.notifiedAt && !Settled(s.db, Recovery(product))
    ensures Leads(Next, s, t) && t.now == s.now + ms
    ensures HasStatus(t.db, Recovery(product), Processed)
    ensures Inserted(s.db.emails, t.db.emails, Recovery(product), drafts)
    ensures product in t.db.notifiedAt && t.db.notifiedAt[product] == s.now + ms
  {
    var j := |s.jobs|;
    LeadsNowhere(Next, s);
    t := TakeStep(s, s, StartRecovery(product));
    t := TakeStep(s, t, Resolve(j, drafts));
    t := TakeStep(s, t, Tick(ms));
    assert t.db == s.db && t.jobs[j] == Job(Recover(product), Writing(drafts));
    EnqueueContents(t.db, Recovery(product), Some(product), drafts, t.now);
    t := TakeStep(s, t, Write(j));
  }

  /** A handler whose drafts or transaction fail goes on in its catch block; a recovery has none and throws. */
  lemma FailuresAreCaught(s: State, a: Action)
    requires Enabled(s, a) && (a.ResolveFails? || a.WriteFails?)
    ensures Apply(s, a).jobs[a.j].phase == (if s.jobs[a.j].source.Recover? then Threw else Failing)
    ensures !(a.WriteFails? && a.applied) ==> Apply(s, a).db == s.db
  {
  }

  /** Once an operator has reopened an event, its next delivery is handled, whereas without that it would return. */
  lemma ReopenedIsHandled(s: State, j: nat)
    requires Enabled(s, Read(j)) && MessageOf(s, j).Notify? && HasStatus(s.db, Key(s, j), Terminal)
    ensures Apply(s, Read(j)).jobs[j].phase == Returned
    ensures var t := Apply(s, Reopen(Key(s, j)));
            && !Settled(t.db, Key(s, j)) && Key(s, j) in t.db.reopened
            && Enabled(t, Read(j)) && Apply(t, Read(j)).jobs[j].phase == Resolving
  {
    var t := Apply(s, Reopen(Key(s, j)));
    ReopenContents(s.db, Key(s, j));
    assert Key(t, j) == Key(s, j);
  }

  // ------------------------------------------------ where commit safety ends

  lemma TakeStep(s0: State, s: State, a: Action) returns (t: State)
    requires Leads(Next, s0, s) && Enabled(s, a)
    ensures t == Apply(s, a) && Leads(Next, s0, t)
  {
    t := Apply(s, a);
    assert Next(s, t);
    LeadsStep(Next, s0, s, t);
  }

  /** The relation has every step that is taken while handlers of one event do not overlap. */
  ghost predicate HasSerialSteps(step: (State, State) -> bool) {
    forall s, a :: OneAtATime(s) && Enabled(s, a) ==> step(s, Apply(s, a))
  }

  lemma TakeSerial(step: (State, State) -> bool, s0: State, s: State, a: Action) returns (t: State)
    requires HasSerialSteps(step) && Leads(step, s0, s) && OneAtATime(s) && Enabled(s, a)
    ensures t == Apply(s, a) && Leads(step, s0, t)
  {
    t := Apply(s, a);
    LeadsStep(step, s0, s, t);
  }

  /** A batch of one message whose single worker is at this point. */
  function OneMessageBatch(base: nat, worker: BoundedMap.Worker, next: nat, done: bool): Batch {
    Batch(0, 0, 1, base,
          BoundedMap.State(1, next, [worker], [if done then Some(()) else None], if next == 0 then [] else [0], {}))
  }

  /** The group fetches the only message of its only partition, and its handler begins. */
  lemma FetchOne(step: (State, State) -> bool, s0: State, s: State) returns (t: State)
    requires HasSerialSteps(step) && Leads(step, s0, s) && OneAtATime(s)
    requires |s.logs| == |s.committed| == 1 && |s.logs[0]| == 1 && s.committed[0] == 0
    ensures Leads(step, s0, t)
    ensures t == s.(batches := s.batches + [OneMessageBatch(|s.jobs|, BoundedMap.Awaiting(0), 1, false)],
                    jobs := s.jobs + [Job(Kafka(0, 0, |s.batches|), Reading)])
  {
    var b, j := |s.batches|, |s.jobs|;
    t := TakeSerial(step, s0, s, Fetch(0, 1, 1));
    assert t.batches[b] == OneMessageBatch(j, BoundedMap.Ready, 0, false);
    assert t.jobs == s.jobs + [Job(Kafka(0, 0, b), Idle)];
    StillOneAtATime(s, t);
    t := TakeSerial(step, s0, t, TakeMessage(b, 0));
    assert t.batches[b] == OneMessageBatch(j, BoundedMap.Awaiting(0), 1, false);
    assert t.batches == s.batches + [OneMessageBatch(j, BoundedMap.Awaiting(0), 1, false)];
    assert t.jobs == s.jobs + [Job(Kafka(0, 0, b), Reading)];
  }

  lemma StillOneAtATime(s: State, t: State)
    requires OneAtATime(s) && t.logs == s.logs && |s.jobs| <= |t.jobs|
    requires forall j :: 0 <= j < |s.jobs| ==> t.jobs[j] == s.jobs[j]
    requires forall j :: |s.jobs| <= j < |t.jobs| ==> !Active(t.jobs[j].phase)
    ensures OneAtATime(t)
  {
    forall j, k | 0 <= j < k < |t.jobs| && Active(t.jobs[j].phase) && Active(t.jobs[k].phase)
      ensures Key(t, j) != Key(t, k)
    {
      assert Key(s, j) != Key(s, k);
    }
  }

  /** The handler has returned, and the batch commits. */
  lemma CommitOne(step: (State, State) -> bool, s0: State, s: State, b: nat) returns (t: State)
    requires HasSerialSteps(step) && Leads(step, s0, s) && OneAtATime(s) && |s.committed| == 1
    requires b < |s.batches| && s.batches[b].base < |s.jobs| && s.jobs[s.batches[b].base].phase.Returned?
    requires s.batches[b] == OneMessageBatch(s.batches[b].base, BoundedMap.Awaiting(0), 1, false)
    ensures Leads(step, s0, t) && t == s.(committed := [1], batches := t.batches)
  {
    var base := s.batches[b].base;
    t := TakeSerial(step, s0, s, SettleMessage(b, 0));
    assert t.batches[b] == OneMessageBatch(base, BoundedMap.Ready, 1, true);
    StillOneAtATime(s, t);
    t := TakeSerial(step, s0, t, TakeMessage(b, 0));
    assert BoundedMap.Resolved(t.batches[b].sched) && t.jobs == s.jobs;
    StillOneAtATime(s, t);
    t := TakeSerial(step, s0, t, Commit(b));
  }

  /** A group with one partition that holds one event to notify about. */
  lemma OneMessage(step: (State, State) -> bool, retryLimit: int, id: string) returns (s0: State, s: State)
    requires HasSerialSteps(step)
    ensures Init(s0) && Leads(step, s0, s)
    ensures s == State(retryLimit, 0, [[Notify(id, None)]], [0], EMPTY, [], [], [], {})
  {
    s0 := State(retryLimit, 0, [[]], [0], EMPTY, [], [], [], {});
    LeadsNowhere(step, s0);
    s := TakeSerial(step, s0, s0, Append(0, Notify(id, None)));
    assert s0.logs[0] + [Notify(id, None)] == [Notify(id, None)];
  }

  /** Two open batches of the group's only message, and their handlers. */
  function TwoHandlers(retryLimit: int, id: string, db: Db, one: Phase, other: Phase): State {
    State(retryLimit, 0, [[Notify(id, None)]], [0], db,
          [OneMessageBatch(0, BoundedMap.Awaiting(0), 1, false), OneMessageBatch(1, BoundedMap.Awaiting(0), 1, false)],
          [Job(Kafka(0, 0, 0), one), Job(Kafka(0, 0, 1), other)], [], {})
  }

  lemma FetchedTwice(step: (State, State) -> bool, retryLimit: int, id: string) returns (s0: State, s: State)
    requires HasSerialSteps(step)
    ensures Init(s0) && Leads(step, s0, s) && s == TwoHandlers(retryLimit, id, EMPTY, Reading, Reading)
  {
    s0, s := OneMessage(step, retryLimit, id);
    s := FetchOne(step, s0, s);
    s := FetchOne(step, s0, s);
    assert s.jobs == [Job(Kafka(0, 0, 0), Reading), Job(Kafka(0, 0, 1), Reading)];
  }

  lemma BothRead(retryLimit: int, id: string) returns (s0: State, s: State)
    ensures Init(s0) && Leads(Next, s0, s) && s == TwoHandlers(retryLimit, id, EMPTY, Resolving, Resolving)
  {
    s0, s := FetchedTwice(Next, retryLimit, id);
    s := TakeStep(s0, s, Read(0));
    s := TakeStep(s0, s, Read(1));
    assert s.jobs == [Job(Kafka(0, 0, 0), Resolving), Job(Kafka(0, 0, 1), Resolving)];
  }

  /** The message is fetched twice, and one handler writes while the other is in its catch block. */
  lemma WrittenWhileFailing(retryLimit: int, id: string) returns (s0: State, s: State)
    ensures Init(s0) && Leads(Next, s0, s)
    ensures s == TwoHandlers(retryLimit, id, EnqueueTx(EMPTY, Real(id), None, [], 0), Returned, Failing)
  {
    s0, s := BothRead(retryLimit, id);
    s := TakeStep(s0, s, ResolveFails(1));
    s := TakeStep(s0, s, Resolve(0, []));
    s := TakeStep(s0, s, Write(0));
    assert s.jobs == [Job(Kafka(0, 0, 0), Returned), Job(Kafka(0, 0, 1), Failing)];
  }

  /**
   Counting a failure does not look at the receipt: a message fetched twice, as
   after a rebalance, is processed and committed by one handler, and then the
   other puts its receipt back to retrying below the committed offset.
   */
  lemma CommittedThenUnsettled(retryLimit: int, id: string) returns (s0: State, s: State)
    ensures Init(s0) && Leads(Next, s0, s)
    ensures s.logs == [[Notify(id, None)]] && s.committed == [1]
    ensures !Settled(s.db, Real(id)) && s.db.reopened == [] && s.skipped == {}
    ensures retryLimit > 2 ==> forall j :: 0 <= j < |s.jobs| ==> s.jobs[j].phase.Returned? || s.jobs[j].phase.Threw?
  {
    s0, s := WrittenWhileFailing(retryLimit, id);
    s := CommitOne(Next, s0, s, 0);
    s := TakeStep(s0, s, RecordFailure(1));
  }

  lemma TwoAreSerial(retryLimit: int, id: string, db: Db, one: Phase, other: Phase)
    requires !Active(one) || !Active(other)
    ensures OneAtATime(TwoHandlers(retryLimit, id, db, one, other))
  {
  }

  lemma ReadOnce(retryLimit: int, id: string) returns (s0: State, s: State)
    ensures Init(s0) && Leads(OneAtATimeNext, s0, s) && s == TwoHandlers(retryLimit, id, EMPTY, Resolving, Reading)
  {
    s0, s := FetchedTwice(OneAtATimeNext, retryLimit, id);
    TwoAreSerial(retryLimit, id, EMPTY, Reading, Reading);
    s := TakeSerial(OneAtATimeNext, s0, s, Read(0));
    assert s.jobs == [Job(Kafka(0, 0, 0), Resolving), Job(Kafka(0, 0, 1), Reading)];
  }

  lemma ResolvedOnce(retryLimit: int, id: string) returns (s0: State, s: State)
    ensures Init(s0) && Leads(OneAtATimeNext, s0, s) && s == TwoHandlers(retryLimit, id, EMPTY, Writing([]), Reading)
  {
    s0, s := ReadOnce(retryLimit, id);
    TwoAreSerial(retryLimit, id, EMPTY, Resolving, Reading);
    s := TakeSerial(OneAtATimeNext, s0, s, Resolve(0, []));
    assert s.jobs == [Job(Kafka(0, 0, 0), Writing([])), Job(Kafka(0, 0, 1), Reading)];
  }

  /** A message that is processed, while its copy has been fetched and not yet read. */
  lemma ProcessedOnce(retryLimit: int, id: string) returns (s0: State, s: State)
    ensures Init(s0) && Leads(OneAtATimeNext, s0, s)
    ensures s == TwoHandlers(retryLimit, id, EnqueueTx(EMPTY, Real(id), None, [], 0), Returned, Reading)
  {
    s0, s := ResolvedOnce(retryLimit, id);
    TwoAreSerial(retryLimit, id, EMPTY, Writing([]), Reading);
    assert Key(s, 0) == Real(id) && AuctionOf(s, 0) == None;
    s := TakeSerial(OneAtATimeNext, s0, s, Write(0));
    assert s.jobs == [Job(Kafka(0, 0, 0), Returned), Job(Kafka(0, 0, 1), Reading)];
  }

  /**
   One handler at a time does not suffice: a message is processed and committed,
   and then the first read of its copy fails, which ends in the catch block and
   puts the receipt back to retrying below the committed offset.
   */
  lemma FailedReadUnsettles(retryLimit: int, id: string) returns (s0: State, s: State)
    ensures Init(s0) && Leads(OneAtATimeNext, s0, s)
    ensures s.logs == [[Notify(id, None)]] && s.committed == [1]
    ensures !Settled(s.db, Real(id)) && s.db.reopened == [] && s.skipped == {}
  {
    s0, s := ProcessedOnce(retryLimit, id);
    s := CommitOne(OneAtATimeNext, s0, s, 0);
    s := TakeSerial(OneAtATimeNext, s0, s, ReadFails(1));
    assert s.jobs == [Job(Kafka(0, 0, 0), Returned), Job(Kafka(0, 0, 1), Failing)];
    s := TakeSerial(OneAtATimeNext, s0, s, RecordFailure(1));
  }

  /** A message that the stop check skips is committed with its batch, and its event has no receipt at all. */
  lemma CommittedUnhandled(retryLimit: int, id: string) returns (s0: State, s: State)
    ensures Init(s0) && Leads(Next, s0, s)
    ensures s.logs == [[Notify(id, None)]] && s.committed == [1]
    ensures s.db == EMPTY && s.skipped == {(0, 0)}
  {
    s0, s := OneMessage(Next, retryLimit, id);
    s := FetchOne(Next, s0, s);
    s := TakeStep(s0, s, Skip(0));
    s := CommitOne(Next, s0, s, 0);
  }

  // ---------------------------------------------------------- poison bound

  /** How often a counted failure of the event was thrown. */
  function Throws(thrown: seq<Throw>, e: EventId): nat {
    if thrown == [] then 0
    else Throws(thrown[..|thrown| - 1], e) + if thrown[|thrown| - 1].event == e then 1 else 0
  }

  lemma ThrowsAppend(thrown: seq<Throw>, x: Throw, e: EventId)
    ensures Throws(thrown + [x], e) == Throws(thrown, e) + if x.event == e then 1 else 0
  {
    assert (thrown + [x])[..|thrown|] == thrown;
  }

  predicate Bounded(throws: nat, attempts: int, retryLimit: int) {
    throws <= Max(0, retryLimit - 1) && (attempts < retryLimit ==> throws <= attempts)
  }

  ghost predicate Poison(s: State, e: EventId) {
    Bounded(Throws(s.thrown, e), Attempts(s.db, e), s.retryLimit)
  }

  ghost predicate PoisonFine(s: State) {
    && (forall e :: Poison(s, e))
    && (forall j :: 0 <= j < |s.jobs| && s.jobs[j].phase.Exhausted? ==> s.jobs[j].phase.attempts >= s.retryLimit)
  }

  /** The catch block counts one failure of its own event, and throws it while attempts are left. */
  lemma FailureCounts(s: State, j: nat, e: EventId) returns (t: State)
    requires Enabled(s, RecordFailure(j))
    ensures t == AfterRecord(s, j) && t.retryLimit == s.retryLimit
    ensures Attempts(t.db, e) == Attempts(s.db, e) + if e == Key(s, j) then 1 else 0
    ensures Throws(t.thrown, e)
         == Throws(s.thrown, e) + if e == Key(s, j) && Attempts(s.db, e) + 1 < s.retryLimit then 1 else 0
  {
    t := AfterRecord(s, j);
    ThrowsAppend(s.thrown, Throw(s.jobs[j].source.batch, Key(s, j)), e);
  }

  lemma FailurePoison(s: State, j: nat, e: EventId)
    requires Poison(s, e) && Enabled(s, RecordFailure(j))
    ensures Poison(AfterRecord(s, j), e)
  {
    var t := FailureCounts(s, j, e);
    assert Bounded(Throws(t.thrown, e), Attempts(t.db, e), t.retryLimit);
  }

  lemma RecordFailurePoison(s: State, j: nat)
    requires PoisonFine(s) && Enabled(s, RecordFailure(j))
    ensures PoisonFine(Apply(s, RecordFailure(j)))
  {
    var t := AfterRecord(s, j);
    forall e
      ensures Poison(t, e)
    {
      assert Poison(s, e);
      FailurePoison(s, j, e);
    }
    ExhaustedKept(s, RecordFailure(j));
  }

  lemma ExhaustedKept(s: State, a: Action)
    requires PoisonFine(s) && Enabled(s, a)
    ensures var t := Apply(s, a);
            forall j :: 0 <= j < |t.jobs| && t.jobs[j].phase.Exhausted? ==> t.jobs[j].phase.attempts >= t.retryLimit
  {
  }

  /** Outside the catch block attempts grow, or reach the limit. */
  lemma AttemptsKept(s: State, a: Action, e: EventId)
    requires PoisonFine(s) && Enabled(s, a) && !a.RecordFailure?
    ensures var t := Apply(s, a);
            t.thrown == s.thrown && t.retryLimit == s.retryLimit
            && (Attempts(t.db, e) >= Attempts(s.db, e) || Attempts(t.db, e) >= s.retryLimit)
  {
  }

  lemma StepPoison(s: State, a: Action)
    requires PoisonFine(s) && Enabled(s, a)
    ensures PoisonFine(Apply(s, a))
  {
    if a.RecordFailure? {
      RecordFailurePoison(s, a.j);
    } else {
      var t := Apply(s, a);
      forall e
        ensures Poison(t, e)
      {
        assert Poison(s, e);
        AttemptsKept(s, a, e);
      }
      ExhaustedKept(s, a);
    }
  }

  /** The batches in which a counted failure of an event in `events` was thrown. */
  function RejectedFor(thrown: seq<Throw>, events: set<EventId>): set<nat> {
    set k | 0 <= k < |thrown| && thrown[k].event in events :: thrown[k].batch
  }

  function ThrowsIn(thrown: seq<Throw>, events: set<EventId>): nat {
    if thrown == [] then 0
    else ThrowsIn(thrown[..|thrown| - 1], events) + if thrown[|thrown| - 1].event in events then 1 else 0
  }

  lemma {:induction false} RejectionsBounded(thrown: seq<Throw>, events: set<EventId>)
    ensures |RejectedFor(thrown, events)| <= ThrowsIn(thrown, events)
  {
    if thrown == [] {
      assert RejectedFor(thrown, events) == {};
    } else {
      var last := |thrown| - 1;
      RejectionsBounded(thrown[..last], events);
      var before := RejectedFor(thrown[..last], events);
      if thrown[last].event in events {
        assert RejectedFor(thrown, events) == before + {thrown[last].batch};
      } else {
        assert RejectedFor(thrown, events) == before;
      }
    }
  }

  lemma {:induction false} ThrowsSplit(thrown: seq<Throw>, events: set<EventId>, e: EventId)
    requires e in events
    ensures ThrowsIn(thrown, events) == ThrowsIn(thrown, events - {e}) + Throws(thrown, e)
  {
    if thrown != [] {
      ThrowsSplit(thrown[..|thrown| - 1], events, e);
    }
  }

  lemma {:induction false} NoEventsNoThrows(thrown: seq<Throw>)
    ensures ThrowsIn(thrown, {}) == 0
  {
    if thrown != [] {
      NoEventsNoThrows(thrown[..|thrown| - 1]);
    }
  }

  lemma {:induction false} ThrowsSum(thrown: seq<Throw>, events: set<EventId>, most: nat)
    requires forall e :: e in events ==> Throws(thrown, e) <= most
    ensures ThrowsIn(thrown, events) <= |events| * most
    decreases |events|
  {
    if events == {} {
      NoEventsNoThrows(thrown);
    } else {
      var e :| e in events;
      ThrowsSum(thrown, events - {e}, most);
      ThrowsSplit(thrown, events, e);
      assert |events| * most == (|events| - 1) * most + most;
    }
  }

  /**
   The poison bound, in every run: a counted failure of an event, one whose
   upsert was answered, is thrown at most retryLimit - 1 times, so batches made of
   the m events in `events` are rejected for counted failures at most
   m * (retryLimit - 1) times. A throw out of the catch block itself is not counted.
   */
  lemma PoisonBound(s0: State, s: State, events: set<EventId>)
    requires Init(s0) && Leads(Next, s0, s)
    ensures forall e :: Throws(s.thrown, e) <= Max(0, s.retryLimit - 1)
    ensures |RejectedFor(s.thrown, events)| <= |events| * Max(0, s.retryLimit - 1)
  {
    forall t, u | PoisonFine(t) && Next(t, u)
      ensures PoisonFine(u)
    {
      var a :| Enabled(t, a) && u == Apply(t, a);
      StepPoison(t, a);
    }
    LeadsKeeps(Next, PoisonFine, s0, s);
    forall e
      ensures Throws(s.thrown, e) <= Max(0, s.retryLimit - 1)
    {
      assert PoisonFine(s) && Poison(s, e);
    }
    RejectionsBounded(s.thrown, events);
    ThrowsSum(s.thrown, events, Max(0, s.retryLimit - 1));
  }
}
