/**
 The code of one notification handler, run against the database. Each call is a
 path of the step system in module NotificationConsumer.
 */
module NotificationIntake {
  import opened Prelude
  import opened NotificationStore
  import opened NotificationConsumer
  import Paths

  /** How a statement ends: it is applied and answered, it is refused, or it is applied and its reply is lost. */
  datatype Reply = Answered | Refused | Lost

  /** How the calls of one handler end: its first read, the resolving of its drafts, and its three transactions. */
  datatype Calls = Calls(read: bool, drafts: Settlement<seq<Draft>>, write: Reply, record: Reply, giveUp: Reply)

  /** A database that answers. */
  function Answering(drafts: Settlement<seq<Draft>>): Calls {
    Calls(true, drafts, Answered, Answered, Answered)
  }

  /** The terminal transaction, and whether it throws. */
  function GivenUp(db: Db, e: EventId, attempts: int, reply: Reply): (Db, bool) {
    (if reply == Refused then db else TerminalTx(db, e, attempts), reply != Answered)
  }

  /** The catch block. */
  function AfterCatch(db: Db, retryLimit: int, e: EventId, calls: Calls): (Db, bool) {
    var attempts := Attempts(db, e) + 1;
    if calls.record == Refused then (db, true)
    else if calls.record == Lost || attempts < retryLimit then (FailureTx(db, e), true)
    else GivenUp(FailureTx(db, e), e, attempts, calls.giveUp)
  }

  /** What handling a message does to the database, and whether it throws. */
  function Handled(db: Db, retryLimit: int, now: int, e: EventId, message: Incoming, calls: Calls): (Db, bool) {
    match message
    case Unreadable => GivenUp(db, e, retryLimit, calls.giveUp)
    case Ignored => (db, false)
    case Notify(_, auction) =>
      if calls.read && Settled(db, e) then (db, false)
      else if !calls.read || calls.drafts.Rejected? || calls.write == Refused then AfterCatch(db, retryLimit, e, calls)
      else
        var written := EnqueueTx(db, e, auction, calls.drafts.value, now);
        if calls.write == Answered then (written, false) else AfterCatch(written, retryLimit, e, calls)
  }

  /** The handler is where its catch block begins. */
  ghost predicate AtCatch(s0: State, s: State, j: nat) {
    InPhase(s, j, Failing) && FromKafka(s, j) && Paths.Leads(Next, s0, s)
  }

  lemma CatchIsPath(s0: State, s: State, j: nat, calls: Calls) returns (t: State)
    requires AtCatch(s0, s, j)
    ensures Paths.Leads(Next, s0, t)
    ensures |t.jobs| == |s.jobs| && (t.jobs[j].phase.Returned? || t.jobs[j].phase.Threw?)
    ensures (t.db, t.jobs[j].phase.Threw?) == AfterCatch(s.db, s.retryLimit, Key(s, j), calls)
  {
    if calls.record != Answered {
      t := TakeStep(s0, s, RecordFails(j, calls.record == Lost));
    } else {
      t := TakeStep(s0, s, RecordFailure(j));
      if t.jobs[j].phase.Exhausted? {
        assert Key(t, j) == Key(s, j);
        t := TakeStep(s0, t, if calls.giveUp == Answered then GiveUp(j) else GiveUpFails(j, calls.giveUp == Lost));
      }
    }
  }

  /** The steps of a handler of an unsettled event, up to its return or its catch block. */
  lemma TryIsPath(s: State, j: nat, calls: Calls) returns (t: State)
    requires InPhase(s, j, Reading) && FromKafka(s, j) && MessageOf(s, j).Notify? && calls.read && !Settled(s.db, Key(s, j))
    ensures |t.jobs| == |s.jobs| && t.retryLimit == s.retryLimit && Key(t, j) == Key(s, j)
    ensures if calls.drafts.Fulfilled? && calls.write == Answered then t.jobs[j].phase.Returned? && Paths.Leads(Next, s, t)
            else AtCatch(s, t, j)
    ensures t.db == if calls.drafts.Rejected? || calls.write == Refused then s.db
                    else EnqueueTx(s.db, Key(s, j), MessageOf(s, j).auction, calls.drafts.value, s.now)
  {
    Paths.LeadsNowhere(Next, s);
    t := TakeStep(s, s, Read(j));
    if calls.drafts.Rejected? {
      t := TakeStep(s, t, ResolveFails(j));
    } else {
      t := TakeStep(s, t, Resolve(j, calls.drafts.value));
      t := TakeStep(s, t, if calls.write == Answered then Write(j) else WriteFails(j, calls.write == Lost));
    }
  }

  /** The handler's steps: what it does to the database is what the protocol does, however its calls end. */
  lemma HandlerIsPath(s: State, j: nat, calls: Calls) returns (t: State)
    requires InPhase(s, j, Reading) && FromKafka(s, j)
    ensures Paths.Leads(Next, s, t)
    ensures |t.jobs| == |s.jobs| && (t.jobs[j].phase.Returned? || t.jobs[j].phase.Threw?)
    ensures (t.db, t.jobs[j].phase.Threw?)
         == Handled(s.db, s.retryLimit, s.now, Key(s, j), MessageOf(s, j), calls)
  {
    Paths.LeadsNowhere(Next, s);
    var message := MessageOf(s, j);
    if message.Notify? && calls.read && !Settled(s.db, Key(s, j)) {
      t := TryIsPath(s, j, calls);
      if !t.jobs[j].phase.Returned? {
        t := CatchIsPath(s, t, j, calls);
      }
    } else if message.Notify? && !calls.read {
      t := TakeStep(s, s, ReadFails(j));
      assert Key(t, j) == Key(s, j);
      t := CatchIsPath(s, t, j, calls);
    } else if message.Unreadable? && calls.giveUp != Answered {
      t := TakeStep(s, s, RejectFails(j, calls.giveUp == Lost));
    } else {
      t := TakeStep(s, s, Read(j));
    }
  }

  class Intake {
    const retryLimit: int
    var now: int
    var receipts: map<EventId, Receipt>
    var emails: seq<Email>
    var notifiedAt: map<string, int>
    var dlq: seq<EventId>
    ghost var enqueued: map<EventId, seq<Draft>>
    ghost var reopened: seq<EventId>

    ghost function Store(): Db
      reads this
    {
      Db(receipts, emails, notifiedAt, dlq, enqueued, reopened)
    }

    method TerminalReceipt(e: EventId, attempts: int, reply: Reply) returns (thrown: bool)
      modifies this`receipts, this`dlq
      ensures (Store(), thrown) == GivenUp(old(Store()), e, attempts, reply)
    {
      if reply != Refused {
        receipts := receipts[e := Receipt(Terminal, attempts)];
        dlq := dlq + [e];
      }
      thrown := reply != Answered;
    }

    /** `createMany` with `skipDuplicates`: row after row, unless its key is taken. */
    method CreateEmails(e: EventId, drafts: seq<Draft>)
      modifies this`emails
      ensures emails == InsertDrafts(old(emails), e, drafts)
    {
      for k := 0 to |drafts|
        invariant emails == InsertDrafts(old(emails), e, drafts[..k])
      {
        assert drafts[..k + 1][..k] == drafts[..k];
        if !HasEmail(emails, e, drafts[k].key) {
          emails := emails + [Email(e, drafts[k])];
        }
      }
      assert drafts[..|drafts|] == drafts;
    }

    /** The transaction of `enqueueNotificationEvent`, with its second look at the receipt. */
    method WriteAll(e: EventId, auction: Option<string>, drafts: seq<Draft>)
      modifies this`receipts, this`emails, this`notifiedAt, this`enqueued
      ensures Store() == EnqueueTx(old(Store()), e, auction, drafts, now)
    {
      if IsSettled(receipts, e) {
        return;
      }
      receipts := receipts[e := Receipt(Processed, AttemptsIn(receipts, e) + 1)];
      CreateEmails(e, drafts);
      if auction.Some? && auction.value !in notifiedAt {
        notifiedAt := notifiedAt[auction.value := now];
      }
      if e !in enqueued {
        enqueued := enqueued[e := drafts];
      }
    }

    /** `enqueueNotificationEvent`: it throws if its first read fails, even for a settled event, or its drafts or its write do. */
    method EnqueueNotificationEvent(e: EventId, auction: Option<string>, calls: Calls) returns (thrown: bool)
      modifies this`receipts, this`emails, this`notifiedAt, this`enqueued
      ensures thrown == (!calls.read || (!Settled(old(Store()), e) && (calls.drafts.Rejected? || calls.write != Answered)))
      ensures Store() == if !calls.read || Settled(old(Store()), e) || calls.drafts.Rejected? || calls.write == Refused
                         then old(Store()) else EnqueueTx(old(Store()), e, auction, calls.drafts.value, now)
    {
      if !calls.read {
        return true;
      }
      if IsSettled(receipts, e) {
        return false;
      }
      if calls.drafts.Rejected? {
        return true;
      }
      if calls.write != Refused {
        WriteAll(e, auction, calls.drafts.value);
      }
      thrown := calls.write != Answered;
    }

    /** The catch block of `processKafkaMessage`. */
    method CatchFailure(e: EventId, calls: Calls) returns (thrown: bool)
      modifies this`receipts, this`dlq
      ensures (Store(), thrown) == AfterCatch(old(Store()), retryLimit, e, calls)
    {
      if calls.record == Refused {
        return true;
      }
      var attempts := AttemptsIn(receipts, e) + 1;
      receipts := receipts[e := Receipt(Retrying, attempts)];
      thrown := true;
      if calls.record == Answered && attempts >= retryLimit {
        thrown := TerminalReceipt(e, attempts, calls.giveUp);
      }
    }

    /** `processKafkaMessage`, however its calls end. */
    method ProcessKafkaMessage(e: EventId, message: Incoming, calls: Calls) returns (thrown: bool)
      modifies this`receipts, this`emails, this`notifiedAt, this`dlq, this`enqueued
      ensures (Store(), thrown) == Handled(old(Store()), retryLimit, now, e, message, calls)
    {
      if message.Unreadable? {
        thrown := TerminalReceipt(e, retryLimit, calls.giveUp);
        return;
      }
      if message.Ignored? {
        return false;
      }
      thrown := EnqueueNotificationEvent(e, message.auction, calls);
      if thrown {
        thrown := CatchFailure(e, calls);
      }
    }
  }

  /**
   A message delivered again after its event was settled changes nothing and does
   not throw, whatever its drafts would be now, if its first read answers. If that
   read fails, the catch block is run on the settled event.
   */
  lemma RedeliveryChangesNothing(db: Db, retryLimit: int, now: int, later: int, e: EventId, message: Incoming, calls: Calls, again: Calls)
    requires message.Notify? && !Handled(db, retryLimit, now, e, message, calls).1
    ensures var db1 := Handled(db, retryLimit, now, e, message, calls).0;
            && Settled(db1, e)
            && Handled(db1, retryLimit, later, e, message, again) == if again.read then (db1, false) else AfterCatch(db1, retryLimit, e, again)
  {
  }

  /** A failed first read leaves a settled receipt alone exactly if the catch block's own upsert is refused. */
  lemma FailedReadOverwrites(db: Db, retryLimit: int, now: int, e: EventId, message: Incoming, calls: Calls)
    requires message.Notify? && Settled(db, e) && !calls.read
    ensures Handled(db, retryLimit, now, e, message, calls).0 == db <==> calls.record == Refused
  {
    var t := Handled(db, retryLimit, now, e, message, calls).0;
    assert calls.record != Refused ==> t.receipts[e].attempts == db.receipts[e].attempts + 1;
  }

  /** With a database that answers, the handler throws exactly when resolving fails, the event is unsettled and attempts are left. */
  lemma ThrowsWhenAttemptsLeft(db: Db, retryLimit: int, now: int, e: EventId, message: Incoming, drafts: Settlement<seq<Draft>>)
    ensures Handled(db, retryLimit, now, e, message, Answering(drafts)).1
       <==> message.Notify? && drafts.Rejected? && !Settled(db, e) && Attempts(db, e) + 1 < retryLimit
    ensures var db1 := Handled(db, retryLimit, now, e, message, Answering(drafts)).0;
            !message.Ignored? ==> Settled(db1, e) != Handled(db, retryLimit, now, e, message, Answering(drafts)).1
  {
  }
}
