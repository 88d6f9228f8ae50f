/**
 The whole asynchronous pipeline: outbox relays append to the broker's log, and
 the notification group consumes the partitions it subscribes to. A handler
 that writes a dead letter inserts an outbox row in the same transaction.
 */
module Pipeline {
  import opened Prelude
  import opened EventEnvelope
  import opened NotificationStore
  import opened Paths
  import Outbox
  import Consumer = NotificationConsumer

  const NOTIFICATION_TYPES: set<string> := {
    "auction.closed.v1",
    "auction.buy_now_completed.v1",
    "product.question_created.v1",
    "product.question_answered.v1",
    "product.description_changed.v1",
    "seller.approved.v1",
    "seller.rejected.v1"}

  const AUCTION_TYPES: set<string> := {"auction.closed.v1", "auction.buy_now_completed.v1"}

  /** `requiresNotification` */
  predicate RequiresNotification(eventType: string) {
    eventType in NOTIFICATION_TYPES
  }

  /** How the consumer sees a message's value. */
  function Classify(value: Wire): Consumer.Incoming {
    match ParseEventEnvelope(value)
    case Rejected => Consumer.Unreadable
    case Fulfilled(e) =>
      if RequiresNotification(e.eventType) then
        Consumer.Notify(e.eventId, if e.eventType in AUCTION_TYPES then Some(e.aggregateId) else None)
      else Consumer.Ignored
  }

  /** Which values the group must handle, with which event id, and whose auction they stamp; only a value the gate refuses is unreadable. */
  lemma ClassifiedExactly(value: Wire)
    ensures Classify(value) == Consumer.Unreadable <==> ParseEventEnvelope(value) == Rejected
    ensures ParseEventEnvelope(value).Fulfilled? ==>
              var e := ParseEventEnvelope(value).value;
              var ends := e.eventType in {"auction.closed.v1", "auction.buy_now_completed.v1"};
              && (Classify(value).Notify? <==>
                    || ends
                    || e.eventType in {"product.question_created.v1", "product.question_answered.v1",
                                       "product.description_changed.v1", "seller.approved.v1", "seller.rejected.v1"})
              && (Classify(value).Notify? ==>
                    Classify(value).id == e.eventId && Classify(value).auction == if ends then Some(e.aggregateId) else None)
  {
  }

  datatype TopicPartition = TopicPartition(topic: string, partition: nat)

  function PlaceOf(rec: Outbox.Record): TopicPartition {
    TopicPartition(rec.message.topic, rec.partition)
  }

  /** The log of one partition. */
  function PartitionLog(log: seq<Outbox.Record>, place: TopicPartition, see: Wire -> Consumer.Incoming): seq<Consumer.Incoming> {
    if log == [] then []
    else
      var last := log[|log| - 1];
      PartitionLog(log[..|log| - 1], place, see) + if PlaceOf(last) == place then [see(last.message.value)] else []
  }

  lemma PartitionLogAppend(log: seq<Outbox.Record>, rec: Outbox.Record, place: TopicPartition, see: Wire -> Consumer.Incoming)
    ensures PartitionLog(log + [rec], place, see)
         == PartitionLog(log, place, see) + if PlaceOf(rec) == place then [see(rec.message.value)] else []
  {
    assert (log + [rec])[..|log|] == log;
  }

  /** The offset of record `k` in its partition. */
  function OffsetOf(log: seq<Outbox.Record>, k: nat, see: Wire -> Consumer.Incoming): nat
    requires k < |log|
  {
    |PartitionLog(log[..k], PlaceOf(log[k]), see)|
  }

  lemma {:induction false} RecordAtOffset(log: seq<Outbox.Record>, k: nat, see: Wire -> Consumer.Incoming)
    requires k < |log|
    ensures var part := PartitionLog(log, PlaceOf(log[k]), see);
            OffsetOf(log, k, see) < |part| && part[OffsetOf(log, k, see)] == see(log[k].message.value)
    decreases |log|
  {
    var last := |log| - 1;
    if k < last {
      RecordAtOffset(log[..last], k, see);
      assert log[..last][..k] == log[..k];
    }
  }

  /** The index of a subscribed partition, or the number of partitions if it is not subscribed. */
  function IndexOf(places: seq<TopicPartition>, place: TopicPartition): (l: nat)
    ensures l <= |places|
    ensures l < |places| ==> places[l] == place
    ensures l == |places| ==> place !in places
  {
    if places == [] then 0
    else
      var rest := IndexOf(places[..|places| - 1], place);
      if rest < |places| - 1 then rest
      else if places[|places| - 1] == place then |places| - 1 else |places|
  }

  /** `places[l]` is the partition behind the group's log `l`; `see` is how the group reads a value. */
  datatype State = State(
    outbox: Outbox.State,
    places: seq<TopicPartition>,
    see: Wire -> Consumer.Incoming,
    group: Consumer.State)

  datatype Action =
    | Relay(a: Outbox.Action)
    | Consume(b: Consumer.Action, letter: Option<RelayRow>)

  /** The step writes a dead letter or a replayed event, and with it an outbox row. */
  predicate WritesOutbox(c: Consumer.State, b: Consumer.Action) {
    || Consumer.GivesUp(b) || b.Reopen? || (b.RejectFails? && b.applied)
    || (b.Read? && Consumer.FromKafka(c, b.j) && Consumer.MessageOf(c, b.j).Unreadable?)
  }

  const FAILED_TYPE := "notification.consumer_failed.v1"

  /** The outbox event by which the group reports that it has given up on an event. */
  predicate IsDeadLetter(event: RelayRow, e: EventId) {
    event.topic == ASYNC_DLQ && event.eventType == FAILED_TYPE && (e.Real? ==> event.causationId == Some(e.id))
  }

  ghost predicate Enabled(s: State, x: Action) {
    match x
    case Relay(a) => Outbox.Enabled(s.outbox, a)
    case Consume(b, letter) =>
      && !b.Append?
      && Consumer.Enabled(s.group, b)
      && (letter.Some? <==> WritesOutbox(s.group, b))
      && (letter.Some? ==> Outbox.FreshEventId(s.outbox, letter.value) && letter.value.topic in RELAY_TOPICS)
      && (letter.Some? && !b.Reopen? ==> IsDeadLetter(letter.value, Consumer.Key(s.group, b.j)))
  }

  /** The group's logs after a record has been appended to the broker's log. */
  function Deliver(s: State, rec: Outbox.Record): Consumer.State {
    var l := IndexOf(s.places, PlaceOf(rec));
    if l < |s.places| && l < |s.group.logs| then
      Consumer.Apply(s.group, Consumer.Append(l, s.see(rec.message.value)))
    else s.group
  }

  ghost function Apply(s: State, x: Action): State
    requires Enabled(s, x)
  {
    match x
    case Relay(a) =>
      var outbox := Outbox.Apply(s.outbox, a);
      if a.Send? then s.(outbox := outbox, group := Deliver(s, outbox.log[|outbox.log| - 1]))
      else s.(outbox := outbox)
    case Consume(b, letter) =>
      s.(group := Consumer.Apply(s.group, b),
         outbox := if letter.Some? then Outbox.Apply(s.outbox, Outbox.Insert(letter.value)) else s.outbox)
  }

  /** A handler overwrites the receipt of an event that has been settled in the meantime. */
  ghost predicate OverwritesSettled(s: State, x: Action)
    requires Enabled(s, x)
  {
    x.Consume? && Consumer.OverwritesSettled(s.group, x.b)
  }

  ghost predicate GuardedNext(s: State, t: State) {
    exists x :: Enabled(s, x) && !OverwritesSettled(s, x) && t == Apply(s, x)
  }

  ghost predicate Init(s: State) {
    && Outbox.Init(s.outbox) && Consumer.Init(s.group)
    && Distinct(s.places) && |s.group.logs| == |s.places|
    && forall l :: 0 <= l < |s.places| ==> s.group.logs[l] == []
  }

  /** The group sees exactly the broker's log, partition by partition. */
  ghost predicate LogsAgree(s: State) {
    && Distinct(s.places) && |s.group.logs| == |s.places|
    && forall l: nat :: l < |s.places| ==> s.group.logs[l] == PartitionLog(s.outbox.log, s.places[l], s.see)
  }

  ghost predicate Fine(s: State) {
    Outbox.Conserved(s.outbox) && Consumer.Fine(s.group) && LogsAgree(s)
  }

  lemma OnlySendAppends(o: Outbox.State, a: Outbox.Action)
    requires Outbox.Enabled(o, a)
    ensures var t := Outbox.Apply(o, a);
            if a.Send? then t.log == o.log + [t.log[|t.log| - 1]] else t.log == o.log
  {
  }

  lemma OnlyAppendGrowsLogs(c: Consumer.State, b: Consumer.Action)
    requires Consumer.Enabled(c, b) && !b.Append?
    ensures Consumer.Apply(c, b).logs == c.logs
  {
  }

  lemma SendAgrees(s: State, a: Outbox.Action)
    requires Fine(s) && Outbox.Enabled(s.outbox, a) && a.Send?
    ensures Consumer.Fine(Apply(s, Relay(a)).group) && LogsAgree(Apply(s, Relay(a)))
  {
    var t := Apply(s, Relay(a));
    OnlySendAppends(s.outbox, a);
    var rec := t.outbox.log[|t.outbox.log| - 1];
    var m := IndexOf(s.places, PlaceOf(rec));
    if m < |s.places| {
      Consumer.AppendFine(s.group, m, s.see(rec.message.value));
    }
    forall l: nat | l < |t.places|
      ensures t.group.logs[l] == PartitionLog(t.outbox.log, t.places[l], t.see)
    {
      PartitionLogAppend(s.outbox.log, rec, s.places[l], s.see);
      assert s.group.logs[l] == PartitionLog(s.outbox.log, s.places[l], s.see);
      assert l != m ==> PlaceOf(rec) != s.places[l];
    }
  }

  /** The exact condition, for relays and consumers together. */
  lemma StepFine(s: State, x: Action)
    requires Fine(s) && Enabled(s, x)
    ensures Fine(Apply(s, x)) <==> !OverwritesSettled(s, x)
  {
    match x
    case Relay(a) =>
      Outbox.StepConserves(s.outbox, a);
      OnlySendAppends(s.outbox, a);
      if a.Send? {
        SendAgrees(s, a);
      }
    case Consume(b, letter) =>
      Consumer.StepFine(s.group, b);
      OnlyAppendGrowsLogs(s.group, b);
      if letter.Some? {
        Outbox.StepConserves(s.outbox, Outbox.Insert(letter.value));
        OnlySendAppends(s.outbox, Outbox.Insert(letter.value));
      }
  }

  /** The configuration of the real pipeline. */
  ghost predicate IsReal(s: State) {
    && (exists leaseMs, maxBackoffMs :: s.outbox.config == Outbox.RelayConfig(leaseMs, maxBackoffMs))
    && SeesReal(s.see)
  }

  ghost predicate SeesReal(see: Wire -> Consumer.Incoming) {
    forall value :: see(value) == Classify(value)
  }

  lemma StepKeepsConfig(s: State, x: Action)
    requires Enabled(s, x)
    ensures Apply(s, x).outbox.config == s.outbox.config && Apply(s, x).see == s.see
  {
  }

  lemma GuardedStepFine(s: State, t: State)
    requires Fine(s) && GuardedNext(s, t)
    ensures Fine(t) && t.outbox.config == s.outbox.config && t.see == s.see
  {
    var x :| Enabled(s, x) && !OverwritesSettled(s, x) && t == Apply(s, x);
    StepFine(s, x);
    StepKeepsConfig(s, x);
  }

  lemma RunFine(s0: State, s: State)
    requires Init(s0) && Leads(GuardedNext, s0, s)
    ensures Fine(s) && s.outbox.config == s0.outbox.config && s.see == s0.see
  {
    Outbox.InitConserved(s0.outbox);
    var inv := (t: State) => Fine(t) && t.outbox.config == s0.outbox.config && t.see == s0.see;
    forall t, u | inv(t) && GuardedNext(t, u)
      ensures inv(u)
    {
      GuardedStepFine(t, u);
    }
    LeadsKeeps(GuardedNext, inv, s0, s);
  }

  /** Every published copy of a notification event is one the group must handle, under the row's own event id. */
  lemma NotificationIsClassified(m: Message, row: RelayRow)
    requires Outbox.Carries(m, row) && RequiresNotification(row.eventType)
    ensures Classify(m.value).Notify? && Classify(m.value).id == row.eventId
  {
  }

  /** What is known about a notification event that the group is done with. */
  ghost predicate NotificationDone(db: Db, e: EventId) {
    || HasStatus(db, e, Terminal)
    || (HasStatus(db, e, Processed) && e in db.enqueued && RowsAreDrafts(db.emails, e, db.enqueued[e]))
  }

  /** Record `k` carries the row's event, in the partition behind the group's log `l`, below the committed offset. */
  ghost predicate CommittedCopy(s: State, row: RelayRow, k: nat, l: nat) {
    && k < |s.outbox.log| && l < |s.places| && l < |s.group.committed|
    && Outbox.Carries(s.outbox.log[k].message, row)
    && s.places[l] == TopicPartition(row.topic, s.outbox.log[k].partition)
    && OffsetOf(s.outbox.log, k, s.see) < s.group.committed[l]
  }

  ghost predicate CopyDone(s: State, row: RelayRow, k: nat, l: nat)
    requires k < |s.outbox.log|
  {
    || NotificationDone(s.group.db, Real(row.eventId))
    || Real(row.eventId) in s.group.db.reopened
    || (l, OffsetOf(s.outbox.log, k, s.see)) in s.group.skipped
  }

  /**
   No notification is lost between the outbox and the email queue: a delivered
   row of a notification event has a copy in a partition of its own topic, and
   once the group has committed past a copy, the event is terminal or its emails
   are exactly those of its first successful enqueue, unless the stop check skipped
   that copy or an operator reopened the event. Handlers of one event may
   overlap as long as none overwrites a settled receipt.
   */
  lemma NoNotificationLost(s0: State, s: State, id: nat)
    requires Init(s0) && IsReal(s0) && Leads(GuardedNext, s0, s)
    requires id < |s.outbox.rows| && s.outbox.rows[id].deliveredAt.Some?
    requires RequiresNotification(s.outbox.rows[id].event.eventType)
    ensures var row := s.outbox.rows[id].event; var log := s.outbox.log;
            && (exists k :: 0 <= k < |log| && Outbox.Carries(log[k].message, row) && PlaceOf(log[k]).topic == row.topic)
            && forall k: nat, l: nat :: CommittedCopy(s, row, k, l) ==> CopyDone(s, row, k, l)
  {
    RunFine(s0, s);
    var row := s.outbox.rows[id].event;
    assert Outbox.RowConserved(s.outbox, id);
    assert s.outbox.config.isValid(row) == IsValid(row) && s.outbox.config.message(row) == MessageOf(row);
    Outbox.CopiesPositive(s.outbox.log, MessageOf(row));
    RelayedRowIsAccepted(row);
    var c :| 0 <= c < |s.outbox.log| && s.outbox.log[c].message == MessageOf(row);
    assert Outbox.Carries(s.outbox.log[c].message, row) && PlaceOf(s.outbox.log[c]).topic == row.topic;
    forall k: nat, l: nat | CommittedCopy(s, row, k, l)
      ensures CopyDone(s, row, k, l)
    {
      CommittedCopyDone(s, row, k, l);
    }
  }

  lemma CommittedCopyDone(s: State, row: RelayRow, k: nat, l: nat)
    requires Fine(s) && SeesReal(s.see)
    requires RequiresNotification(row.eventType)
    requires CommittedCopy(s, row, k, l)
    ensures CopyDone(s, row, k, l)
  {
    RecordAtOffset(s.outbox.log, k, s.see);
    NotificationIsClassified(s.outbox.log[k].message, row);
    assert PlaceOf(s.outbox.log[k]) == s.places[l];
    var offset := OffsetOf(s.outbox.log, k, s.see);
    assert s.group.logs[l] == PartitionLog(s.outbox.log, s.places[l], s.see);
    assert Consumer.IsMessage(s.group, l, offset) && Consumer.Safe(s.group, l, offset);
    assert Consumer.KeyOf(s.group.logs, Consumer.Kafka(l, offset, 0)) == Real(row.eventId);
    var e := Real(row.eventId);
    assert EventFine(s.group.db, e);
    if Settled(s.group.db, e) {
      EventIsDone(s.group.db, e);
    }
  }

  lemma EventIsDone(db: Db, e: EventId)
    requires EventFine(db, e) && Settled(db, e)
    ensures NotificationDone(db, e)
  {
    if HasStatus(db, e, Processed) {
      RowsOfDrafts(db.emails, e, db.enqueued[e]);
    }
  }

  // ---------------------------------------------------------- dead letters

  /** The relay's steps are the outbox's; the group's steps touch the outbox only by inserting a letter. */
  lemma OutboxMoves(s: State, x: Action)
    requires Enabled(s, x)
    ensures x.Relay? ==> Apply(s, x).outbox == Outbox.Apply(s.outbox, x.a)
    ensures x.Consume? && x.letter.None? ==> Apply(s, x).outbox == s.outbox
    ensures x.Consume? && x.letter.Some? ==>
              var t := Apply(s, x).outbox;
              |t.rows| == |s.outbox.rows| + 1 && t.rows[..|s.outbox.rows|] == s.outbox.rows
              && t.rows[|s.outbox.rows|].event == x.letter.value && Outbox.Due(t.rows[|s.outbox.rows|], t.now)
              && t == s.outbox.(rows := t.rows)
  {
    if x.Consume? && x.letter.Some? {
      Outbox.InsertedIsDue(s.outbox, x.letter.value);
    }
  }

  /** A handler that gives up can always do so, with any fresh event that reports it. */
  lemma CanGiveUp(s: State, b: Consumer.Action, letter: RelayRow)
    requires Consumer.Enabled(s.group, b) && Consumer.GivesUp(b) && Outbox.FreshEventId(s.outbox, letter)
    requires letter.topic == "async_events_dlq" && letter.eventType == "notification.consumer_failed.v1"
    requires Consumer.Key(s.group, b.j).Real? ==> letter.causationId == Some(Consumer.Key(s.group, b.j).id)
    ensures Enabled(s, Consume(b, Some(letter)))
  {
  }

  function DeadLetters(rows: seq<Outbox.Row>, e: EventId): nat {
    if rows == [] then 0
    else DeadLetters(rows[..|rows| - 1], e) + if IsDeadLetter(rows[|rows| - 1].event, e) then 1 else 0
  }

  lemma {:induction false} DeadLettersKept(before: seq<Outbox.Row>, after: seq<Outbox.Row>, e: EventId)
    requires Outbox.SameEvents(before, after)
    ensures DeadLetters(before, e) <= DeadLetters(after, e)
    decreases |after|
  {
    if after != [] {
      var last := |after| - 1;
      if |before| == |after| {
        DeadLettersKept(before[..last], after[..last], e);
        assert after[last].event == before[last].event;
      } else {
        DeadLettersKept(before, after[..last], e);
      }
    }
  }

  lemma {:induction false} DeadLetterFound(rows: seq<Outbox.Row>, e: EventId) returns (id: nat)
    requires DeadLetters(rows, e) > 0
    ensures id < |rows| && IsDeadLetter(rows[id].event, e)
  {
    var last := |rows| - 1;
    if IsDeadLetter(rows[last].event, e) {
      id := last;
    } else {
      id := DeadLetterFound(rows[..last], e);
    }
  }

  lemma OutboxKeepsEvents(o: Outbox.State, a: Outbox.Action)
    requires Outbox.Enabled(o, a)
    ensures Outbox.SameEvents(o.rows, Outbox.Apply(o, a).rows)
  {
  }

  /** A step of the group that gives up on an event is one that writes an outbox row, and gives up on no other. */
  lemma LetterWithRow(c: Consumer.State, b: Consumer.Action)
    requires Consumer.Enabled(c, b)
    ensures Consumer.Apply(c, b).db.dlq
         == c.db.dlq + if WritesOutbox(c, b) && !b.Reopen? then [Consumer.Key(c, b.j)] else []
  {
  }

  lemma DeliverKeepsDb(s: State, rec: Outbox.Record)
    ensures Deliver(s, rec).db == s.group.db
  {
  }

  lemma RelayKeepsLetters(s: State, a: Outbox.Action, e: EventId)
    requires Outbox.Enabled(s.outbox, a) && Count(s.group.db.dlq, e) <= DeadLetters(s.outbox.rows, e)
    ensures var t := Apply(s, Relay(a)); Count(t.group.db.dlq, e) <= DeadLetters(t.outbox.rows, e)
  {
    var o := Outbox.Apply(s.outbox, a);
    OutboxKeepsEvents(s.outbox, a);
    DeadLettersKept(s.outbox.rows, o.rows, e);
    if a.Send? {
      OnlySendAppends(s.outbox, a);
      DeliverKeepsDb(s, o.log[|o.log| - 1]);
    }
  }

  lemma ConsumeKeepsLetters(s: State, x: Action, e: EventId)
    requires x.Consume? && Enabled(s, x) && Count(s.group.db.dlq, e) <= DeadLetters(s.outbox.rows, e)
    ensures var t := Apply(s, x); Count(t.group.db.dlq, e) <= DeadLetters(t.outbox.rows, e)
  {
    OutboxMoves(s, x);
    LetterWithRow(s.group, x.b);
    DeadLettersKept(s.outbox.rows, Apply(s, x).outbox.rows, e);
    if x.letter.Some? && !x.b.Reopen? {
      CountAppend(s.group.db.dlq, Consumer.Key(s.group, x.b.j), e);
    }
  }

  ghost predicate Next(s: State, t: State) {
    exists x :: Enabled(s, x) && t == Apply(s, x)
  }

  ghost predicate LettersFine(s: State) {
    forall e :: Count(s.group.db.dlq, e) <= DeadLetters(s.outbox.rows, e)
  }

  lemma StepKeepsLetters(s: State, x: Action)
    requires Enabled(s, x) && LettersFine(s)
    ensures LettersFine(Apply(s, x))
  {
    forall e
      ensures Count(Apply(s, x).group.db.dlq, e) <= DeadLetters(Apply(s, x).outbox.rows, e)
    {
      assert Count(s.group.db.dlq, e) <= DeadLetters(s.outbox.rows, e);
      match x
      case Relay(a) => RelayKeepsLetters(s, a, e);
      case Consume(_, _) => ConsumeKeepsLetters(s, x, e);
    }
  }

  /**
   In every run, overwritten receipts included, there are at least as many
   outbox rows reporting an event as times the group has given up on it.
   */
  lemma DeadLettersAreRows(s0: State, s: State, e: EventId)
    requires Init(s0) && Leads(Next, s0, s)
    ensures Count(s.group.db.dlq, e) <= DeadLetters(s.outbox.rows, e)
  {
    forall t, u | LettersFine(t) && Next(t, u)
      ensures LettersFine(u)
    {
      var x :| Enabled(t, x) && u == Apply(t, x);
      StepKeepsLetters(t, x);
    }
    LeadsKeeps(Next, LettersFine, s0, s);
  }

  lemma GuardedRunsAreRuns(s0: State, s: State)
    requires Leads(GuardedNext, s0, s)
    ensures Leads(Next, s0, s)
  {
    var path :| IsPath(GuardedNext, path, s0, s);
    assert IsPath(Next, path, s0, s);
  }

  /** So an event that has become terminal has an outbox row that names it and goes to the dead-letter topic. */
  lemma TerminalIsReported(s0: State, s: State, id: string) returns (letter: nat)
    requires Init(s0) && IsReal(s0) && Leads(GuardedNext, s0, s) && HasStatus(s.group.db, Real(id), Terminal)
    ensures letter < |s.outbox.rows|
    ensures var event := s.outbox.rows[letter].event;
            event.topic == "async_events_dlq" && event.eventType == "notification.consumer_failed.v1" && event.causationId == Some(id)
  {
    RunFine(s0, s);
    assert EventFine(s.group.db, Real(id));
    GuardedRunsAreRuns(s0, s);
    DeadLettersAreRows(s0, s, Real(id));
    letter := DeadLetterFound(s.outbox.rows, Real(id));
  }
}
