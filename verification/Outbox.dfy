/**
 The leased outbox protocol: any number of relay processes claim rows of one
 table, publish them to Kafka and mark them. Every database transaction, every
 record the broker appends and every crash is a step of its own, and steps of
 different processes interleave freely.

 A row's id is its position in the table, which is only ever appended to.
 */
module Outbox {
  import opened Prelude
  import opened EventEnvelope
  import opened Paths

  function Pow2(n: nat): (p: nat)
    ensures p >= 1
  {
    if n == 0 then 1 else 2 * Pow2(n - 1)
  }

  /** `outboxRetryDelayMs` */
  function RetryDelayMs(attempt: int, maxBackoffMs: int): int {
    Min(maxBackoffMs, 1000 * Pow2(Min(Max(0, attempt - 1), 16)))
  }

  /** The delay doubles from one second on, up to the cap or 65536 seconds. */
  lemma DelayDoubles(attempt: int, maxBackoffMs: int)
    requires maxBackoffMs >= 0
    ensures attempt <= 1 ==> RetryDelayMs(attempt, maxBackoffMs) == Min(maxBackoffMs, 1000)
    ensures RetryDelayMs(attempt + 1, maxBackoffMs)
         == if 1 <= attempt <= 16 then Min(maxBackoffMs, 2 * RetryDelayMs(attempt, maxBackoffMs))
            else RetryDelayMs(attempt, maxBackoffMs)
  {
  }

  datatype Row = Row(event: RelayRow, attempts: nat, availableAt: int, deliveredAt: Option<int>, terminalAt: Option<int>)
  {
    predicate Open() {
      deliveredAt.None? && terminalAt.None?
    }
  }

  /** One record of the broker's log; a partition's log is the subsequence of its records. */
  datatype Record = Record(partition: nat, message: Message)

  datatype Phase = Checking | Publishing | Acked | Retrying

  /**
   One call of `relayOutboxBatch`: `todo` are the claimed rows not yet checked,
   `valid` those that passed, `left` the rows of the current phase still to be
   sent or rescheduled, `seen` the attempt counts read by the claim.
   */
  datatype Relay =
    | Idle
    | Busy(phase: Phase, lease: int, todo: seq<nat>, valid: seq<nat>, left: set<nat>, seen: map<nat, nat>)

  /**
   The relay's parameters. The protocol is proved for any row check and retry
   schedule, and for any serialisation from which the event id can be read.
   */
  datatype Config = Config(
    leaseMs: int,
    retryDelayMs: int -> int,
    isValid: RelayRow -> bool,
    message: RelayRow -> Message,
    readEventId: Message -> string)

  ghost predicate KeepsEventIds(c: Config) {
    forall e :: c.readEventId(c.message(e)) == e.eventId
  }

  /** The event id in a message's JSON text, if there is one. */
  function EventIdIn(m: Message): string {
    if m.value.Text? && m.value.json.JObject? && "eventId" in m.value.json.fields && m.value.json.fields["eventId"].JString?
    then m.value.json.fields["eventId"].text else ""
  }

  /** The parameters of the real relay. */
  function RelayConfig(leaseMs: int, maxBackoffMs: int): Config {
    Config(leaseMs, (attempt: int) => RetryDelayMs(attempt, maxBackoffMs),
           (e: RelayRow) => IsValid(e), (e: RelayRow) => MessageOf(e), (m: Message) => EventIdIn(m))
  }

  lemma RelayConfigKeepsEventIds(leaseMs: int, maxBackoffMs: int)
    ensures KeepsEventIds(RelayConfig(leaseMs, maxBackoffMs))
  {
    forall e: RelayRow
      ensures EventIdIn(MessageOf(e)) == e.eventId
    {
      assert ToJson(CreateEventEnvelope(e)).fields["eventId"] == JString(e.eventId);
    }
  }

  datatype State = State(config: Config, now: int, rows: seq<Row>, log: seq<Record>, relays: seq<Relay>)

  datatype Action =
    | Insert(event: RelayRow)
    | Tick(ms: nat)
    | Claim(r: nat, ids: seq<nat>)
    | Check(r: nat)
    | StartPublish(r: nat)
    | Send(r: nat, id: nat, partition: nat)
    | Acknowledge(r: nat)
    | PublishFails(r: nat)
    | MarkDelivered(r: nat)
    | MarkDeliveredFails(r: nat)
    | MarkRetry(r: nat, id: nat)
    | Crash(r: nat)
    | Requeue(id: nat)

  // ----------------------------------------------------- database statements

  /** The WHERE clause of the claim. */
  predicate Due(row: Row, now: int) {
    row.Open() && row.availableAt <= now
  }

  function AsClaimed(row: Row, now: int, leaseMs: int): Row {
    row.(attempts := row.attempts + 1, availableAt := now + leaseMs)
  }

  function AsTerminal(row: Row, now: int): Row {
    if row.deliveredAt.None? then row.(terminalAt := Some(now)) else row
  }

  function AsDelivered(row: Row, now: int): Row {
    if row.Open() then row.(deliveredAt := Some(now)) else row
  }

  function AsRetry(row: Row, availableAt: int): Row {
    if row.Open() then row.(availableAt := availableAt) else row
  }

  function ClaimRows(rows: seq<Row>, ids: seq<nat>, now: int, leaseMs: int): seq<Row> {
    seq(|rows|, i requires 0 <= i < |rows| => if i in ids then AsClaimed(rows[i], now, leaseMs) else rows[i])
  }

  function DeliverRows(rows: seq<Row>, ids: seq<nat>, now: int): seq<Row> {
    seq(|rows|, i requires 0 <= i < |rows| => if i in ids then AsDelivered(rows[i], now) else rows[i])
  }

  /** The attempt counts that the claim's SELECT returns. */
  function AttemptsOf(rows: seq<Row>, ids: seq<nat>): map<nat, nat> {
    map id | id in ids && id < |rows| :: rows[id].attempts
  }

  predicate InTable(ids: seq<nat>, rows: seq<Row>) {
    forall i :: 0 <= i < |ids| ==> ids[i] < |rows|
  }

  // ------------------------------------------------------------- the steps

  predicate InPhase(s: State, r: nat, phase: Phase) {
    r < |s.relays| && s.relays[r].Busy? && s.relays[r].phase == phase
  }

  ghost predicate FreshEventId(s: State, event: RelayRow) {
    forall i :: 0 <= i < |s.rows| ==> s.rows[i].event.eventId != event.eventId
  }

  ghost predicate Enabled(s: State, a: Action) {
    match a
    case Insert(event) => FreshEventId(s, event)
    case Tick(_) => true
    case Claim(r, ids) =>
      && r < |s.relays| && s.relays[r].Idle?
      && ids != [] && Increasing(ids) && InTable(ids, s.rows)
      && forall i :: 0 <= i < |ids| ==> Due(s.rows[ids[i]], s.now)
    case Check(r) => InPhase(s, r, Checking) && s.relays[r].todo != [] && s.relays[r].todo[0] < |s.rows|
    case StartPublish(r) => InPhase(s, r, Checking) && s.relays[r].todo == []
    case Send(r, id, _) => InPhase(s, r, Publishing) && id in s.relays[r].left && id < |s.rows|
    case Acknowledge(r) => InPhase(s, r, Publishing) && s.relays[r].left == {}
    case PublishFails(r) => InPhase(s, r, Publishing)
    case MarkDelivered(r) => InPhase(s, r, Acked)
    case MarkDeliveredFails(r) => InPhase(s, r, Acked)
    case MarkRetry(r, id) =>
      InPhase(s, r, Retrying) && id in s.relays[r].left && id < |s.rows| && id in s.relays[r].seen
    case Crash(r) => r < |s.relays| && s.relays[r].Busy?
    case Requeue(id) => id < |s.rows| && s.rows[id].terminalAt.Some?
  }

  function SetRelay(s: State, r: nat, relay: Relay): State
    requires r < |s.relays|
  {
    s.(relays := s.relays[r := relay])
  }

  function SetRow(s: State, id: nat, row: Row): State
    requires id < |s.rows|
  {
    s.(rows := s.rows[id := row])
  }

  /** One turn of the relay's first loop. */
  function AfterCheck(s: State, r: nat): State
    requires InPhase(s, r, Checking) && s.relays[r].todo != [] && s.relays[r].todo[0] < |s.rows|
  {
    var p := s.relays[r];
    var id := p.todo[0];
    if s.config.isValid(s.rows[id].event) then
      SetRelay(s, r, p.(todo := p.todo[1..], valid := p.valid + [id]))
    else
      SetRelay(SetRow(s, id, AsTerminal(s.rows[id], s.now)), r, p.(todo := p.todo[1..]))
  }

  /** `markRetry` for one of the relay's rows. */
  function Reschedule(s: State, r: nat, id: nat, availableAt: int): State
    requires InPhase(s, r, Retrying) && id < |s.rows|
  {
    var p := s.relays[r];
    var left := p.left - {id};
    SetRelay(SetRow(s, id, AsRetry(s.rows[id], availableAt)), r, if left == {} then Idle else p.(left := left))
  }

  ghost function Apply(s: State, a: Action): State
    requires Enabled(s, a)
  {
    match a
    case Insert(event) => s.(rows := s.rows + [Row(event, 0, s.now, None, None)])
    case Tick(ms) => s.(now := s.now + ms)
    case Claim(r, ids) =>
      SetRelay(s.(rows := ClaimRows(s.rows, ids, s.now, s.config.leaseMs)), r,
               Busy(Checking, s.now + s.config.leaseMs, ids, [], {}, AttemptsOf(s.rows, ids)))
    case Check(r) => AfterCheck(s, r)
    case StartPublish(r) =>
      var p := s.relays[r];
      SetRelay(s, r, if p.valid == [] then Idle else p.(phase := Publishing, left := Ids(p.valid)))
    case Send(r, id, partition) =>
      var p := s.relays[r];
      SetRelay(s.(log := s.log + [Record(partition, s.config.message(s.rows[id].event))]), r, p.(left := p.left - {id}))
    case Acknowledge(r) => SetRelay(s, r, s.relays[r].(phase := Acked))
    case PublishFails(r) => SetRelay(s, r, s.relays[r].(phase := Retrying, left := Ids(s.relays[r].valid)))
    case MarkDelivered(r) => SetRelay(s.(rows := DeliverRows(s.rows, s.relays[r].valid, s.now)), r, Idle)
    case MarkDeliveredFails(r) => SetRelay(s, r, s.relays[r].(phase := Retrying, left := Ids(s.relays[r].valid)))
    case MarkRetry(r, id) =>
      Reschedule(s, r, id, s.now + s.config.retryDelayMs(s.relays[r].seen[id] + 1))
    case Crash(r) => SetRelay(s, r, Idle)
    case Requeue(id) => SetRow(s, id, s.rows[id].(terminalAt := None, attempts := 0, availableAt := s.now))
  }

  ghost predicate Init(s: State) {
    KeepsEventIds(s.config) && s.rows == [] && s.log == [] && forall r :: 0 <= r < |s.relays| ==> s.relays[r].Idle?
  }

  ghost predicate Next(s: State, t: State) {
    exists a :: Enabled(s, a) && t == Apply(s, a)
  }

  // --------------------------------------------------- no row is forgotten

  /** A committed event is a row of its own, due at once; nothing else changes. */
  lemma InsertedIsDue(s: State, event: RelayRow)
    requires Enabled(s, Insert(event))
    ensures var t := Apply(s, Insert(event));
            && |t.rows| == |s.rows| + 1 && t.rows[..|s.rows|] == s.rows
            && t.rows[|s.rows|].event == event && t.rows[|s.rows|].attempts == 0 && Due(t.rows[|s.rows|], t.now)
            && t == s.(rows := t.rows)
  {
  }

  /** So is a terminal row that an operator requeues, with its attempts counted anew. */
  lemma RequeuedIsDue(s: State, id: nat)
    requires Enabled(s, Requeue(id)) && s.rows[id].deliveredAt.None?
    ensures var t := Apply(s, Requeue(id));
            && Due(t.rows[id], t.now) && t.rows[id].attempts == 0 && t.rows[id].event == s.rows[id].event
            && t == s.(rows := s.rows[id := t.rows[id]])
  {
  }

  /** A process that dies writes nothing more and can start another call; its rows stay claimed until their time has come. */
  lemma CrashedStartsAnew(s: State, r: nat)
    requires Enabled(s, Crash(r))
    ensures var t := Apply(s, Crash(r));
            t.relays[r] == Idle && t == s.(relays := t.relays) && forall q :: 0 <= q < |s.relays| && q != r ==> t.relays[q] == s.relays[q]
  {
  }

  /** An open row becomes due by waiting alone, whoever claimed it and died, and exactly when its time has come. */
  lemma OpenRowsComeBack(s: State, id: nat, ms: nat)
    requires id < |s.rows| && s.rows[id].deliveredAt.None? && s.rows[id].terminalAt.None?
    ensures var t := Apply(s, Tick(ms));
            t.rows == s.rows && (Due(t.rows[id], t.now) <==> s.rows[id].availableAt - s.now <= ms)
  {
  }

  /** When the broker or the final mark fails, each open row of the batch can be rescheduled, to be due after the delay for its claim. */
  lemma FailedBatchIsRetried(s: State, a: Action, id: nat)
    requires (a.PublishFails? || a.MarkDeliveredFails?) && Enabled(s, a)
    requires id in s.relays[a.r].valid && id in s.relays[a.r].seen && id < |s.rows| && s.rows[id].Open()
    ensures var t := Apply(s, a);
            && t.rows == s.rows && t.log == s.log
            && Enabled(t, MarkRetry(a.r, id))
            && Apply(t, MarkRetry(a.r, id)).rows
               == s.rows[id := s.rows[id].(availableAt := s.now + s.config.retryDelayMs(s.relays[a.r].seen[id] + 1))]
  {
  }

  lemma Taken(s0: State, s: State, a: Action) returns (t: State)
    requires Leads(Next, s0, s) && Enabled(s, a)
    ensures t == Apply(s, a) && Leads(Next, s0, t)
  {
    t := Apply(s, a);
    LeadsStep(Next, s0, s, t);
  }

  /** The first half of a call for one row: claimed, found valid, about to be sent. */
  lemma CanBePublished(s: State, r: nat, id: nat) returns (t: State)
    requires r < |s.relays| && s.relays[r].Idle?
    requires id < |s.rows| && Due(s.rows[id], s.now) && s.config.isValid(s.rows[id].event)
    ensures Leads(Next, s, t) && InPhase(t, r, Publishing) && t.relays[r].valid == [id] && t.relays[r].left == {id}
    ensures |t.relays| == |s.relays| && t.config == s.config && t.now == s.now && t.log == s.log
    ensures t.rows == s.rows[id := AsClaimed(s.rows[id], s.now, s.config.leaseMs)]
  {
    LeadsNowhere(Next, s);
    t := Taken(s, s, Claim(r, [id]));
    assert t.rows == s.rows[id := AsClaimed(s.rows[id], s.now, s.config.leaseMs)];
    assert t.relays[r].todo == [id];
    t := Taken(s, t, Check(r));
    assert t.relays[r].valid == [id] && t.relays[r].todo == [];
    t := Taken(s, t, StartPublish(r));
  }

  /** Any idle process can deliver any valid row that is due: one more attempt, one more copy, and no other row changes. */
  lemma CanBeDelivered(s: State, r: nat, id: nat, partition: nat) returns (t: State)
    requires r < |s.relays| && s.relays[r].Idle?
    requires id < |s.rows| && Due(s.rows[id], s.now) && s.config.isValid(s.rows[id].event)
    ensures Leads(Next, s, t) && r < |t.relays| && t.relays[r].Idle?
    ensures t.log == s.log + [Record(partition, s.config.message(s.rows[id].event))]
    ensures |t.rows| == |s.rows| && t.rows[id].deliveredAt == Some(s.now) && t.rows[id].attempts == s.rows[id].attempts + 1
    ensures forall i :: 0 <= i < |s.rows| && i != id ==> t.rows[i] == s.rows[i]
  {
    t := CanBePublished(s, r, id);
    t := Taken(s, t, Send(r, id, partition));
    t := Taken(s, t, Acknowledge(r));
    t := Taken(s, t, MarkDelivered(r));
  }

  // ------------------------------------------------------------ conservation

  function Copies(log: seq<Record>, m: Message): nat {
    if log == [] then 0
    else Copies(log[..|log| - 1], m) + if log[|log| - 1].message == m then 1 else 0
  }

  lemma CopiesAppend(log: seq<Record>, rec: Record, m: Message)
    ensures Copies(log + [rec], m) == Copies(log, m) + if rec.message == m then 1 else 0
  {
    assert (log + [rec])[..|log|] == log;
  }

  lemma {:induction false} CopiesPositive(log: seq<Record>, m: Message)
    ensures Copies(log, m) > 0 <==> exists k :: 0 <= k < |log| && log[k].message == m
  {
    if log != [] {
      CopiesPositive(log[..|log| - 1], m);
    }
  }

  /** The process may still append this row's message under its current claim. */
  predicate MaySend(p: Relay, id: nat) {
    && p.Busy?
    && ((p.phase == Checking && (id in p.todo || id in p.valid)) || (p.phase == Publishing && id in p.left))
  }

  function Senders(relays: seq<Relay>, id: nat): set<nat> {
    set r: nat | r < |relays| && MaySend(relays[r], id)
  }

  ghost predicate UniqueEvents(s: State) {
    forall i, j :: 0 <= i < j < |s.rows| ==> s.rows[i].event.eventId != s.rows[j].event.eventId
  }

  ghost predicate FromRow(c: Config, rows: seq<Row>, m: Message) {
    exists id :: 0 <= id < |rows| && c.isValid(rows[id].event) && m == c.message(rows[id].event)
  }

  /** Every record is the message of a valid row of its own topic. */
  ghost predicate LogFromRows(s: State) {
    forall k :: 0 <= k < |s.log| ==> FromRow(s.config, s.rows, s.log[k].message)
  }

  ghost predicate SameEvents(before: seq<Row>, after: seq<Row>) {
    |before| <= |after| && forall id :: 0 <= id < |before| ==> after[id].event == before[id].event
  }

  lemma FromRowKept(c: Config, before: seq<Row>, after: seq<Row>, m: Message)
    requires FromRow(c, before, m) && SameEvents(before, after)
    ensures FromRow(c, after, m)
  {
    var id :| 0 <= id < |before| && c.isValid(before[id].event) && m == c.message(before[id].event);
    assert after[id].event == before[id].event;
  }

  lemma LogKept(s: State, t: State)
    requires LogFromRows(s) && SameEvents(s.rows, t.rows) && t.log == s.log && t.config == s.config
    ensures LogFromRows(t)
  {
    forall k | 0 <= k < |t.log|
      ensures FromRow(t.config, t.rows, t.log[k].message)
    {
      FromRowKept(s.config, s.rows, t.rows, s.log[k].message);
    }
  }

  ghost predicate RowConserved(s: State, id: nat)
    requires id < |s.rows|
  {
    var row := s.rows[id];
    var copies := Copies(s.log, s.config.message(row.event));
    && (row.deliveredAt.Some? ==> s.config.isValid(row.event) && copies >= 1)
    && (row.terminalAt.Some? ==> !s.config.isValid(row.event))
    && (s.config.isValid(row.event) ==> copies + |Senders(s.relays, id)| <= row.attempts)
  }

  ghost predicate RelayConserved(s: State, p: Relay) {
    p.Busy? ==>
      && InTable(p.todo, s.rows) && InTable(p.valid, s.rows)
      && (forall i :: 0 <= i < |p.valid| ==> s.config.isValid(s.rows[p.valid[i]].event))
      && (p.phase in {Publishing, Retrying} ==> forall id :: id in p.left ==> id in p.valid)
      && (p.phase in {Publishing, Acked} ==>
            forall i :: 0 <= i < |p.valid| ==>
              (p.phase == Publishing && p.valid[i] in p.left) || Copies(s.log, s.config.message(s.rows[p.valid[i]].event)) >= 1)
  }

  ghost predicate Conserved(s: State) {
    && KeepsEventIds(s.config)
    && UniqueEvents(s)
    && LogFromRows(s)
    && (forall id :: 0 <= id < |s.rows| ==> RowConserved(s, id))
    && (forall r :: 0 <= r < |s.relays| ==> RelayConserved(s, s.relays[r]))
  }

  /** A relay may move on as long as it does not gain rows to send. */
  lemma RelayMoves(s: State, r: nat, p: Relay)
    requires Conserved(s) && r < |s.relays|
    requires forall id: nat :: MaySend(p, id) ==> MaySend(s.relays[r], id)
    requires RelayConserved(s, p)
    ensures Conserved(SetRelay(s, r, p))
  {
    var t := SetRelay(s, r, p);
    LogKept(s, t);
    forall id: nat | id < |t.rows|
      ensures RowConserved(t, id)
    {
      assert RowConserved(s, id);
      assert Senders(t.relays, id) <= Senders(s.relays, id);
      SubsetSize(Senders(t.relays, id), Senders(s.relays, id));
    }
    forall q | 0 <= q < |t.relays|
      ensures RelayConserved(t, t.relays[q])
    {
      assert q != r ==> RelayConserved(s, s.relays[q]);
    }
  }

  /** How one row may be updated: only towards delivered if published, only towards terminal if invalid. */
  ghost predicate RowUpdate(s: State, before: Row, after: Row) {
    && after.event == before.event
    && (after.deliveredAt.Some? ==> before.deliveredAt.Some? || (s.config.isValid(before.event) && Copies(s.log, s.config.message(before.event)) >= 1))
    && (after.terminalAt.Some? ==> before.terminalAt.Some? || !s.config.isValid(before.event))
    && (s.config.isValid(before.event) ==> after.attempts >= before.attempts)
  }

  lemma RowsMove(s: State, rows: seq<Row>)
    requires Conserved(s) && |rows| == |s.rows|
    requires forall id :: 0 <= id < |rows| ==> RowUpdate(s, s.rows[id], rows[id])
    ensures Conserved(s.(rows := rows))
  {
    var t := s.(rows := rows);
    forall id | 0 <= id < |rows|
      ensures RowConserved(t, id) && rows[id].event == s.rows[id].event
    {
      assert RowConserved(s, id) && RowUpdate(s, s.rows[id], rows[id]);
    }
    LogKept(s, t);
    forall r | 0 <= r < |t.relays|
      ensures RelayConserved(t, t.relays[r])
    {
      assert RelayConserved(s, s.relays[r]);
    }
  }

  /** A message that no valid row of the table has is not in the log. */
  lemma UnpublishedMessage(s: State, event: RelayRow)
    requires LogFromRows(s) && KeepsEventIds(s.config)
    requires forall id :: 0 <= id < |s.rows| && s.config.isValid(s.rows[id].event) ==> s.rows[id].event.eventId != event.eventId
    ensures Copies(s.log, s.config.message(event)) == 0
  {
    CopiesPositive(s.log, s.config.message(event));
  }

  lemma InsertConserves(s: State, event: RelayRow)
    requires Conserved(s) && Enabled(s, Insert(event))
    ensures Conserved(Apply(s, Insert(event)))
  {
    var t := Apply(s, Insert(event));
    UnpublishedMessage(s, event);
    var n := |s.rows|;
    forall r | 0 <= r < |s.relays|
      ensures RelayConserved(t, t.relays[r]) && !MaySend(t.relays[r], n)
    {
      assert RelayConserved(s, s.relays[r]);
    }
    assert Senders(t.relays, n) == {};
    forall id | 0 <= id < |t.rows|
      ensures RowConserved(t, id)
    {
      if id < n {
        assert RowConserved(s, id);
      }
    }
    LogKept(s, t);
  }

  /** A claiming process joins the senders of the rows it claims, and of no others. */
  lemma ClaimSenders(relays: seq<Relay>, r: nat, ids: seq<nat>, lease: int, seen: map<nat, nat>, id: nat)
    requires r < |relays| && relays[r].Idle?
    ensures var after := relays[r := Busy(Checking, lease, ids, [], {}, seen)];
            |Senders(after, id)| == |Senders(relays, id)| + if id in ids then 1 else 0
  {
    var after := relays[r := Busy(Checking, lease, ids, [], {}, seen)];
    if id in ids {
      assert Senders(after, id) == Senders(relays, id) + {r};
    } else {
      assert Senders(after, id) == Senders(relays, id);
    }
  }

  lemma ClaimRowConserved(s: State, t: State, r: nat, ids: seq<nat>, id: nat)
    requires id < |s.rows| && RowConserved(s, id) && Enabled(s, Claim(r, ids))
    requires t == Apply(s, Claim(r, ids))
    ensures RowConserved(t, id)
  {
    var p := t.relays[r];
    ClaimSenders(s.relays, r, ids, p.lease, p.seen, id);
  }

  lemma ClaimConserves(s: State, r: nat, ids: seq<nat>)
    requires Conserved(s) && Enabled(s, Claim(r, ids))
    ensures Conserved(Apply(s, Claim(r, ids)))
  {
    var t := Apply(s, Claim(r, ids));
    LogKept(s, t);
    forall id: nat | id < |s.rows|
      ensures RowConserved(t, id)
    {
      assert RowConserved(s, id);
      ClaimRowConserved(s, t, r, ids, id);
    }
    forall q | 0 <= q < |t.relays|
      ensures RelayConserved(t, t.relays[q])
    {
      assert RelayConserved(s, s.relays[q]);
    }
  }

  lemma SendAddsCopy(s: State, id: nat, rec: Record, j: nat)
    requires UniqueEvents(s) && KeepsEventIds(s.config) && id < |s.rows| && j < |s.rows| && rec.message == s.config.message(s.rows[id].event)
    ensures Copies(s.log + [rec], s.config.message(s.rows[j].event))
         == Copies(s.log, s.config.message(s.rows[j].event)) + if j == id then 1 else 0
  {
    CopiesAppend(s.log, rec, s.config.message(s.rows[j].event));
    if rec.message == s.config.message(s.rows[j].event) {

    }
  }

  lemma SendersAfterSend(relays: seq<Relay>, r: nat, id: nat, j: nat)
    requires r < |relays| && relays[r].Busy? && relays[r].phase == Publishing && id in relays[r].left
    ensures var after := relays[r := relays[r].(left := relays[r].left - {id})];
            |Senders(after, j)| == |Senders(relays, j)| - if j == id then 1 else 0
  {
    var after := relays[r := relays[r].(left := relays[r].left - {id})];
    if j == id {
      assert r in Senders(relays, id);
      assert Senders(after, j) == Senders(relays, j) - {r};
    } else {
      assert Senders(after, j) == Senders(relays, j);
    }
  }

  lemma SendRowConserved(s: State, t: State, r: nat, id: nat, partition: nat, j: nat)
    requires Conserved(s) && Enabled(s, Send(r, id, partition)) && j < |s.rows|
    requires t == Apply(s, Send(r, id, partition))
    ensures RowConserved(t, j)
  {
    assert RowConserved(s, j);
    SendAddsCopy(s, id, Record(partition, s.config.message(s.rows[id].event)), j);
    SendersAfterSend(s.relays, r, id, j);
  }

  lemma SendRelayConserved(s: State, t: State, r: nat, id: nat, partition: nat, q: nat)
    requires Conserved(s) && Enabled(s, Send(r, id, partition)) && q < |s.relays|
    requires t == Apply(s, Send(r, id, partition))
    ensures RelayConserved(t, t.relays[q])
  {
    var p := s.relays[q];
    assert RelayConserved(s, p);
    if p.Busy? {
      forall i | 0 <= i < |p.valid|
        ensures Copies(t.log, s.config.message(s.rows[p.valid[i]].event))
             >= Copies(s.log, s.config.message(s.rows[p.valid[i]].event)) + if p.valid[i] == id then 1 else 0
      {
        SendAddsCopy(s, id, Record(partition, s.config.message(s.rows[id].event)), p.valid[i]);
      }
    }
  }

  lemma SendConserves(s: State, r: nat, id: nat, partition: nat)
    requires Conserved(s) && Enabled(s, Send(r, id, partition))
    ensures Conserved(Apply(s, Send(r, id, partition)))
  {
    var t := Apply(s, Send(r, id, partition));
    assert RelayConserved(s, s.relays[r]);
    assert FromRow(t.config, t.rows, s.config.message(s.rows[id].event));
    forall j: nat | j < |t.rows|
      ensures RowConserved(t, j)
    {
      SendRowConserved(s, t, r, id, partition, j);
    }
    forall q: nat | q < |t.relays|
      ensures RelayConserved(t, t.relays[q])
    {
      SendRelayConserved(s, t, r, id, partition, q);
    }
  }

  lemma CheckConserves(s: State, r: nat)
    requires Conserved(s) && Enabled(s, Check(r))
    ensures Conserved(Apply(s, Check(r)))
  {
    var p := s.relays[r];
    var id := p.todo[0];
    assert RelayConserved(s, p);
    if s.config.isValid(s.rows[id].event) {
      RelayMoves(s, r, p.(todo := p.todo[1..], valid := p.valid + [id]));
    } else {
      var rows := s.rows[id := AsTerminal(s.rows[id], s.now)];
      RowsMove(s, rows);
      var mid := s.(rows := rows);
      assert RelayConserved(mid, mid.relays[r]);
      RelayMoves(mid, r, p.(todo := p.todo[1..]));
    }
  }

  lemma MarkDeliveredConserves(s: State, r: nat)
    requires Conserved(s) && Enabled(s, MarkDelivered(r))
    ensures Conserved(Apply(s, MarkDelivered(r)))
  {
    var p := s.relays[r];
    assert RelayConserved(s, p);
    var rows := DeliverRows(s.rows, p.valid, s.now);
    forall id | 0 <= id < |rows|
      ensures RowUpdate(s, s.rows[id], rows[id])
    {
      if id in p.valid {
        var i :| 0 <= i < |p.valid| && p.valid[i] == id;
        assert Copies(s.log, s.config.message(s.rows[p.valid[i]].event)) >= 1;
      }
    }
    RowsMove(s, rows);
    RelayMoves(s.(rows := rows), r, Idle);
  }

  lemma RescheduleConserves(s: State, r: nat, id: nat, at: int)
    requires Conserved(s) && InPhase(s, r, Retrying) && id < |s.rows|
    ensures Conserved(Reschedule(s, r, id, at))
  {
    var p := s.relays[r];
    assert RelayConserved(s, p);
    var left := p.left - {id};
    RelayMoves(s, r, if left == {} then Idle else p.(left := left));
    var mid := SetRelay(s, r, if left == {} then Idle else p.(left := left));
    RowsMove(mid, mid.rows[id := AsRetry(mid.rows[id], at)]);
  }

  lemma MarkRetryConserves(s: State, r: nat, id: nat)
    requires Conserved(s) && Enabled(s, MarkRetry(r, id))
    ensures Conserved(Apply(s, MarkRetry(r, id)))
  {
    var t := Apply(s, MarkRetry(r, id));
    var at := s.now + s.config.retryDelayMs(s.relays[r].seen[id] + 1);
    RescheduleConserves(s, r, id, at);
    assert t == Reschedule(s, r, id, at);
    assert Conserved(t);
  }

  lemma RequeueConserves(s: State, id: nat)
    requires Conserved(s) && Enabled(s, Requeue(id))
    ensures Conserved(Apply(s, Requeue(id)))
  {
    assert RowConserved(s, id);
    RowsMove(s, s.rows[id := s.rows[id].(terminalAt := None, attempts := 0, availableAt := s.now)]);
  }

  predicate ChangesPhaseOnly(a: Action) {
    a.StartPublish? || a.Acknowledge? || a.PublishFails? || a.MarkDeliveredFails? || a.Crash?
  }

  lemma PhaseConserves(s: State, a: Action)
    requires Conserved(s) && Enabled(s, a) && ChangesPhaseOnly(a)
    ensures Conserved(Apply(s, a))
  {
    assert RelayConserved(s, s.relays[a.r]);
    RelayMoves(s, a.r, Apply(s, a).relays[a.r]);
  }

  lemma RowStepConserves(s: State, a: Action)
    requires Conserved(s) && Enabled(s, a)
    requires a.Check? || a.Send? || a.MarkDelivered? || a.MarkRetry?
    ensures Conserved(Apply(s, a))
  {
    match a {
      case Check(r) => CheckConserves(s, r);
      case Send(r, id, partition) => SendConserves(s, r, id, partition);
      case MarkDelivered(r) => MarkDeliveredConserves(s, r);
      case MarkRetry(r, id) => MarkRetryConserves(s, r, id);
    }
    var t := Apply(s, a);
    assert Conserved(t);
  }

  lemma StepConserves(s: State, a: Action)
    requires Conserved(s) && Enabled(s, a)
    ensures Conserved(Apply(s, a))
  {
    match a {
      case Insert(event) => InsertConserves(s, event);
      case Tick(ms) => TickConserves(s, ms);
      case Claim(r, ids) => ClaimConserves(s, r, ids);
      case Requeue(id) => RequeueConserves(s, id);
      case _ =>
        if ChangesPhaseOnly(a) {
          PhaseConserves(s, a);
        } else {
          RowStepConserves(s, a);
        }
    }
  }

  lemma TickConserves(s: State, ms: nat)
    requires Conserved(s)
    ensures Conserved(s.(now := s.now + ms))
  {
    var t := s.(now := s.now + ms);
    LogKept(s, t);
    forall id | 0 <= id < |s.rows|
      ensures RowConserved(t, id)
    {
      assert RowConserved(s, id);
    }
    forall r | 0 <= r < |s.relays|
      ensures RelayConserved(t, t.relays[r])
    {
      assert RelayConserved(s, s.relays[r]);
    }
  }

  lemma RunConserves(s0: State, s: State)
    requires Conserved(s0) && Leads(Next, s0, s)
    ensures Conserved(s) && s.config == s0.config
  {
    var inv := (t: State) => Conserved(t) && t.config == s0.config;
    forall t, u | inv(t) && Next(t, u)
      ensures inv(u)
    {
      var a :| Enabled(t, a) && u == Apply(t, a);
      StepConserves(t, a);
    }
    LeadsKeeps(Next, inv, s0, s);
  }

  lemma InitConserved(s: State)
    requires Init(s)
    ensures Conserved(s)
  {
  }

  /**
   Outbox conservation, in every reachable state, whatever the interleaving,
   the crashes, the expired leases, the partial publishes and the requeues.
   */
  lemma Conservation(s0: State, s: State, id: nat)
    requires Init(s0) && Leads(Next, s0, s) && id < |s.rows|
    ensures var row := s.rows[id]; var valid := s.config.isValid(row.event);
            var copies := Copies(s.log, s.config.message(row.event));
            && (row.deliveredAt.Some? ==> valid && copies >= 1)
            && copies <= row.attempts
            && !(row.deliveredAt.Some? && row.terminalAt.Some?)
            && (row.terminalAt.Some? ==> !valid)
            && (!valid ==> copies == 0)
    ensures LogFromRows(s)
  {
    InitConserved(s0);
    RunConserves(s0, s);
    assert RowConserved(s, id);
    if !s.config.isValid(s.rows[id].event) {
      forall j | 0 <= j < |s.rows| && s.config.isValid(s.rows[j].event)
        ensures s.rows[j].event.eventId != s.rows[id].event.eventId
      {
        assert j < id || id < j;
      }
      UnpublishedMessage(s, s.rows[id].event);
    }
  }

  /** The same for the real relay: its own row check and its own JSON messages. */
  lemma RelayConservation(s0: State, s: State, id: nat, leaseMs: int, maxBackoffMs: int)
    requires Init(s0) && s0.config == RelayConfig(leaseMs, maxBackoffMs)
    requires Leads(Next, s0, s) && id < |s.rows|
    ensures var row := s.rows[id];
            var copies := Copies(s.log, MessageOf(row.event));
            && (row.deliveredAt.Some? ==> IsValid(row.event) && copies >= 1)
            && copies <= row.attempts
            && !(row.deliveredAt.Some? && row.terminalAt.Some?)
            && (row.terminalAt.Some? ==> !IsValid(row.event))
            && (!IsValid(row.event) ==> copies == 0)
  {
    InitConserved(s0);
    RunConserves(s0, s);
    Conservation(s0, s, id);
  }

  /** The message goes to the row's topic, keyed by its aggregate, and reads back as the row's event. */
  ghost predicate Carries(m: Message, event: RelayRow) {
    && m.topic == event.topic && m.key == event.aggregateId
    && var read := ParseEventEnvelope(m.value);
       && read.Fulfilled?
       && read.value.eventId == event.eventId && read.value.eventType == event.eventType
       && read.value.aggregateId == event.aggregateId && read.value.payload == event.payload
  }

  /**
   In every reachable state every record of the log belongs to a valid row, lies
   in that row's topic, and is the only row's whose event id it carries.
   */
  lemma RecordsMatchRows(s0: State, s: State, k: nat, leaseMs: int, maxBackoffMs: int) returns (id: nat)
    requires Init(s0) && s0.config == RelayConfig(leaseMs, maxBackoffMs)
    requires Leads(Next, s0, s) && k < |s.log|
    ensures id < |s.rows| && IsValid(s.rows[id].event) && Carries(s.log[k].message, s.rows[id].event)
    ensures forall j: nat :: j < |s.rows| && ParseEventEnvelope(s.log[k].message.value).value.eventId == s.rows[j].event.eventId
                             ==> j == id
  {
    InitConserved(s0);
    RunConserves(s0, s);
    assert FromRow(s.config, s.rows, s.log[k].message);
    id :| 0 <= id < |s.rows| && s.config.isValid(s.rows[id].event) && s.log[k].message == s.config.message(s.rows[id].event);
    RelayedRowIsAccepted(s.rows[id].event);
    forall j: nat | j < |s.rows| && s.rows[id].event.eventId == s.rows[j].event.eventId
      ensures j == id
    {
      assert j < id || id < j || j == id;
    }
  }

  /**
   No step loses anything: rows and records stay, a delivery time never
   changes, and a terminal row stays terminal and keeps its attempt count
   unless an operator requeues that row.
   */
  lemma StepIsMonotone(s: State, a: Action, id: nat)
    requires Enabled(s, a) && id < |s.rows|
    ensures var t := Apply(s, a);
            && |s.rows| <= |t.rows| && s.log <= t.log
            && t.rows[id].event == s.rows[id].event
            && (s.rows[id].deliveredAt.Some? ==> t.rows[id].deliveredAt == s.rows[id].deliveredAt)
            && (a != Requeue(id) ==>
                  && (s.rows[id].terminalAt.Some? ==> t.rows[id].terminalAt.Some?)
                  && t.rows[id].attempts >= s.rows[id].attempts)
  {
  }

  // --------------------------------------------------------- lease exclusivity

  /** The row is in the process's batch and not yet marked by it. */
  predicate Holds(p: Relay, id: nat) {
    && p.Busy?
    && match p.phase
       case Checking => id in p.todo || id in p.valid
       case Publishing => id in p.valid
       case Acked => id in p.valid
       case Retrying => id in p.left
  }

  /** A row is claimed while it is in another process's batch. */
  ghost predicate ClaimsHeld(s: State, a: Action) {
    a.Claim? && exists q, id: nat :: 0 <= q < |s.relays| && Holds(s.relays[q], id) && id in a.ids
  }

  ghost predicate GuardedNext(s: State, t: State) {
    exists a :: Enabled(s, a) && !ClaimsHeld(s, a) && t == Apply(s, a)
  }

  ghost predicate Exclusive(s: State) {
    forall q, r, id: nat :: 0 <= q < r < |s.relays| && Holds(s.relays[q], id) ==> !Holds(s.relays[r], id)
  }

  ghost predicate HoldsOpenRows(s: State, p: Relay) {
    && (forall id: nat :: Holds(p, id) ==> id < |s.rows| && s.rows[id].Open() && s.rows[id].availableAt == p.lease)
    && (p.Busy? && p.phase == Checking ==> Increasing(p.valid + p.todo))
  }

  ghost predicate Leased(s: State) {
    Exclusive(s) && forall r :: 0 <= r < |s.relays| ==> HoldsOpenRows(s, s.relays[r])
  }

  ghost predicate Shrinks(p: Relay, q: Relay) {
    && (forall id: nat :: Holds(q, id) ==> Holds(p, id))
    && (q.Busy? ==> p.Busy? && q.lease == p.lease)
    && (q.Busy? && q.phase == Checking ==> Increasing(q.valid + q.todo))
  }

  /** Batches may shrink, and rows that nobody holds afterwards may change. */
  lemma LeasedMoves(s: State, t: State)
    requires Leased(s) && |t.relays| == |s.relays| && |s.rows| <= |t.rows|
    requires forall r :: 0 <= r < |s.relays| ==> Shrinks(s.relays[r], t.relays[r])
    requires forall id, r :: 0 <= id < |s.rows| && 0 <= r < |s.relays| && Holds(t.relays[r], id) ==> t.rows[id] == s.rows[id]
    ensures Leased(t)
  {
    forall r | 0 <= r < |t.relays|
      ensures HoldsOpenRows(t, t.relays[r])
    {
      assert HoldsOpenRows(s, s.relays[r]) && Shrinks(s.relays[r], t.relays[r]);
    }
    forall q, r, id: nat | 0 <= q < r < |t.relays| && Holds(t.relays[q], id)
      ensures !Holds(t.relays[r], id)
    {
      assert Shrinks(s.relays[q], t.relays[q]) && Shrinks(s.relays[r], t.relays[r]);
    }
  }

  lemma ClaimerHoldsOpenRows(s: State, r: nat, ids: seq<nat>)
    requires Enabled(s, Claim(r, ids))
    ensures HoldsOpenRows(Apply(s, Claim(r, ids)), Apply(s, Claim(r, ids)).relays[r])
  {
    var t := Apply(s, Claim(r, ids));
    assert [] + ids == ids;
    forall id: nat | Holds(t.relays[r], id)
      ensures id < |t.rows| && t.rows[id].Open() && t.rows[id].availableAt == t.relays[r].lease
    {
      var i :| 0 <= i < |ids| && ids[i] == id;
      assert Due(s.rows[ids[i]], s.now);
    }
  }

  lemma ClaimLeased(s: State, r: nat, ids: seq<nat>)
    requires Leased(s) && Enabled(s, Claim(r, ids)) && !ClaimsHeld(s, Claim(r, ids))
    ensures Leased(Apply(s, Claim(r, ids)))
  {
    var t := Apply(s, Claim(r, ids));
    ClaimerHoldsOpenRows(s, r, ids);
    forall q | 0 <= q < |t.relays|
      ensures HoldsOpenRows(t, t.relays[q])
    {
      assert HoldsOpenRows(s, s.relays[q]);
    }
  }

  lemma DropOne(ids: seq<nat>, k: nat)
    requires Increasing(ids) && k < |ids|
    ensures Increasing(ids[..k] + ids[k + 1..])
    ensures ids[k] !in ids[..k] && ids[k] !in ids[k + 1..]
  {
    var rest := ids[..k] + ids[k + 1..];
    forall i, j | 0 <= i < j < |rest|
      ensures rest[i] < rest[j]
    {
      assert rest[i] == ids[if i < k then i else i + 1];
      assert rest[j] == ids[if j < k then j else j + 1];
    }
  }

  lemma CheckLeased(s: State, r: nat)
    requires Leased(s) && Enabled(s, Check(r))
    ensures Leased(Apply(s, Check(r)))
  {
    var t := Apply(s, Check(r));
    var p, q := s.relays[r], t.relays[r];
    assert HoldsOpenRows(s, p);
    var batch := p.valid + p.todo;
    DropOne(batch, |p.valid|);
    assert batch[..|p.valid|] == p.valid && batch[|p.valid| + 1..] == p.todo[1..];
    if s.config.isValid(s.rows[p.todo[0]].event) {
      assert q.valid + q.todo == batch;
    } else {
      assert Holds(p, p.todo[0]) && !Holds(q, p.todo[0]);
    }
    assert Shrinks(p, q);
    LeasedMoves(s, t);
  }

  lemma MarkDeliveredLeased(s: State, r: nat)
    requires Leased(s) && Enabled(s, MarkDelivered(r))
    ensures Leased(Apply(s, MarkDelivered(r)))
  {
    var t := Apply(s, MarkDelivered(r));
    assert forall id: nat :: id in s.relays[r].valid ==> Holds(s.relays[r], id);
    LeasedMoves(s, t);
  }

  lemma MarkRetryLeased(s: State, r: nat, id: nat)
    requires Leased(s) && Enabled(s, MarkRetry(r, id))
    ensures Leased(Apply(s, MarkRetry(r, id)))
  {
    var t := Apply(s, MarkRetry(r, id));
    assert Holds(s.relays[r], id);
    LeasedMoves(s, t);
  }

  lemma RequeueLeased(s: State, id: nat)
    requires Leased(s) && Enabled(s, Requeue(id))
    ensures Leased(Apply(s, Requeue(id)))
  {
    var t := Apply(s, Requeue(id));
    forall r | 0 <= r < |s.relays|
      ensures Shrinks(s.relays[r], t.relays[r]) && !Holds(s.relays[r], id)
    {
      assert HoldsOpenRows(s, s.relays[r]);
    }
    LeasedMoves(s, t);
  }

  lemma PassiveLeased(s: State, a: Action)
    requires Leased(s) && Conserved(s) && Enabled(s, a)
    requires a.Insert? || a.Tick? || a.Send? || ChangesPhaseOnly(a)
    ensures Leased(Apply(s, a))
  {
    var t := Apply(s, a);
    forall r | 0 <= r < |s.relays|
      ensures Shrinks(s.relays[r], t.relays[r])
    {
      assert HoldsOpenRows(s, s.relays[r]) && RelayConserved(s, s.relays[r]);
    }
    LeasedMoves(s, t);
  }

  /** A claim of a held row puts it in two batches. */
  lemma HeldClaimOverlaps(s: State, r: nat, ids: seq<nat>)
    requires Enabled(s, Claim(r, ids)) && ClaimsHeld(s, Claim(r, ids))
    ensures !Exclusive(Apply(s, Claim(r, ids)))
  {
    var q, id: nat :| 0 <= q < |s.relays| && Holds(s.relays[q], id) && id in ids;
    var t := Apply(s, Claim(r, ids));
    assert Holds(t.relays[q], id) && Holds(t.relays[r], id) && q != r;
    assert Holds(t.relays[if q < r then q else r], id) && Holds(t.relays[if q < r then r else q], id);
  }

  lemma OtherStepLeased(s: State, a: Action)
    requires Leased(s) && Conserved(s) && Enabled(s, a) && !a.Claim?
    ensures Leased(Apply(s, a))
  {
    match a
    case Check(r) => CheckLeased(s, r);
    case MarkDelivered(r) => MarkDeliveredLeased(s, r);
    case MarkRetry(r, id) => MarkRetryLeased(s, r, id);
    case Requeue(id) => RequeueLeased(s, id);
    case _ => PassiveLeased(s, a);
  }

  /** The exact condition: a step keeps the batches apart if and only if it does not claim a held row. */
  lemma StepLeased(s: State, a: Action)
    requires Leased(s) && Conserved(s) && Enabled(s, a)
    ensures Leased(Apply(s, a)) <==> !ClaimsHeld(s, a)
  {
    if !a.Claim? {
      OtherStepLeased(s, a);
    } else if ClaimsHeld(s, a) {
      HeldClaimOverlaps(s, a.r, a.ids);
    } else {
      ClaimLeased(s, a.r, a.ids);
    }
  }

  /**
   Lease exclusivity: in a run in which no row is claimed while another process
   holds it, late processes included, no row is ever in two batches, and every
   held row is open and its stamp is its holder's lease.
   */
  lemma LeaseExclusivity(s0: State, s: State)
    requires Init(s0) && Leads(GuardedNext, s0, s)
    ensures Conserved(s) && Leased(s)
  {
    InitConserved(s0);
    var inv := (t: State) => Conserved(t) && Leased(t);
    forall t, u | inv(t) && GuardedNext(t, u)
      ensures inv(u)
    {
      var a :| Enabled(t, a) && !ClaimsHeld(t, a) && u == Apply(t, a);
      StepConserves(t, a);
      StepLeased(t, a);
    }
    LeadsKeeps(GuardedNext, inv, s0, s);
  }

  /** Every process that is in the middle of a batch is still within its lease. */
  ghost predicate Timely(s: State) {
    forall r :: 0 <= r < |s.relays| && s.relays[r].Busy? ==> s.now < s.relays[r].lease
  }

  /** A step taken while every busy process is within its lease. */
  ghost predicate TimelyNext(s: State, t: State) {
    Timely(s) && Next(s, t)
  }

  lemma TimelyClaimsNothingHeld(s: State, a: Action)
    requires Leased(s) && Timely(s) && Enabled(s, a)
    ensures !ClaimsHeld(s, a)
  {
    if a.Claim? {
      forall q, id: nat | 0 <= q < |s.relays| && Holds(s.relays[q], id)
        ensures id !in a.ids
      {
        assert HoldsOpenRows(s, s.relays[q]);
      }
    }
  }

  /** If every process finishes within its lease, no held row is claimed. */
  lemma TimelyRunsAreGuarded(s0: State, s: State)
    requires Init(s0) && Leads(TimelyNext, s0, s)
    ensures Leads(GuardedNext, s0, s)
  {
    InitConserved(s0);
    LeadsNowhere(GuardedNext, s0);
    var inv := (t: State) => Conserved(t) && Leased(t) && Leads(GuardedNext, s0, t);
    forall t, u | inv(t) && TimelyNext(t, u)
      ensures inv(u)
    {
      TimelyStep(s0, t, u);
    }
    LeadsKeeps(TimelyNext, inv, s0, s);
  }

  lemma TimelyStep(s0: State, s: State, t: State)
    requires Conserved(s) && Leased(s) && Leads(GuardedNext, s0, s) && TimelyNext(s, t)
    ensures Conserved(t) && Leased(t) && Leads(GuardedNext, s0, t)
  {
    var a :| Enabled(s, a) && t == Apply(s, a);
    TimelyClaimsNothingHeld(s, a);
    StepConserves(s, a);
    StepLeased(s, a);
    LeadsStep(GuardedNext, s0, s, t);
  }

  /**
   The lease separates the processes: if every process finishes its batch within
   its lease, no row is ever in two batches, and a held row is open and not due
   for anyone before its holder's lease is over.
   */
  lemma LeasesSeparateProcesses(s0: State, s: State, q: nat, r: nat, id: nat)
    requires Init(s0) && Leads(TimelyNext, s0, s)
    requires q < |s.relays| && r < |s.relays| && Holds(s.relays[q], id)
    ensures Holds(s.relays[r], id) ==> q == r
    ensures id < |s.rows| && s.rows[id].Open()
    ensures Due(s.rows[id], s.now) <==> s.relays[q].lease <= s.now
  {
    TimelyRunsAreGuarded(s0, s);
    LeaseExclusivity(s0, s);
    assert HoldsOpenRows(s, s.relays[q]);
    assert q < r || r < q || q == r;
  }

  /**
   And nothing else does: another process can claim a row that is held exactly
   when its holder's lease is over, and then both hold it.
   */
  lemma ExpiredLeaseOverlaps(s: State, q: nat, r: nat, id: nat)
    requires Leased(s) && q < |s.relays| && r < |s.relays| && Holds(s.relays[q], id) && s.relays[r].Idle?
    ensures Enabled(s, Claim(r, [id])) <==> s.relays[q].lease <= s.now
    ensures Enabled(s, Claim(r, [id])) ==>
              var t := Apply(s, Claim(r, [id])); Holds(t.relays[q], id) && Holds(t.relays[r], id)
  {
    assert HoldsOpenRows(s, s.relays[q]);
    if Enabled(s, Claim(r, [id])) {
      assert Due(s.rows[[id][0]], s.now);
    }
  }
}
