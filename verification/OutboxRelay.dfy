/**
 The relay's own code, run by one process without interruption: the claim, the
 check of each claimed row, the grouping by topic, the publication and the
 marks. Each call is a path of the protocol in module Outbox, so everything
 proved there about all interleavings covers it.
 */
module OutboxRelay {
  import opened Prelude
  import opened EventEnvelope
  import opened Grouping
  import opened Outbox
  import Paths

  /** The call so far is a path of the protocol. */
  ghost predicate Follows(s: State, t: State) {
    Paths.Leads(Next, s, t)
  }

  lemma TakeStep(s: State, t: State, a: Action)
    requires Follows(s, t) && Enabled(t, a)
    ensures Follows(s, Apply(t, a))
  {
    assert Next(t, Apply(t, a));
    Paths.LeadsStep(Next, s, t, Apply(t, a));
  }

  // -------------------------------------------------- the claim's SELECT

  /** Ids of all due rows, in id order. */
  function DueIds(rows: seq<Row>, now: int): (ids: seq<nat>)
    ensures |ids| <= |rows|
  {
    Positions(rows, (row: Row) => Due(row, now))
  }

  function FirstDue(rows: seq<Row>, now: int, limit: nat): seq<nat> {
    FirstPositions(rows, (row: Row) => Due(row, now), limit)
  }

  /** The SELECT returns due rows only, all of them when the limit allows, in increasing id order. */
  lemma DueIdsAreDue(rows: seq<Row>, now: int)
    ensures Increasing(DueIds(rows, now))
    ensures forall id: nat :: id in DueIds(rows, now) <==> id < |rows| && Due(rows[id], now)
  {
    PositionsFine(rows, (row: Row) => Due(row, now));
  }

  /** The ids are those of the first due rows: as many as the limit allows, none left out before one of them. */
  ghost predicate IsFirstDue(rows: seq<Row>, now: int, limit: nat, ids: seq<nat>) {
    TakesFirst(rows, (row: Row) => Due(row, now), limit, ids)
  }

  lemma FirstDueIsDue(rows: seq<Row>, now: int, limit: nat)
    ensures var ids := FirstDue(rows, now, limit);
            && IsFirstDue(rows, now, limit, ids)
            && Increasing(ids) && InTable(ids, rows)
            && forall i :: 0 <= i < |ids| ==> Due(rows[ids[i]], now)
  {
    FirstPositionsFine(rows, (row: Row) => Due(row, now), limit);
  }

  // ------------------------------------------------------------- validity

  function ValidIds(c: Config, rows: seq<Row>, ids: seq<nat>): (valid: seq<nat>)
    requires InTable(ids, rows)
    ensures InTable(valid, rows)
  {
    if ids == [] then []
    else
      var last := |ids| - 1;
      ValidIds(c, rows, ids[..last]) + if c.isValid(rows[ids[last]].event) then [ids[last]] else []
  }

  /** The batch keeps exactly the valid claimed rows, in id order. */
  lemma {:induction false} ValidIdsAreValid(c: Config, rows: seq<Row>, ids: seq<nat>)
    requires InTable(ids, rows)
    ensures forall id :: id in ValidIds(c, rows, ids) <==> id in ids && c.isValid(rows[id].event)
    ensures Increasing(ids) ==> Increasing(ValidIds(c, rows, ids))
  {
    if ids != [] {
      var last := |ids| - 1;
      ValidIdsAreValid(c, rows, ids[..last]);
      assert ids == ids[..last] + [ids[last]];
      var before := ValidIds(c, rows, ids[..last]);
      forall i | 0 <= i < |before| && Increasing(ids)
        ensures before[i] < ids[last]
      {
        assert before[i] in before && before[i] in ids[..last];
      }
    }
  }

  function TopicOf(rows: seq<Row>): nat -> string {
    (id: nat) => if id < |rows| then rows[id].event.topic else ""
  }

  // -------------------------------------------------------- the table updates

  function CheckedRows(c: Config, rows: seq<Row>, ids: seq<nat>, now: int): seq<Row> {
    seq(|rows|, i requires 0 <= i < |rows| =>
      if i in ids && !c.isValid(rows[i].event) then AsTerminal(rows[i], now) else rows[i])
  }

  lemma CheckOneMore(c: Config, before: seq<Row>, claimed: seq<nat>, k: nat, now: int)
    requires InTable(claimed, before) && Increasing(claimed) && k < |claimed|
    ensures var rows := CheckedRows(c, before, claimed[..k], now); var id := claimed[k];
            && rows[id] == before[id]
            && CheckedRows(c, before, claimed[..k + 1], now)
            == if c.isValid(before[id].event) then rows else rows[id := AsTerminal(rows[id], now)]
  {
    assert claimed[..k + 1] == claimed[..k] + [claimed[k]];
    assert claimed[k] !in claimed[..k];
  }

  /** The state after the first `k` claimed rows have been checked. */
  ghost function Checked(s: State, me: nat, k: nat): State
    requires InPhase(s, me, Checking) && InTable(s.relays[me].todo, s.rows) && k <= |s.relays[me].todo|
  {
    var p := s.relays[me];
    SetRelay(s.(rows := CheckedRows(s.config, s.rows, p.todo[..k], s.now)), me,
             p.(todo := p.todo[k..], valid := p.valid + ValidIds(s.config, s.rows, p.todo[..k])))
  }

  lemma CheckedZero(s: State, me: nat)
    requires InPhase(s, me, Checking) && InTable(s.relays[me].todo, s.rows)
    ensures Checked(s, me, 0) == s
  {
    var p := s.relays[me];
    assert p.todo[0..] == p.todo && p.valid + [] == p.valid;
    assert CheckedRows(s.config, s.rows, p.todo[..0], s.now) == s.rows;
    assert s.relays[me := p] == s.relays;
  }

  lemma ValidIdsOneMore(c: Config, rows: seq<Row>, ids: seq<nat>, k: nat)
    requires InTable(ids, rows) && k < |ids|
    ensures ValidIds(c, rows, ids[..k + 1])
         == ValidIds(c, rows, ids[..k]) + if c.isValid(rows[ids[k]].event) then [ids[k]] else []
    ensures ids[k..] != [] && ids[k..][0] == ids[k] && ids[k..][1..] == ids[k + 1..]
  {
    assert ids[..k + 1][..k] == ids[..k];
  }

  lemma CheckedChecks(s: State, me: nat, k: nat)
    requires InPhase(s, me, Checking) && InTable(s.relays[me].todo, s.rows) && Increasing(s.relays[me].todo)
    requires k < |s.relays[me].todo|
    ensures Enabled(Checked(s, me, k), Check(me))
    ensures Checked(s, me, k + 1) == AfterCheck(Checked(s, me, k), me)
  {
    var p := s.relays[me];
    CheckOneMore(s.config, s.rows, p.todo, k, s.now);
    ValidIdsOneMore(s.config, s.rows, p.todo, k);
    var before, after := Checked(s, me, k), AfterCheck(Checked(s, me, k), me);
    assert after.relays[me].valid == Checked(s, me, k + 1).relays[me].valid;
    assert after.relays == Checked(s, me, k + 1).relays;
  }

  lemma CheckedOneMore(s: State, me: nat, k: nat)
    requires InPhase(s, me, Checking) && InTable(s.relays[me].todo, s.rows) && Increasing(s.relays[me].todo)
    requires k < |s.relays[me].todo|
    ensures Enabled(Checked(s, me, k), Check(me))
    ensures Checked(s, me, k + 1) == Apply(Checked(s, me, k), Check(me))
  {
    CheckedChecks(s, me, k);
  }

  lemma {:induction false} CheckedIsPath(s: State, me: nat, k: nat)
    requires InPhase(s, me, Checking) && InTable(s.relays[me].todo, s.rows) && Increasing(s.relays[me].todo)
    requires k <= |s.relays[me].todo|
    ensures Follows(s, Checked(s, me, k))
  {
    if k == 0 {
      Paths.LeadsNowhere(Next, s);
      CheckedZero(s, me);
    } else {
      CheckedIsPath(s, me, k - 1);
      CheckedOneMore(s, me, k - 1);
      TakeStep(s, Checked(s, me, k - 1), Check(me));
    }
  }

  function ToRecords(c: Config, rows: seq<Row>, ids: seq<nat>, partitions: string -> nat): (records: seq<Record>)
    requires InTable(ids, rows)
    ensures |records| == |ids|
  {
    seq(|ids|, i requires 0 <= i < |ids| =>
      Record(partitions(rows[ids[i]].event.aggregateId), c.message(rows[ids[i]].event)))
  }

  /** The state after the broker has taken the accepted ones of the first `k` messages. */
  ghost function Sent(s: State, me: nat, order: seq<nat>, accepted: nat -> bool, partitions: string -> nat, k: nat): State
    requires InPhase(s, me, Publishing) && InTable(order, s.rows) && k <= |order|
  {
    var taken := Matching(order[..k], accepted, true);
    TakenInTable(s.rows, order[..k], accepted);
    SetRelay(s.(log := s.log + ToRecords(s.config, s.rows, taken, partitions)), me,
             s.relays[me].(left := s.relays[me].left - Ids(taken)))
  }

  lemma {:induction false} TakenInTable(rows: seq<Row>, order: seq<nat>, accepted: nat -> bool)
    requires InTable(order, rows)
    ensures InTable(Matching(order, accepted, true), rows)
  {
    if order != [] {
      TakenInTable(rows, order[..|order| - 1], accepted);
    }
  }

  lemma SentZero(s: State, me: nat, order: seq<nat>, accepted: nat -> bool, partitions: string -> nat)
    requires InPhase(s, me, Publishing) && InTable(order, s.rows)
    ensures Sent(s, me, order, accepted, partitions, 0) == s
  {
    assert s.log + [] == s.log && s.relays[me].left - Ids([]) == s.relays[me].left;
    assert s.relays[me := s.relays[me]] == s.relays;
  }

  lemma TakenOneMore(c: Config, rows: seq<Row>, left: set<nat>, taken: seq<nat>, id: nat, partitions: string -> nat)
    requires InTable(taken, rows) && id < |rows|
    ensures ToRecords(c, rows, taken + [id], partitions)
         == ToRecords(c, rows, taken, partitions) + [Record(partitions(rows[id].event.aggregateId), c.message(rows[id].event))]
    ensures left - Ids(taken + [id]) == left - Ids(taken) - {id}
    ensures id in left && id !in taken ==> id in left - Ids(taken)
  {
    assert Ids(taken + [id]) == Ids(taken) + {id};
  }

  lemma SentOneMore(s: State, me: nat, order: seq<nat>, accepted: nat -> bool, partitions: string -> nat, k: nat)
    requires InPhase(s, me, Publishing) && InTable(order, s.rows) && k < |order|
    requires Distinct(order) && order[k] in s.relays[me].left
    ensures var before, after := Sent(s, me, order, accepted, partitions, k), Sent(s, me, order, accepted, partitions, k + 1);
            var a := Send(me, order[k], partitions(s.rows[order[k]].event.aggregateId));
            if accepted(order[k]) then Enabled(before, a) && after == Apply(before, a) else after == before
  {
    var id := order[k];
    assert order[..k + 1] == order[..k] + [id];
    MatchingOne(order[..k], id, accepted, true);
    MatchingMembers(order[..k], accepted, true);
    var taken := Matching(order[..k], accepted, true);
    TakenInTable(s.rows, order[..k], accepted);
    if accepted(id) {
      assert id !in taken;
      TakenOneMore(s.config, s.rows, s.relays[me].left, taken, id, partitions);
    } else {
      assert taken + [] == taken;
    }
  }

  function RetriedRow(c: Config, row: Row, seen: nat, now: int): Row {
    AsRetry(row, now + c.retryDelayMs(seen + 1))
  }

  function RetriedRows(c: Config, rows: seq<Row>, ids: seq<nat>, seen: map<nat, nat>, now: int): seq<Row>
  {
    seq(|rows|, i requires 0 <= i < |rows| =>
      if i in ids && i in seen then RetriedRow(c, rows[i], seen[i], now) else rows[i])
  }

  ghost predicate StartsRetrying(s: State, me: nat, ids: seq<nat>) {
    && InPhase(s, me, Retrying)
    && ids != [] && Distinct(ids) && InTable(ids, s.rows)
    && s.relays[me].left == Ids(ids) && Ids(ids) <= s.relays[me].seen.Keys
  }

  /** The state after the first `k` rows of a failed batch have been rescheduled. */
  ghost function Retried(s: State, me: nat, ids: seq<nat>, k: nat): State
    requires StartsRetrying(s, me, ids) && k <= |ids|
  {
    var p := s.relays[me];
    SetRelay(s.(rows := RetriedRows(s.config, s.rows, ids[..k], p.seen, s.now)), me,
             if k == |ids| then Idle else p.(left := Ids(ids[k..])))
  }

  lemma RetriedZero(s: State, me: nat, ids: seq<nat>)
    requires StartsRetrying(s, me, ids)
    ensures Retried(s, me, ids, 0) == s
  {
    var p := s.relays[me];
    assert ids[0..] == ids && p.(left := Ids(ids)) == p;
    assert RetriedRows(s.config, s.rows, ids[..0], p.seen, s.now) == s.rows;
    assert s.relays[me := p] == s.relays;
  }

  lemma RetriedRowsOneMore(c: Config, rows: seq<Row>, ids: seq<nat>, k: nat, seen: map<nat, nat>, now: int)
    requires InTable(ids, rows) && Distinct(ids) && k < |ids| && ids[k] in seen
    ensures var before := RetriedRows(c, rows, ids[..k], seen, now);
            && before[ids[k]] == rows[ids[k]]
            && RetriedRows(c, rows, ids[..k + 1], seen, now)
            == before[ids[k] := RetriedRow(c, rows[ids[k]], seen[ids[k]], now)]
  {
    assert ids[..k + 1] == ids[..k] + [ids[k]];
    assert ids[k] !in ids[..k];
  }

  lemma RetriedRelayOneMore(s: State, me: nat, ids: seq<nat>, k: nat)
    requires StartsRetrying(s, me, ids) && k < |ids|
    ensures ids[k] in Ids(ids[k..])
    ensures Ids(ids[k..]) - {ids[k]} == Ids(ids[k + 1..])
    ensures Ids(ids[k + 1..]) == {} <==> k + 1 == |ids|
  {
    assert ids[k..] == [ids[k]] + ids[k + 1..];
    assert ids[k] !in ids[k + 1..];
    if k + 1 < |ids| {
      assert ids[k + 1] in Ids(ids[k + 1..]);
    }
  }

  lemma RetriedReschedules(s: State, me: nat, ids: seq<nat>, k: nat)
    requires StartsRetrying(s, me, ids) && k < |ids|
    ensures InPhase(Retried(s, me, ids, k), me, Retrying) && ids[k] in Retried(s, me, ids, k).relays[me].left
    ensures Retried(s, me, ids, k + 1)
         == Reschedule(Retried(s, me, ids, k), me, ids[k],
                       s.now + s.config.retryDelayMs(s.relays[me].seen[ids[k]] + 1))
  {
    RetriedRowsOneMore(s.config, s.rows, ids, k, s.relays[me].seen, s.now);
    RetriedRelayOneMore(s, me, ids, k);
  }

  lemma RetriedMayGoOn(s: State, me: nat, ids: seq<nat>, k: nat)
    requires StartsRetrying(s, me, ids) && k < |ids|
    ensures var before := Retried(s, me, ids, k);
            && Enabled(before, MarkRetry(me, ids[k]))
            && before.now == s.now && before.config == s.config && before.relays[me].seen == s.relays[me].seen
  {
    assert ids[k..][0] == ids[k];
    assert ids[k] in Ids(ids);
  }

  lemma RetriedOneMore(s: State, me: nat, ids: seq<nat>, k: nat)
    requires StartsRetrying(s, me, ids) && k < |ids|
    ensures Enabled(Retried(s, me, ids, k), MarkRetry(me, ids[k]))
    ensures Retried(s, me, ids, k + 1) == Apply(Retried(s, me, ids, k), MarkRetry(me, ids[k]))
  {
    RetriedMayGoOn(s, me, ids, k);
    RetriedReschedules(s, me, ids, k);
  }

  lemma {:induction false} RetriedIsPath(s: State, me: nat, ids: seq<nat>, k: nat)
    requires StartsRetrying(s, me, ids) && k <= |ids|
    ensures Follows(s, Retried(s, me, ids, k))
  {
    if k == 0 {
      Paths.LeadsNowhere(Next, s);
      RetriedZero(s, me, ids);
    } else {
      RetriedIsPath(s, me, ids, k - 1);
      RetriedOneMore(s, me, ids, k - 1);
      TakeStep(s, Retried(s, me, ids, k - 1), MarkRetry(me, ids[k - 1]));
    }
  }

  ghost predicate StartsPublishing(s: State, me: nat, order: seq<nat>) {
    && InPhase(s, me, Publishing)
    && Distinct(order) && InTable(order, s.rows)
    && s.relays[me].left == Ids(order)
  }

  lemma {:induction false} SentIsPath(s: State, me: nat, order: seq<nat>, accepted: nat -> bool, partitions: string -> nat, k: nat)
    requires StartsPublishing(s, me, order) && k <= |order|
    ensures Follows(s, Sent(s, me, order, accepted, partitions, k))
  {
    if k == 0 {
      Paths.LeadsNowhere(Next, s);
      SentZero(s, me, order, accepted, partitions);
    } else {
      SentIsPath(s, me, order, accepted, partitions, k - 1);
      SentOneMore(s, me, order, accepted, partitions, k - 1);
      if accepted(order[k - 1]) {
        TakeStep(s, Sent(s, me, order, accepted, partitions, k - 1),
                  Send(me, order[k - 1], partitions(s.rows[order[k - 1]].event.aggregateId)));
      }
    }
  }

  lemma PublishingStarts(s: State, me: nat, order: seq<nat>)
    requires InPhase(s, me, Checking) && s.relays[me].todo == [] && s.relays[me].valid != []
    requires Distinct(order) && InTable(order, s.rows) && Ids(order) == Ids(s.relays[me].valid)
    ensures var mid := SetRelay(s, me, s.relays[me].(phase := Publishing, left := Ids(order)));
            StartsPublishing(mid, me, order) && Follows(s, mid)
  {
    Paths.LeadsNowhere(Next, s);
    TakeStep(s, s, StartPublish(me));
  }

  lemma PublishingIsPath(s: State, me: nat, order: seq<nat>, accepted: nat -> bool, partitions: string -> nat)
    requires InPhase(s, me, Checking) && s.relays[me].todo == [] && s.relays[me].valid != []
    requires Distinct(order) && InTable(order, s.rows) && Ids(order) == Ids(s.relays[me].valid)
    requires InTable(Matching(order, accepted, true), s.rows)
    ensures var mid := SetRelay(s, me, s.relays[me].(phase := Publishing, left := Ids(order)));
            var taken := Matching(order, accepted, true);
            && StartsPublishing(mid, me, order)
            && var t := Sent(mid, me, order, accepted, partitions, |order|);
            && Follows(s, t)
            && t == SetRelay(s.(log := s.log + ToRecords(s.config, s.rows, taken, partitions)), me,
                             s.relays[me].(phase := Publishing, left := Ids(order) - Ids(taken)))
  {
    PublishingStarts(s, me, order);
    var mid := SetRelay(s, me, s.relays[me].(phase := Publishing, left := Ids(order)));
    SentIsPath(mid, me, order, accepted, partitions, |order|);
    var t := Sent(mid, me, order, accepted, partitions, |order|);
    Paths.LeadsTransitive(Next, s, mid, t);
    assert order[..|order|] == order;
  }

  // ------------------------------------------------ what one call amounts to

  /** How the broker answers one `sendBatch`: it takes all messages, or some of them and fails. */
  datatype Broker = Accepts | FailsAfter(accepted: nat -> bool)

  function Accepted(broker: Broker): nat -> bool {
    match broker
    case Accepts => ((id: nat) => true)
    case FailsAfter(accepted) => accepted
  }

  /** A claimed row after a call: terminal if invalid, else delivered or rescheduled. */
  function CalledRow(row: Row, delivered: bool, config: Config, now: int): Row {
    var tried := row.(attempts := row.attempts + 1, availableAt := now + config.leaseMs);
    if !config.isValid(row.event) then tried.(terminalAt := Some(now))
    else if delivered then tried.(deliveredAt := Some(now))
    else tried.(availableAt := now + config.retryDelayMs(tried.attempts))
  }

  /** The real relay's claimed row after a call, column by column. */
  lemma RelayedRow(row: Row, delivered: bool, leaseMs: int, maxBackoffMs: int, now: int)
    requires Due(row, now)
    ensures var after := CalledRow(row, delivered, RelayConfig(leaseMs, maxBackoffMs), now);
            && after.event == row.event && after.attempts == row.attempts + 1
            && (after.terminalAt == if IsValid(row.event) then None else Some(now))
            && (after.deliveredAt == if IsValid(row.event) && delivered then Some(now) else None)
            && after.availableAt == if IsValid(row.event) && !delivered then now + RetryDelayMs(row.attempts + 1, maxBackoffMs)
                                    else now + leaseMs
  {
  }

  ghost predicate OnlyClaimedChange(before: seq<Row>, after: seq<Row>, ids: seq<nat>, delivered: bool, config: Config, now: int) {
    && |after| == |before|
    && forall i :: 0 <= i < |before| ==>
         after[i] == if i in ids then CalledRow(before[i], delivered, config, now) else before[i]
  }

  /** What the first loop has computed at its end. */
  lemma CheckedBatch(s: State, me: nat)
    requires InPhase(s, me, Checking) && InTable(s.relays[me].todo, s.rows) && Increasing(s.relays[me].todo)
    requires s.relays[me].valid == []
    ensures var p := s.relays[me]; var valid := ValidIds(s.config, s.rows, p.todo); var t := Checked(s, me, |p.todo|);
            && Follows(s, t)
            && t == SetRelay(s.(rows := CheckedRows(s.config, s.rows, p.todo, s.now)), me, p.(todo := [], valid := valid))
            && Increasing(valid) && Ids(valid) <= Ids(p.todo) && InTable(valid, t.rows)
  {
    var p := s.relays[me];
    CheckedIsPath(s, me, |p.todo|);
    ValidIdsAreValid(s.config, s.rows, p.todo);
    assert p.todo[..|p.todo|] == p.todo && p.todo[|p.todo|..] == [] && [] + ValidIds(s.config, s.rows, p.todo) == ValidIds(s.config, s.rows, p.todo);
  }

  /** The table after a call has finished, seen from the table just after its claim. */
  function FinishedRows(c: Config, rows: seq<Row>, ids: seq<nat>, seen: map<nat, nat>, now: int, delivered: bool): seq<Row>
    requires InTable(ids, rows)
  {
    var checked := CheckedRows(c, rows, ids, now);
    if delivered then DeliverRows(checked, ValidIds(c, rows, ids), now)
    else RetriedRows(c, checked, ValidIds(c, rows, ids), seen, now)
  }

  lemma CheckedSameEvents(c: Config, rows: seq<Row>, ids: seq<nat>, now: int)
    ensures |CheckedRows(c, rows, ids, now)| == |rows| && SameEvents(CheckedRows(c, rows, ids, now), rows)
  {
  }

  lemma PublishedSameEvents(c: Config, a: seq<Row>, b: seq<Row>, valid: seq<nat>, published: seq<nat>, broker: Broker, partitions: string -> nat)
    requires |a| == |b| && SameEvents(a, b) && InTable(published, a)
    ensures ToRecords(c, a, published, partitions) == ToRecords(c, b, published, partitions)
    ensures PublishedPerTopic(a, valid, published, broker) ==> PublishedPerTopic(b, valid, published, broker)
  {
    forall t
      ensures Matching(published, TopicOf(a), t) == Matching(published, TopicOf(b), t)
      ensures Matching(valid, TopicOf(a), t) == Matching(valid, TopicOf(b), t)
    {
      MatchingSameKeys(published, TopicOf(a), TopicOf(b), t);
      MatchingSameKeys(valid, TopicOf(a), TopicOf(b), t);
    }
  }

  lemma {:induction false} ValidIdsSameEvents(c: Config, a: seq<Row>, b: seq<Row>, ids: seq<nat>)
    requires |a| == |b| && SameEvents(a, b) && InTable(ids, a)
    ensures ValidIds(c, a, ids) == ValidIds(c, b, ids)
  {
    if ids != [] {
      ValidIdsSameEvents(c, a, b, ids[..|ids| - 1]);
    }
  }

  /** One claimed row through the statements of a call. */
  lemma FinishedRow(row: Row, config: Config, now: int)
    requires Due(row, now)
    ensures var claimed := AsClaimed(row, now, config.leaseMs);
            && CalledRow(row, true, config, now)
            == (if config.isValid(row.event) then AsDelivered(claimed, now) else AsTerminal(claimed, now))
            && CalledRow(row, false, config, now)
            == (if config.isValid(row.event) then RetriedRow(config, claimed, row.attempts, now) else AsTerminal(claimed, now))
  {
  }

  lemma FinishedCallRow(before: seq<Row>, ids: seq<nat>, seen: map<nat, nat>, config: Config, now: int, delivered: bool, id: nat)
    requires InTable(ids, before) && id < |before| && (id in ids ==> Due(before[id], now))
    requires id in ids ==> id in seen && seen[id] == before[id].attempts
    requires id in ValidIds(config, before, ids) <==> id in ids && config.isValid(before[id].event)
    requires ValidIds(config, ClaimRows(before, ids, now, config.leaseMs), ids) == ValidIds(config, before, ids)
    ensures FinishedRows(config, ClaimRows(before, ids, now, config.leaseMs), ids, seen, now, delivered)[id]
         == if id in ids then CalledRow(before[id], delivered, config, now) else before[id]
  {
    if id in ids {
      FinishedRow(before[id], config, now);
    }
  }

  lemma FinishedCall(before: seq<Row>, ids: seq<nat>, seen: map<nat, nat>, config: Config, now: int, delivered: bool)
    requires InTable(ids, before) && forall id :: id in ids ==> id < |before| && Due(before[id], now)
    requires forall id :: id in ids ==> id in seen && seen[id] == before[id].attempts
    ensures var claimed := ClaimRows(before, ids, now, config.leaseMs);
            && ValidIds(config, claimed, ids) == ValidIds(config, before, ids)
            && OnlyClaimedChange(before, FinishedRows(config, claimed, ids, seen, now, delivered), ids, delivered, config, now)
  {
    var claimed := ClaimRows(before, ids, now, config.leaseMs);
    ValidIdsSameEvents(config, claimed, before, ids);
    ValidIdsAreValid(config, before, ids);
    forall id: nat | id < |before|
      ensures FinishedRows(config, claimed, ids, seen, now, delivered)[id]
           == if id in ids then CalledRow(before[id], delivered, config, now) else before[id]
    {
      FinishedCallRow(before, ids, seen, config, now, delivered, id);
    }
  }

  lemma OrderReady(rows: seq<Row>, valid: seq<nat>, order: seq<nat>)
    requires InTable(valid, rows) && forall id :: id in order <==> id in valid
    ensures InTable(order, rows) && Ids(order) == Ids(valid)
  {
    forall i | 0 <= i < |order|
      ensures order[i] < |rows|
    {
      assert order[i] in valid;
    }
  }

  /** For each topic the broker got the accepted ones of its valid rows, in id order. */
  ghost predicate PublishedPerTopic(rows: seq<Row>, valid: seq<nat>, published: seq<nat>, broker: Broker) {
    forall t :: Matching(published, TopicOf(rows), t) == Matching(Matching(valid, TopicOf(rows), t), Accepted(broker), true)
  }

  lemma PublishedMessages(rows: seq<Row>, valid: seq<nat>, order: seq<nat>, broker: Broker)
    requires InTable(order, rows)
    requires forall t :: Matching(order, TopicOf(rows), t) == Matching(valid, TopicOf(rows), t)
    ensures var published := Matching(order, Accepted(broker), true);
            && InTable(published, rows)
            && PublishedPerTopic(rows, valid, published, broker)
            && (broker.Accepts? ==> published == order)
  {
    var published := Matching(order, Accepted(broker), true);
    TakenInTable(rows, order, Accepted(broker));
    if broker.Accepts? {
      MatchingAll(order, Accepted(broker), true);
    }
    forall t
      ensures Matching(published, TopicOf(rows), t) == Matching(Matching(valid, TopicOf(rows), t), Accepted(broker), true)
    {
      MatchingCommutes(order, Accepted(broker), true, TopicOf(rows), t);
    }
  }

  predicate Takes(broker: Broker, id: nat) {
    broker.Accepts? || broker.accepted(id)
  }

  /** The broker got exactly the claimed valid rows it accepts, those of one topic in id order. */
  ghost predicate PublishedExactly(c: Config, rows: seq<Row>, ids: seq<nat>, published: seq<nat>, broker: Broker) {
    && InTable(published, rows)
    && (forall id: nat :: id in published <==> id < |rows| && id in ids && c.isValid(rows[id].event) && Takes(broker, id))
    && forall i, j :: 0 <= i < j < |published| && rows[published[i]].event.topic == rows[published[j]].event.topic ==>
         published[i] < published[j]
  }

  lemma {:induction false} MatchingIncreases<K(!new)>(s: seq<nat>, key: nat -> K, k: K, i: nat, j: nat)
    requires Increasing(Matching(s, key, k)) && i < j < |s| && key(s[i]) == k && key(s[j]) == k
    ensures s[i] < s[j]
    decreases |s|
  {
    var front, last := s[..|s| - 1], |s| - 1;
    var before := Matching(front, key, k);
    assert Increasing(before) by {
      assert forall m :: 0 <= m < |before| ==> Matching(s, key, k)[m] == before[m];
    }
    if j < last {
      MatchingIncreases(front, key, k, i, j);
    } else {
      MatchingMembers(front, key, k);
      assert front[i] in front && s[i] in before;
      var m :| 0 <= m < |before| && before[m] == s[i];
      var all := Matching(s, key, k);
      assert all == before + [s[j]];
      assert all[m] < all[|before|];
    }
  }

  lemma {:induction false} MatchingStaysIncreasing<K(!new)>(s: seq<nat>, key: nat -> K, k: K)
    requires Increasing(s)
    ensures Increasing(Matching(s, key, k))
  {
    if s != [] {
      var front, last := s[..|s| - 1], s[|s| - 1];
      MatchingStaysIncreasing(front, key, k);
      MatchingMembers(front, key, k);
      var before := Matching(front, key, k);
      forall m | 0 <= m < |before|
        ensures before[m] < last
      {
        assert before[m] in before && before[m] in front;
      }
    }
  }

  lemma PublishedIds(c: Config, rows: seq<Row>, ids: seq<nat>, published: seq<nat>, broker: Broker, id: nat)
    requires InTable(ids, rows) && PublishedPerTopic(rows, ValidIds(c, rows, ids), published, broker)
    ensures id in published <==> id < |rows| && id in ids && c.isValid(rows[id].event) && Takes(broker, id)
  {
    var valid, topic := ValidIds(c, rows, ids), TopicOf(rows);
    var t := topic(id);
    assert Matching(published, topic, t) == Matching(Matching(valid, topic, t), Accepted(broker), true);
    ValidIdsAreValid(c, rows, ids);
    MatchingMembers(published, topic, t);
    MatchingMembers(valid, topic, t);
    MatchingMembers(Matching(valid, topic, t), Accepted(broker), true);
    assert id in published <==> id in Matching(published, topic, t);
    assert id in valid <==> id in Matching(valid, topic, t);
  }

  /** What the broker gets topic by topic, as one list. */
  lemma PublishedIsExact(c: Config, rows: seq<Row>, ids: seq<nat>, published: seq<nat>, broker: Broker)
    requires InTable(ids, rows) && Increasing(ids) && InTable(published, rows)
    requires PublishedPerTopic(rows, ValidIds(c, rows, ids), published, broker)
    ensures PublishedExactly(c, rows, ids, published, broker)
  {
    forall id: nat
      ensures id in published <==> id < |rows| && id in ids && c.isValid(rows[id].event) && Takes(broker, id)
    {
      PublishedIds(c, rows, ids, published, broker, id);
    }
    var valid, topic := ValidIds(c, rows, ids), TopicOf(rows);
    ValidIdsAreValid(c, rows, ids);
    forall i, j | 0 <= i < j < |published| && rows[published[i]].event.topic == rows[published[j]].event.topic
      ensures published[i] < published[j]
    {
      var t := topic(published[i]);
      MatchingStaysIncreasing(valid, topic, t);
      MatchingStaysIncreasing(Matching(valid, topic, t), Accepted(broker), true);
      assert Matching(published, topic, t) == Matching(Matching(valid, topic, t), Accepted(broker), true);
      MatchingIncreases(published, topic, t, i, j);
    }
  }

  /** The log grows by one record for each id, with the row's message, in the partition of the row's key. */
  ghost predicate LogGrows(c: Config, rows: seq<Row>, before: seq<Record>, after: seq<Record>, ids: seq<nat>, partitions: string -> nat) {
    && InTable(ids, rows) && |after| == |before| + |ids| && before == after[..|before|]
    && forall i :: 0 <= i < |ids| ==>
         var event := rows[ids[i]].event;
         after[|before| + i].message == c.message(event) && after[|before| + i].partition == partitions(event.aggregateId)
  }

  /** What one call changes: the claimed rows and the end of the log. */
  ghost predicate CallResult(s: State, t: State, ids: seq<nat>, published: seq<nat>, broker: Broker, markFails: bool,
                             partitions: string -> nat)
  {
    && InTable(ids, s.rows) && InTable(published, s.rows)
    && OnlyClaimedChange(s.rows, t.rows, ids, broker.Accepts? && !markFails, s.config, s.now)
    && LogGrows(s.config, s.rows, s.log, t.log, published, partitions)
    && PublishedExactly(s.config, s.rows, ids, published, broker)
  }

  /** The ids are those of due rows, in order, and their attempts have been seen. */
  ghost predicate ClaimedFrom(s: State, ids: seq<nat>, seen: map<nat, nat>) {
    && Increasing(ids) && InTable(ids, s.rows)
    && (forall id :: id in ids ==> id < |s.rows| && Due(s.rows[id], s.now))
    && (forall id :: id in ids ==> id in seen && seen[id] == s.rows[id].attempts)
  }

  lemma FirstDueIsClaimed(s: State, limit: nat)
    ensures var ids := FirstDue(s.rows, s.now, limit);
            ClaimedFrom(s, ids, AttemptsOf(s.rows, ids))
  {
    FirstDueIsDue(s.rows, s.now, limit);
  }

  lemma IdleAgain(relays: seq<Relay>, me: nat, busy: Relay)
    requires me < |relays| && relays[me].Idle?
    ensures relays[me := busy][me := Idle] == relays
  {
  }

  lemma CallSummary(s: State, mid: State, t: State, ids: seq<nat>, seen: map<nat, nat>, published: seq<nat>,
                    broker: Broker, markFails: bool, partitions: string -> nat)
    requires ClaimedFrom(s, ids, seen)
    requires mid.rows == ClaimRows(s.rows, ids, s.now, s.config.leaseMs) && mid.log == s.log
    requires InTable(published, mid.rows)
    requires t.rows == FinishedRows(s.config, mid.rows, ids, seen, s.now, broker.Accepts? && !markFails)
    requires t.log == mid.log + ToRecords(s.config, mid.rows, published, partitions)
    requires PublishedPerTopic(mid.rows, ValidIds(s.config, mid.rows, ids), published, broker)
    ensures CallResult(s, t, ids, published, broker, markFails, partitions)
  {
    FinishedCall(s.rows, ids, seen, s.config, s.now, broker.Accepts? && !markFails);
    PublishedSameEvents(s.config, mid.rows, s.rows, ValidIds(s.config, mid.rows, ids), published, broker, partitions);
    PublishedIsExact(s.config, s.rows, ids, published, broker);
  }

  lemma NothingCalled(s: State, broker: Broker, markFails: bool, partitions: string -> nat)
    ensures CallResult(s, s, [], [], broker, markFails, partitions)
  {
  }

  /** Which rows the claim takes, and that taking them is a step. */
  lemma FirstDueClaims(s: State, me: nat, limit: nat)
    requires me < |s.relays| && s.relays[me].Idle?
    ensures var ids := FirstDue(s.rows, s.now, limit);
            && IsFirstDue(s.rows, s.now, limit, ids) && InTable(ids, s.rows)
            && (ids != [] ==> Enabled(s, Claim(me, ids)))
  {
    FirstDueIsDue(s.rows, s.now, limit);
  }

  function AfterClaim(s: State, me: nat, ids: seq<nat>): State
    requires me < |s.relays|
  {
    if ids == [] then s
    else
      State(s.config, s.now, ClaimRows(s.rows, ids, s.now, s.config.leaseMs), s.log,
            s.relays[me := Busy(Checking, s.now + s.config.leaseMs, ids, [], {}, AttemptsOf(s.rows, ids))])
  }

  lemma ClaimFollows(s: State, me: nat, ids: seq<nat>)
    requires me < |s.relays| && s.relays[me].Idle? && (ids != [] ==> Enabled(s, Claim(me, ids)))
    ensures Follows(s, AfterClaim(s, me, ids))
    ensures AfterClaim(s, me, ids).rows == ClaimRows(s.rows, ids, s.now, s.config.leaseMs)
  {
    Paths.LeadsNowhere(Next, s);
    if ids != [] {
      TakeStep(s, s, Claim(me, ids));
    }
  }

  /** One relay process and the database and broker it talks to. */
  class Process {
    const config: Config
    const me: nat
    var now: int
    var rows: seq<Row>
    var log: seq<Record>
    /** Where each process of the protocol stands. */
    ghost var relays: seq<Relay>

    ghost function Model(): State
      reads this
    {
      State(config, now, rows, log, relays)
    }

    method ClaimOutboxRows(limit: nat) returns (claimed: seq<nat>, seen: map<nat, nat>)
      requires me < |relays| && relays[me].Idle?
      modifies this`rows, this`relays
      ensures claimed == FirstDue(old(rows), now, limit) && IsFirstDue(old(rows), now, limit, claimed)
      ensures InTable(claimed, rows) && rows == ClaimRows(old(rows), claimed, now, config.leaseMs)
      ensures seen == AttemptsOf(old(rows), claimed)
      ensures relays == if claimed == [] then old(relays)
                        else old(relays)[me := Busy(Checking, now + config.leaseMs, claimed, [], {}, seen)]
      ensures Follows(old(Model()), Model())
    {
      claimed := FirstDue(rows, now, limit);
      FirstDueClaims(Model(), me, limit);
      seen := AttemptsOf(rows, claimed);
      ClaimFollows(Model(), me, claimed);
      ghost var after := AfterClaim(Model(), me, claimed);
      if |claimed| > 0 {
        rows := ClaimRows(rows, claimed, now, config.leaseMs);
        relays := relays[me := Busy(Checking, now + config.leaseMs, claimed, [], {}, seen)];
      }
      assert Model() == after;
    }

    method MarkTerminal(id: nat)
      requires id < |rows|
      modifies this`rows
      ensures rows == old(rows)[id := AsTerminal(old(rows)[id], now)]
    {
      if rows[id].deliveredAt.None? {
        rows := rows[id := rows[id].(terminalAt := Some(now))];
      }
    }

    /** One turn of the first loop: an invalid row becomes terminal, a valid one joins the batch. */
    method CheckRow(id: nat, valid: seq<nat>, ghost start: State, ghost k: nat) returns (valid': seq<nat>)
      requires InPhase(start, me, Checking) && InTable(start.relays[me].todo, start.rows) && Increasing(start.relays[me].todo)
      requires k < |start.relays[me].todo| && id == start.relays[me].todo[k]
      requires Model() == Checked(start, me, k) && relays[me].valid == valid
      modifies this`rows, this`relays
      ensures Model() == Checked(start, me, k + 1) && relays[me].valid == valid'
    {
      CheckedOneMore(start, me, k);
      if config.isValid(rows[id].event) {
        valid' := valid + [id];
      } else {
        MarkTerminal(id);
        valid' := valid;
      }
      relays := relays[me := relays[me].(todo := relays[me].todo[1..], valid := valid')];
    }

    /** The first loop of `relayOutboxBatch`. */
    method CheckEach(claimed: seq<nat>) returns (valid: seq<nat>)
      requires InPhase(Model(), me, Checking) && relays[me].todo == claimed && relays[me].valid == []
      requires InTable(claimed, rows) && Increasing(claimed)
      modifies this`rows, this`relays
      ensures Model() == Checked(old(Model()), me, |claimed|)
      ensures valid == relays[me].valid
    {
      valid := [];
      ghost var start := Model();
      CheckedZero(start, me);
      for k := 0 to |claimed|
        invariant Model() == Checked(start, me, k) && relays[me].valid == valid
      {
        valid := CheckRow(claimed[k], valid, start, k);
      }
    }

    method CheckRows(claimed: seq<nat>) returns (valid: seq<nat>)
      requires InPhase(Model(), me, Checking) && relays[me].todo == claimed && relays[me].valid == []
      requires InTable(claimed, rows) && Increasing(claimed)
      modifies this`rows, this`relays
      ensures Follows(old(Model()), Model())
      ensures rows == CheckedRows(config, old(rows), claimed, now)
      ensures relays == old(relays)[me := old(relays[me]).(todo := [], valid := valid)]
      ensures valid == ValidIds(config, old(rows), claimed) && Increasing(valid) && InTable(valid, rows)
      ensures Ids(valid) <= Ids(claimed)
    {
      CheckedBatch(Model(), me);
      valid := CheckEach(claimed);
    }

    /** What the broker takes of one `sendBatch` call, record after record. */
    method SendBatch(order: seq<nat>, accepted: nat -> bool, partitions: string -> nat)
      requires StartsPublishing(Model(), me, order)
      modifies this`log, this`relays
      ensures Model() == Sent(old(Model()), me, order, accepted, partitions, |order|)
    {
      ghost var start := Model();
      SentZero(start, me, order, accepted, partitions);
      for k := 0 to |order|
        invariant Model() == Sent(start, me, order, accepted, partitions, k)
      {
        SentOneMore(start, me, order, accepted, partitions, k);
        if accepted(order[k]) {
          log := log + [Record(partitions(rows[order[k]].event.aggregateId), config.message(rows[order[k]].event))];
          relays := relays[me := relays[me].(left := relays[me].left - {order[k]})];
        }
      }
    }

    /** `markRetry` */
    method MarkRetryRows(ids: seq<nat>, seen: map<nat, nat>)
      requires StartsRetrying(Model(), me, ids) && seen == relays[me].seen
      modifies this`rows, this`relays
      ensures Model() == Retried(old(Model()), me, ids, |ids|)
    {
      ghost var start := Model();
      RetriedZero(start, me, ids);
      for k := 0 to |ids|
        invariant Model() == Retried(start, me, ids, k)
      {
        RetriedOneMore(start, me, ids, k);
        RetriedRowsOneMore(config, start.rows, ids, k, seen, now);
        rows := rows[ids[k] := RetriedRow(config, rows[ids[k]], seen[ids[k]], now)];
        relays := Retried(start, me, ids, k + 1).relays;
      }
    }

    /** Groups the valid rows by topic: the messages in the order they are handed to the broker. */
    method OrderBatches(valid: seq<nat>) returns (order: seq<nat>)
      requires valid != [] && Increasing(valid) && InTable(valid, rows)
      ensures Distinct(order) && InTable(order, rows) && Ids(order) == Ids(valid)
      ensures forall t :: Matching(order, TopicOf(rows), t) == Matching(valid, TopicOf(rows), t)
    {
      var keys, groups := GroupBy(valid, TopicOf(rows));
      FlattenedBatch(valid, TopicOf(rows), keys, groups);
      order := Flatten(keys, groups);
      OrderReady(rows, valid, order);
    }

    /** Hands the batches to the broker. */
    method PublishBatches(valid: seq<nat>, broker: Broker, partitions: string -> nat) returns (published: seq<nat>)
      requires InPhase(Model(), me, Checking) && relays[me].todo == [] && relays[me].valid == valid
      requires valid != [] && Increasing(valid) && InTable(valid, rows)
      modifies this`log, this`relays
      ensures Follows(old(Model()), Model())
      ensures exists left :: relays == old(relays)[me := old(relays[me]).(phase := Publishing, left := left)]
      ensures broker.Accepts? ==> relays[me].left == {}
      ensures InTable(published, rows) && log == old(log) + ToRecords(config, rows, published, partitions)
      ensures PublishedPerTopic(rows, valid, published, broker)
    {
      ghost var start := Model();
      var order := OrderBatches(valid);
      PublishedMessages(rows, valid, order, broker);
      PublishingIsPath(start, me, order, Accepted(broker), partitions);
      relays := relays[me := relays[me].(phase := Publishing, left := Ids(valid))];
      SendBatch(order, Accepted(broker), partitions);
      published := Matching(order, Accepted(broker), true);
    }

    /** The marks after the publication; `markFails` says that recording the delivery throws. */
    method MarkPublished(valid: seq<nat>, seen: map<nat, nat>, acknowledged: bool, markFails: bool)
      requires InPhase(Model(), me, Publishing) && relays[me].valid == valid && relays[me].seen == seen
      requires acknowledged ==> relays[me].left == {}
      requires valid != [] && Increasing(valid) && InTable(valid, rows) && Ids(valid) <= seen.Keys
      modifies this`rows, this`relays
      ensures Follows(old(Model()), Model())
      ensures relays == old(relays)[me := Idle]
      ensures rows == if acknowledged && !markFails then DeliverRows(old(rows), valid, now)
                      else RetriedRows(config, old(rows), valid, seen, now)
    {
      ghost var start := Model();
      Paths.LeadsNowhere(Next, start);
      if acknowledged {
        TakeStep(start, start, Acknowledge(me));
        relays := relays[me := relays[me].(phase := Acked)];
      }
      if acknowledged && !markFails {
        TakeStep(start, Model(), MarkDelivered(me));
        rows := DeliverRows(rows, valid, now);
        relays := relays[me := Idle];
      } else {
        TakeStep(start, Model(), if acknowledged then MarkDeliveredFails(me) else PublishFails(me));
        relays := relays[me := relays[me].(phase := Retrying, left := Ids(valid))];
        ghost var mid := Model();
        RetriedIsPath(mid, me, valid, |valid|);
        assert valid[..|valid|] == valid;
        MarkRetryRows(valid, seen);
        Paths.LeadsTransitive(Next, start, mid, Model());
      }
    }

    /** The publication of a batch with at least one valid row, and its marks. */
    method PublishAndMark(valid: seq<nat>, seen: map<nat, nat>, broker: Broker, markFails: bool, partitions: string -> nat)
      returns (published: seq<nat>)
      requires InPhase(Model(), me, Checking) && relays[me].todo == [] && relays[me].valid == valid && relays[me].seen == seen
      requires valid != [] && Increasing(valid) && InTable(valid, rows) && Ids(valid) <= seen.Keys
      modifies this`rows, this`log, this`relays
      ensures Follows(old(Model()), Model()) && relays == old(relays)[me := Idle]
      ensures rows == if broker.Accepts? && !markFails then DeliverRows(old(rows), valid, now)
                      else RetriedRows(config, old(rows), valid, seen, now)
      ensures InTable(published, old(rows)) && log == old(log) + ToRecords(config, old(rows), published, partitions)
      ensures PublishedPerTopic(old(rows), valid, published, broker)
    {
      ghost var start := Model();
      published := PublishBatches(valid, broker, partitions);
      ghost var afterPublish := Model();
      MarkPublished(valid, seen, broker.Accepts?, markFails);
      Paths.LeadsTransitive(Next, start, afterPublish, Model());
    }

    /** Publishes and marks whatever the checks have left of the batch. */
    method CloseBatch(valid: seq<nat>, seen: map<nat, nat>, broker: Broker, markFails: bool, partitions: string -> nat)
      returns (published: seq<nat>)
      requires InPhase(Model(), me, Checking) && relays[me].todo == [] && relays[me].valid == valid && relays[me].seen == seen
      requires Increasing(valid) && InTable(valid, rows) && Ids(valid) <= seen.Keys
      modifies this`rows, this`log, this`relays
      ensures Follows(old(Model()), Model()) && relays == old(relays)[me := Idle]
      ensures rows == if broker.Accepts? && !markFails then DeliverRows(old(rows), valid, now)
                      else RetriedRows(config, old(rows), valid, seen, now)
      ensures InTable(published, old(rows)) && log == old(log) + ToRecords(config, old(rows), published, partitions)
      ensures PublishedPerTopic(old(rows), valid, published, broker)
    {
      if valid != [] {
        published := PublishAndMark(valid, seen, broker, markFails, partitions);
      } else {
        published := [];
        Paths.LeadsNowhere(Next, Model());
        TakeStep(Model(), Model(), StartPublish(me));
        relays := relays[me := Idle];
        assert rows == DeliverRows(rows, valid, now) == RetriedRows(config, rows, valid, seen, now);
      }
    }

    /** Everything after the claim. */
    method FinishBatch(claimed: seq<nat>, seen: map<nat, nat>, broker: Broker, markFails: bool, partitions: string -> nat)
      returns (published: seq<nat>)
      requires InPhase(Model(), me, Checking) && relays[me].todo == claimed && relays[me].valid == [] && relays[me].seen == seen
      requires InTable(claimed, rows) && Increasing(claimed) && Ids(claimed) <= seen.Keys
      modifies this`rows, this`log, this`relays
      ensures Follows(old(Model()), Model()) && relays == old(relays)[me := Idle]
      ensures InTable(published, old(rows))
      ensures rows == FinishedRows(config, old(rows), claimed, seen, now, broker.Accepts? && !markFails)
      ensures log == old(log) + ToRecords(config, old(rows), published, partitions)
      ensures PublishedPerTopic(old(rows), ValidIds(config, old(rows), claimed), published, broker)
    {
      ghost var start := Model();
      var valid := CheckRows(claimed);
      ghost var afterCheck := Model();
      published := CloseBatch(valid, seen, broker, markFails, partitions);
      Paths.LeadsTransitive(Next, start, afterCheck, Model());
      CheckedSameEvents(config, start.rows, claimed, now);
      PublishedSameEvents(config, afterCheck.rows, start.rows, valid, published, broker, partitions);
    }

    /**
     `relayOutboxBatch`. The call is a path of the protocol; it claims the first
     due rows and leaves each of them delivered, terminal or postponed, touches
     no other row, and hands the broker each topic's valid rows in id order.
     */
    method RelayOutboxBatch(batchSize: nat, broker: Broker, markFails: bool, partitions: string -> nat)
      returns (count: nat, claimed: seq<nat>, published: seq<nat>)
      requires me < |relays| && relays[me].Idle?
      modifies this`rows, this`log, this`relays
      ensures Follows(old(Model()), Model()) && relays == old(relays)
      ensures count == |claimed| && IsFirstDue(old(rows), now, batchSize, claimed)
      ensures CallResult(old(Model()), Model(), claimed, published, broker, markFails, partitions)
    {
      ghost var start := Model();
      FirstDueIsClaimed(start, batchSize);
      var seen;
      claimed, seen := ClaimOutboxRows(batchSize);
      ghost var afterClaim := Model();
      count, published := |claimed|, [];
      if count > 0 {
        IdleAgain(start.relays, me, relays[me]);
        published := FinishBatch(claimed, seen, broker, markFails, partitions);
        Paths.LeadsTransitive(Next, start, afterClaim, Model());
        CallSummary(start, afterClaim, Model(), claimed, seen, published, broker, markFails, partitions);
      } else {
        assert Model() == start;
        NothingCalled(start, broker, markFails, partitions);
      }
    }
  }
}
