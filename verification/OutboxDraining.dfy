/**
 Draining: one relay, no inserts, successful publications, every open row due.
 Successive calls empty the table batch by batch.
 */
module OutboxDraining {
  import opened Prelude
  import opened Outbox
  import opened OutboxRelay

  function OpenIds(rows: seq<Row>): set<nat> {
    set id: nat | id < |rows| && rows[id].Open()
  }

  function Pending(rows: seq<Row>): nat {
    |OpenIds(rows)|
  }

  ghost predicate AllDue(rows: seq<Row>, now: int) {
    forall i :: 0 <= i < |rows| && rows[i].Open() ==> Due(rows[i], now)
  }

  /** The claim takes as many open rows as the batch size allows. */
  lemma ClaimSize(rows: seq<Row>, now: int, limit: nat)
    requires AllDue(rows, now)
    ensures |FirstDue(rows, now, limit)| == Min(limit, Pending(rows))
    ensures Ids(FirstDue(rows, now, limit)) <= OpenIds(rows)
  {
    DueIdsAreDue(rows, now);
    IncreasingSize(DueIds(rows, now));
    assert Ids(DueIds(rows, now)) == OpenIds(rows);
    forall id | id in FirstDue(rows, now, limit)
      ensures id in DueIds(rows, now)
    {
    }
  }

  lemma DifferenceSize<T>(a: set<T>, b: set<T>)
    requires b <= a
    ensures |a - b| == |a| - |b|
  {
    assert (a - b) + b == a;
  }

  /** One successful call removes exactly the rows it claims from the pending set. */
  lemma CallDrains(before: seq<Row>, after: seq<Row>, limit: nat, config: Config, now: int)
    requires AllDue(before, now)
    requires OnlyClaimedChange(before, after, FirstDue(before, now, limit), true, config, now)
    ensures Pending(after) == Pending(before) - Min(limit, Pending(before))
    ensures forall later :: later >= now ==> AllDue(after, later)
  {
    var ids := FirstDue(before, now, limit);
    FirstDueIsDue(before, now, limit);
    ClaimSize(before, now, limit);
    IncreasingSize(ids);
    assert OpenIds(after) == OpenIds(before) - Ids(ids);
    DifferenceSize(OpenIds(before), Ids(ids));
  }

  /** A run of successful calls at growing times, `tables[k]` being the table after `k` calls. */
  ghost predicate IsDrainRun(tables: seq<seq<Row>>, times: seq<int>, limit: nat, config: Config) {
    && |tables| == |times| + 1
    && (forall i, j :: 0 <= i <= j < |times| ==> times[i] <= times[j])
    && (forall k :: 0 <= k < |times| ==>
          OnlyClaimedChange(tables[k], tables[k + 1], FirstDue(tables[k], times[k], limit), true, config, times[k]))
  }

  ghost predicate ClosedByValidity(c: Config, before: Row, after: Row) {
    && after.event == before.event
    && (before.Open() ==> after.deliveredAt.Some? == c.isValid(before.event) && after.terminalAt.Some? == !c.isValid(before.event))
  }

  lemma {:induction false} DrainRun(tables: seq<seq<Row>>, times: seq<int>, limit: nat, config: Config, k: nat)
    requires IsDrainRun(tables, times, limit, config) && k <= |times|
    requires |times| > 0 ==> AllDue(tables[0], times[0])
    ensures Pending(tables[k]) == Max(0, Pending(tables[0]) - k * limit)
    ensures k < |times| ==> AllDue(tables[k], times[k])
  {
    if k > 0 {
      DrainRun(tables, times, limit, config, k - 1);
      assert OnlyClaimedChange(tables[k - 1], tables[k - 1 + 1], FirstDue(tables[k - 1], times[k - 1], limit), true, config, times[k - 1]);
      CallDrains(tables[k - 1], tables[k], limit, config, times[k - 1]);
      assert k * limit == (k - 1) * limit + limit;
    }
  }

  /** Until it is closed, a row is left alone; it closes as its validity says and stays closed. */
  lemma {:induction false} DrainRow(tables: seq<seq<Row>>, times: seq<int>, limit: nat, config: Config, k: nat, i: nat)
    requires IsDrainRun(tables, times, limit, config) && k <= |times| && i < |tables[0]|
    ensures |tables[k]| == |tables[0]|
    ensures tables[k][i] == tables[0][i] || (tables[0][i].Open() && !tables[k][i].Open() && ClosedByValidity(config, tables[0][i], tables[k][i]))
  {
    if k > 0 {
      DrainRow(tables, times, limit, config, k - 1, i);
      assert OnlyClaimedChange(tables[k - 1], tables[k - 1 + 1], FirstDue(tables[k - 1], times[k - 1], limit), true, config, times[k - 1]);
      DueIdsAreDue(tables[k - 1], times[k - 1]);
      if i in FirstDue(tables[k - 1], times[k - 1], limit) {
        assert i in DueIds(tables[k - 1], times[k - 1]);
      }
    }
  }

  /**
   N pending rows are all delivered or terminal after ceil(N / batchSize)
   calls, valid rows delivered and invalid ones terminal, and the next call
   claims nothing.
   */
  lemma Draining(tables: seq<seq<Row>>, times: seq<int>, limit: nat, config: Config, k: nat, later: int)
    requires IsDrainRun(tables, times, limit, config) && k <= |times| && limit > 0
    requires |times| > 0 ==> AllDue(tables[0], times[0])
    requires k * limit >= Pending(tables[0])
    ensures forall i :: 0 <= i < |tables[0]| && tables[0][i].Open() ==>
              |tables[k]| == |tables[0]| && ClosedByValidity(config, tables[0][i], tables[k][i])
    ensures FirstDue(tables[k], later, limit) == []
  {
    DrainRun(tables, times, limit, config, k);
    assert OpenIds(tables[k]) == {};
    forall i | 0 <= i < |tables[0]| && tables[0][i].Open()
      ensures |tables[k]| == |tables[0]| && ClosedByValidity(config, tables[0][i], tables[k][i])
    {
      DrainRow(tables, times, limit, config, k, i);
      assert i !in OpenIds(tables[k]);
    }
    forall i | 0 <= i < |tables[k]|
      ensures !tables[k][i].Open()
    {
      assert i !in OpenIds(tables[k]);
    }
    ClaimSize(tables[k], later, limit);
  }
}
