/**
 The live bid feed of one product page: a handler that lets an event through
 only if it is newer than all before it.
 */
module LiveFeed {
  import opened Prelude

  /** Sequence and version are decimal strings of any length, compared as integers. */
  datatype Version = Version(sequence: int, version: int)

  datatype Event<P> = Event(productId: int, at: Version, payload: P)

  predicate IsNewer(incoming: Version, previous: Option<Version>) {
    || previous == None
    || incoming.sequence > previous.value.sequence
    || (incoming.sequence == previous.value.sequence && incoming.version > previous.value.version)
  }

  /** Before by sequence, and by version at the same sequence. */
  predicate Before(a: Version, b: Version) {
    a.sequence < b.sequence || (a.sequence == b.sequence && a.version < b.version)
  }

  /** `IsNewer` is the strict total order by sequence and then by version, and anything is newer than nothing. */
  lemma NewerIsOrder(a: Version, b: Version, c: Version)
    ensures IsNewer(a, Some(b)) <==> b.sequence < a.sequence || (b.sequence == a.sequence && b.version < a.version)
    ensures IsNewer(a, None)
    ensures !IsNewer(a, Some(a))
    ensures IsNewer(a, Some(b)) && IsNewer(b, Some(c)) ==> IsNewer(a, Some(c))
    ensures IsNewer(a, Some(b)) || IsNewer(b, Some(a)) || a == b
    ensures !(IsNewer(a, Some(b)) && IsNewer(b, Some(a)))
  {
  }

  predicate Passes<P>(productId: int, latest: Option<Version>, event: Event<P>) {
    event.productId == productId && IsNewer(event.at, latest)
  }

  /** `latest` after these events. */
  function LatestAfter<P>(productId: int, initial: Option<Version>, events: seq<Event<P>>): Option<Version> {
    if events == [] then initial
    else
      var before := LatestAfter(productId, initial, events[..|events| - 1]);
      if Passes(productId, before, events[|events| - 1]) then Some(events[|events| - 1].at) else before
  }

  /** The events handed to `onBid`. */
  function DeliveredAfter<P>(productId: int, initial: Option<Version>, events: seq<Event<P>>): seq<Event<P>> {
    if events == [] then []
    else
      var front := events[..|events| - 1];
      DeliveredAfter(productId, initial, front)
      + if Passes(productId, LatestAfter(productId, initial, front), events[|events| - 1]) then [events[|events| - 1]] else []
  }

  // -------------------------------------------------------------- meaning

  /** By sequence and then by version, `latest` is at least the initial version and that of every event, and it is one of them. */
  ghost predicate IsMaximum<P(!new)>(productId: int, initial: Option<Version>, events: seq<Event<P>>, latest: Option<Version>) {
    && (initial.Some? ==> latest.Some? && (initial.value == latest.value || Before(initial.value, latest.value)))
    && (forall e :: e in events && e.productId == productId ==> latest.Some? && (e.at == latest.value || Before(e.at, latest.value)))
    && (latest == initial || exists e :: e in events && e.productId == productId && latest == Some(e.at))
  }

  /** The final `latest` is the maximum of the initial version and those of all received events of the product. */
  lemma {:induction false} LatestIsMaximum<P(!new)>(productId: int, initial: Option<Version>, events: seq<Event<P>>)
    ensures IsMaximum(productId, initial, events, LatestAfter(productId, initial, events))
  {
    if events != [] {
      var front, last := events[..|events| - 1], events[|events| - 1];
      LatestIsMaximum(productId, initial, front);
      assert events == front + [last];
      var before, latest := LatestAfter(productId, initial, front), LatestAfter(productId, initial, events);
      if latest != initial && !Passes(productId, before, last) {
        var e :| e in front && e.productId == productId && latest == Some(e.at);
        assert e in events;
      }
    }
  }

  /** The two lists bring the same events of the product, in any order and any number of times. */
  ghost predicate SameEvents<P(!new)>(productId: int, a: seq<Event<P>>, b: seq<Event<P>>) {
    forall e: Event<P> :: e.productId == productId ==> (e in a <==> e in b)
  }

  /** Reordered and duplicated events end in the same state. */
  lemma OrderDoesNotMatter<P(!new)>(productId: int, initial: Option<Version>, a: seq<Event<P>>, b: seq<Event<P>>)
    requires SameEvents(productId, a, b)
    ensures LatestAfter(productId, initial, a) == LatestAfter(productId, initial, b)
  {
    LatestIsMaximum(productId, initial, a);
    LatestIsMaximum(productId, initial, b);
    var x, y := LatestAfter(productId, initial, a), LatestAfter(productId, initial, b);
    if x.Some? && y.Some? {
      NewerIsOrder(x.value, y.value, x.value);
    }
  }

  // ------------------------------------------------------------- the chain

  /** Each delivered event is newer than the one before it, the first newer than the initial version, the last is `latest`. */
  lemma {:induction false} DeliveredIncreases<P(!new)>(productId: int, initial: Option<Version>, events: seq<Event<P>>)
    ensures var delivered := DeliveredAfter(productId, initial, events);
            && (forall k :: 0 <= k < |delivered| ==>
                  && delivered[k] in events && delivered[k].productId == productId
                  && (initial.Some? ==> Before(initial.value, delivered[k].at)))
            && (forall j, k :: 0 <= j < k < |delivered| ==> Before(delivered[j].at, delivered[k].at))
            && LatestAfter(productId, initial, events)
               == if delivered == [] then initial else Some(delivered[|delivered| - 1].at)
  {
    if events != [] {
      var front := events[..|events| - 1];
      DeliveredIncreases(productId, initial, front);
      assert events == front + [events[|events| - 1]];
      var before := DeliveredAfter(productId, initial, front);
      assert before != [] && initial.Some? ==> Before(initial.value, before[|before| - 1].at);
    }
  }

  /** An event is let through exactly if it is of the product and newer than the initial version and all received before. */
  lemma DeliveredIffRecord<P(!new)>(productId: int, initial: Option<Version>, events: seq<Event<P>>, event: Event<P>)
    ensures DeliveredAfter(productId, initial, events + [event])
         == DeliveredAfter(productId, initial, events)
          + if && event.productId == productId
               && (initial.Some? ==> Before(initial.value, event.at))
               && (forall e :: e in events && e.productId == productId ==> Before(e.at, event.at))
            then [event] else []
  {
    assert (events + [event])[..|events|] == events;
    LatestIsMaximum(productId, initial, events);
    var latest := LatestAfter(productId, initial, events);
    if IsNewer(event.at, latest) {
      forall e | e in events && e.productId == productId
        ensures Before(e.at, event.at)
      {
        NewerIsOrder(event.at, latest.value, e.at);
      }
    }
  }

  /** If a version names one event, every order and duplication leaves the same event on the page. */
  lemma SameLastEvent<P(!new)>(productId: int, initial: Option<Version>, a: seq<Event<P>>, b: seq<Event<P>>)
    requires SameEvents(productId, a, b)
    requires forall e, f :: e in a && f in a && e.productId == productId && f.productId == productId && e.at == f.at ==> e == f
    ensures var x, y := DeliveredAfter(productId, initial, a), DeliveredAfter(productId, initial, b);
            (x == [] <==> y == []) && (x != [] ==> x[|x| - 1] == y[|y| - 1])
  {
    OrderDoesNotMatter(productId, initial, a, b);
    DeliveredIncreases(productId, initial, a);
    DeliveredIncreases(productId, initial, b);
    var x, y := DeliveredAfter(productId, initial, a), DeliveredAfter(productId, initial, b);
    if x != [] {
      assert initial.Some? ==> Before(initial.value, x[|x| - 1].at);
      assert x[|x| - 1] in a;
    }
    if y != [] {
      assert initial.Some? ==> Before(initial.value, y[|y| - 1].at);
      assert y[|y| - 1] in b;
    }
  }

  // ------------------------------------------------------------ the handlers

  class Feed<P(!new)> {
    const productId: int
    const initial: Option<Version>
    var latest: Option<Version>
    var connectedOnce: bool
    var delivered: seq<Event<P>>
    var joins: nat
    var reconnects: nat
    ghost var received: seq<Event<P>>

    ghost predicate Valid()
      reads this
    {
      && latest == LatestAfter(productId, initial, received)
      && delivered == DeliveredAfter(productId, initial, received)
      && joins == reconnects + (if connectedOnce then 1 else 0)
      && (joins > 0 ==> connectedOnce)
    }

    /** The effect's set-up: both initial values are needed. */
    constructor (productId: int, initialSequence: Option<int>, initialVersion: Option<int>)
      ensures Valid() && received == [] && joins == 0 && this.productId == productId
      ensures initial == if initialSequence.Some? && initialVersion.Some?
                         then Some(Version(initialSequence.value, initialVersion.value)) else None
    {
      this.productId := productId;
      var start := if initialSequence.Some? && initialVersion.Some?
                   then Some(Version(initialSequence.value, initialVersion.value)) else None;
      initial, latest := start, start;
      connectedOnce, delivered, joins, reconnects, received := false, [], 0, 0, [];
    }

    /** `handleBid`: afterwards the page shows the newest of all received versions. */
    method HandleBid(event: Event<P>)
      requires Valid()
      modifies this`latest, this`delivered, this`received
      ensures Valid() && received == old(received) + [event]
      ensures IsMaximum(productId, initial, received, latest)
      ensures delivered == old(delivered)
                           + if && event.productId == productId
                                && (old(latest).Some? ==> Before(old(latest).value, event.at))
                             then [event] else []
    {
      LatestIsMaximum(productId, initial, received + [event]);
      received := received + [event];
      assert received[..|received| - 1] == old(received);
      if event.productId != productId || !IsNewer(event.at, latest) {
        return;
      }
      latest := Some(event.at);
      delivered := delivered + [event];
    }

    /** `handleConnect`: every connect but the first is a reconnect. */
    method HandleConnect()
      requires Valid()
      modifies this`connectedOnce, this`joins, this`reconnects
      ensures Valid() && joins == old(joins) + 1 && reconnects == old(joins)
    {
      joins := joins + 1;
      if connectedOnce {
        reconnects := reconnects + 1;
      }
      connectedOnce := true;
    }
  }
}
