/**
 The dashboard consumer's handling of one message: a receipt counted on every
 try, a loop that ends with the receipt processed or terminal, and one dead
 letter per event.
 */
module DashboardWorker {
  import opened Prelude
  import opened NotificationStore

  /** A Kafka message as the worker sees it. */
  datatype Message = NoValue | Unreadable(log: nat, offset: nat) | Event(id: string)

  /** Receipts, and the `async.consumer_terminal.v1` outbox rows by the event that caused them. */
  datatype Table = Table(receipts: map<EventId, Receipt>, letters: seq<EventId>)

  function KeyOf(message: Message): EventId
    requires !message.NoValue?
  {
    match message
    case Unreadable(log, offset) => Synthetic(log, offset)
    case Event(id) => Real(id)
  }

  function WithReceipt(t: Table, e: EventId, r: Receipt): Table {
    t.(receipts := t.receipts[e := r])
  }

  /** `recordDashboardTerminal`: the dead letter is written only if the event has none. */
  function RecordTerminal(t: Table, e: EventId, attempts: int): Table {
    Table(t.receipts[e := Receipt(Terminal, attempts)], if e in t.letters then t.letters else t.letters + [e])
  }

  /** The tries left after the one that is made with this attempt count. */
  function RetriesLeft(attempts: int, retryLimit: int): nat {
    Max(0, retryLimit - attempts)
  }

  /** The first successful one of the first `n` tries, or `n`. */
  function FirstSuccess(completes: nat -> bool, n: nat): (k: nat)
    ensures k <= n
    ensures k < n ==> completes(k)
    ensures forall i :: 0 <= i < k ==> !completes(i)
  {
    if n == 0 then 0
    else
      var k := FirstSuccess(completes, n - 1);
      if k < n - 1 || completes(n - 1) then k else n
  }

  /** After at most `most` tries, of which `k` failed, the first with the attempt count `start`. */
  function Tried(t: Table, e: EventId, start: int, most: nat, k: nat): Table {
    if k < most then WithReceipt(t, e, Receipt(Processed, start + k))
    else RecordTerminal(t, e, start + most - 1)
  }

  /**
   What one call does to the table: `completes(k)` says whether try `k` of the
   dashboard receipt succeeds.
   */
  function Handled(t: Table, retryLimit: int, message: Message, completes: nat -> bool): Table {
    match message
    case NoValue => t
    case Unreadable(_, _) => RecordTerminal(t, KeyOf(message), retryLimit)
    case Event(_) =>
      var e := KeyOf(message);
      if IsSettled(t.receipts, e) then t
      else
        var start := AttemptsIn(t.receipts, e) + 1;
        var most := RetriesLeft(start, retryLimit) + 1;
        Tried(t, e, start, most, FirstSuccess(completes, most))
  }

  class Worker {
    const retryLimit: int
    var receipts: map<EventId, Receipt>
    var letters: seq<EventId>

    function Store(): Table
      reads this
    {
      Table(receipts, letters)
    }

    /** `receiptAttempts`: counts the try and puts the receipt to retrying. */
    method ReceiptAttempts(e: EventId) returns (attempts: int)
      modifies this`receipts
      ensures attempts == AttemptsIn(old(Store()).receipts, e) + 1
      ensures receipts == old(receipts)[e := Receipt(Retrying, attempts)]
    {
      attempts := AttemptsIn(receipts, e) + 1;
      receipts := receipts[e := Receipt(Retrying, attempts)];
    }

    method RecordDashboardTerminal(e: EventId, attempts: int)
      modifies this`receipts, this`letters
      ensures Store() == RecordTerminal(old(Store()), e, attempts)
    {
      receipts := receipts[e := Receipt(Terminal, attempts)];
      if e !in letters {
        letters := letters + [e];
      }
    }

    /** One turn of the retry loop, which is over if the try succeeds or was the last. */
    method Try(e: EventId, attempts: int, completes: bool, ghost before: Table) returns (over: bool, next: int)
      requires Store() == WithReceipt(before, e, Receipt(Retrying, attempts))
      modifies this`receipts, this`letters
      ensures over == (completes || attempts >= retryLimit)
      ensures completes ==> Store() == WithReceipt(before, e, Receipt(Processed, attempts))
      ensures !completes && over ==> Store() == RecordTerminal(before, e, attempts)
      ensures !over ==> next == attempts + 1 && Store() == WithReceipt(before, e, Receipt(Retrying, next))
    {
      over, next := true, attempts;
      if completes {
        receipts := receipts[e := Receipt(Processed, attempts)];
      } else if attempts >= retryLimit {
        RecordDashboardTerminal(e, attempts);
      } else {
        over := false;
        next := ReceiptAttempts(e);
      }
    }

    /** The retry loop: it ends at the first success, or terminal when the attempts reach the limit. */
    method RetryUntilSettled(e: EventId, completes: nat -> bool) returns (tries: nat)
      modifies this`receipts, this`letters
      ensures var start := AttemptsIn(old(Store()).receipts, e) + 1;
              var most := RetriesLeft(start, retryLimit) + 1;
              && 1 <= tries <= most
              && Store() == Tried(old(Store()), e, start, most, FirstSuccess(completes, most))
    {
      ghost var before := Store();
      var attempts := ReceiptAttempts(e);
      ghost var start, most := attempts, RetriesLeft(attempts, retryLimit) + 1;
      var over := false;
      tries := 0;
      while !over
        invariant !over ==> tries <= FirstSuccess(completes, most) && tries < most && attempts == start + tries
        invariant !over ==> Store() == WithReceipt(before, e, Receipt(Retrying, attempts))
        invariant over ==> 1 <= tries <= most && Store() == Tried(before, e, start, most, FirstSuccess(completes, most))
        decreases !over, most - tries
      {
        FirstSuccessHere(completes, most, tries);
        over, attempts := Try(e, attempts, completes(tries), before);
        tries := tries + 1;
      }
    }

    /**
     `processMessage` without a stop: a message with no value throws and changes
     nothing; otherwise the loop ends after at most
     max(1, retryLimit - startAttempts + 1) tries, with the receipt settled.
     */
    method ProcessMessage(message: Message, completes: nat -> bool) returns (thrown: bool, tries: nat)
      modifies this`receipts, this`letters
      ensures thrown == message.NoValue?
      ensures Store() == Handled(old(Store()), retryLimit, message, completes)
      ensures message.Event? && !IsSettled(old(Store()).receipts, KeyOf(message)) ==>
                1 <= tries <= Max(1, retryLimit - (AttemptsIn(old(Store()).receipts, KeyOf(message)) + 1) + 1)
      ensures !thrown ==> IsSettled(Store().receipts, KeyOf(message))
    {
      thrown, tries := message.NoValue?, 0;
      if message.NoValue? {
        return;
      }
      var e := KeyOf(message);
      if message.Unreadable? {
        RecordDashboardTerminal(e, retryLimit);
        return;
      }
      if IsSettled(receipts, e) {
        return;
      }
      tries := RetryUntilSettled(e, completes);
    }
  }

  lemma FirstSuccessHere(completes: nat -> bool, n: nat, i: nat)
    requires i < n && i <= FirstSuccess(completes, n)
    ensures completes(i) <==> i == FirstSuccess(completes, n)
  {
    assert i < FirstSuccess(completes, n) ==> !completes(i);
  }

  // ------------------------------------------------ any run of deliveries

  datatype Delivery = Delivery(message: Message, completes: nat -> bool)

  /** The table after a run of deliveries, one message at a time, duplicates included. */
  function AfterAll(t: Table, retryLimit: int, deliveries: seq<Delivery>): Table {
    if deliveries == [] then t
    else
      var last := deliveries[|deliveries| - 1];
      Handled(AfterAll(t, retryLimit, deliveries[..|deliveries| - 1]), retryLimit, last.message, last.completes)
  }

  /** One dead letter per event, and only for terminal ones. */
  ghost predicate LettersFine(t: Table) {
    && (forall i, j :: 0 <= i < j < |t.letters| ==> t.letters[i] != t.letters[j])
    && (forall e :: e in t.letters <==> e in t.receipts && t.receipts[e].status.Terminal?)
  }

  lemma HandledKeepsLetters(t: Table, retryLimit: int, d: Delivery)
    requires LettersFine(t)
    ensures LettersFine(Handled(t, retryLimit, d.message, d.completes))
  {
  }

  /** In every run of deliveries an event has a dead letter exactly when it is terminal, and never two. */
  lemma {:induction false} OneLetterPerEvent(retryLimit: int, deliveries: seq<Delivery>)
    ensures LettersFine(AfterAll(Table(map[], []), retryLimit, deliveries))
  {
    if deliveries != [] {
      var last := |deliveries| - 1;
      OneLetterPerEvent(retryLimit, deliveries[..last]);
      HandledKeepsLetters(AfterAll(Table(map[], []), retryLimit, deliveries[..last]), retryLimit, deliveries[last]);
    }
  }

  /** Processed and terminal are absorbing: no later delivery changes a settled event's receipt, readable or not. */
  lemma {:induction false} SettledStays(t: Table, retryLimit: int, deliveries: seq<Delivery>, e: EventId)
    requires IsSettled(t.receipts, e) && (e.Synthetic? ==> t.receipts[e] == Receipt(Terminal, retryLimit))
    ensures var u := AfterAll(t, retryLimit, deliveries); e in u.receipts && u.receipts[e] == t.receipts[e]
  {
    if deliveries != [] {
      SettledStays(t, retryLimit, deliveries[..|deliveries| - 1], e);
    }
  }

  /** Every event delivered at least once is settled at the end of the run. */
  lemma {:induction false} DeliveredIsSettled(retryLimit: int, deliveries: seq<Delivery>, k: nat)
    requires k < |deliveries| && !deliveries[k].message.NoValue?
    ensures IsSettled(AfterAll(Table(map[], []), retryLimit, deliveries).receipts, KeyOf(deliveries[k].message))
    decreases |deliveries|
  {
    var last := |deliveries| - 1;
    if k < last {
      DeliveredIsSettled(retryLimit, deliveries[..last], k);
    }
  }
}
