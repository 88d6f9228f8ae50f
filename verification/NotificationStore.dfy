/**
 The database side of notification intake: receipts by event id, email rows by
 (event, recipient, template), the products' notification stamps and the dead
 letters. Each function is one transaction of the source.
 */
module NotificationStore {
  import opened Prelude

  /** Event ids: read from a message, made up for an unreadable one, or made up by the recovery of an auction. */
  datatype EventId = Real(id: string) | Synthetic(log: nat, offset: nat) | Recovery(product: string)

  datatype Status = Retrying | Processed | Terminal

  datatype Receipt = Receipt(status: Status, attempts: int)

  datatype DraftKey = DraftKey(recipient: string, template: string)

  datatype Draft = Draft(key: DraftKey, content: string)

  datatype Email = Email(event: EventId, draft: Draft)

  /**
   `enqueued` and `reopened` are histories: the drafts of each event's first
   successful enqueue, and the terminal events an operator sent round again.
   */
  datatype Db = Db(
    receipts: map<EventId, Receipt>,
    emails: seq<Email>,
    notifiedAt: map<string, int>,
    dlq: seq<EventId>,
    enqueued: map<EventId, seq<Draft>>,
    reopened: seq<EventId>)

  const EMPTY := Db(map[], [], map[], [], map[], [])

  predicate IsSettled(receipts: map<EventId, Receipt>, e: EventId) {
    e in receipts && !receipts[e].status.Retrying?
  }

  function AttemptsIn(receipts: map<EventId, Receipt>, e: EventId): int {
    if e in receipts then receipts[e].attempts else 0
  }

  predicate Settled(db: Db, e: EventId) {
    IsSettled(db.receipts, e)
  }

  predicate HasStatus(db: Db, e: EventId, status: Status) {
    e in db.receipts && db.receipts[e].status == status
  }

  function Attempts(db: Db, e: EventId): int {
    AttemptsIn(db.receipts, e)
  }

  // --------------------------------------------------- email rows

  /** The unique key of the table. */
  predicate HasEmail(emails: seq<Email>, e: EventId, key: DraftKey) {
    exists i :: 0 <= i < |emails| && emails[i].event == e && emails[i].draft.key == key
  }

  /** `createMany` with `skipDuplicates` */
  function InsertDrafts(emails: seq<Email>, e: EventId, drafts: seq<Draft>): seq<Email> {
    if drafts == [] then emails
    else
      var before := InsertDrafts(emails, e, drafts[..|drafts| - 1]);
      var last := drafts[|drafts| - 1];
      if HasEmail(before, e, last.key) then before else before + [Email(e, last)]
  }

  ghost predicate UniqueEmails(emails: seq<Email>) {
    forall i, j :: 0 <= i < j < |emails| ==>
      emails[i].event != emails[j].event || emails[i].draft.key != emails[j].draft.key
  }

  /** The rows of one event, in table order. */
  function EmailsOf(emails: seq<Email>, e: EventId): seq<Email> {
    if emails == [] then []
    else EmailsOf(emails[..|emails| - 1], e) + if emails[|emails| - 1].event == e then [emails[|emails| - 1]] else []
  }

  lemma {:induction false} InsertKeepsUnique(emails: seq<Email>, e: EventId, drafts: seq<Draft>)
    requires UniqueEmails(emails)
    ensures UniqueEmails(InsertDrafts(emails, e, drafts))
  {
    if drafts != [] {
      InsertKeepsUnique(emails, e, drafts[..|drafts| - 1]);
    }
  }

  lemma EmailsOfAppend(emails: seq<Email>, x: Email, e: EventId)
    ensures EmailsOf(emails + [x], e) == EmailsOf(emails, e) + if x.event == e then [x] else []
  {
    assert (emails + [x])[..|emails|] == emails;
  }

  lemma HasEmailAppend(emails: seq<Email>, x: Email, e: EventId, key: DraftKey)
    ensures HasEmail(emails + [x], e, key) <==> HasEmail(emails, e, key) || (x.event == e && x.draft.key == key)
  {
    var more := emails + [x];
    if HasEmail(emails, e, key) {
      var i :| 0 <= i < |emails| && emails[i].event == e && emails[i].draft.key == key;
      assert more[i] == emails[i];
    }
    if x.event == e && x.draft.key == key {
      assert more[|emails|] == x;
    }
  }

  lemma {:induction false} EmailsOfHas(emails: seq<Email>, e: EventId, key: DraftKey)
    ensures HasEmail(EmailsOf(emails, e), e, key) <==> HasEmail(emails, e, key)
  {
    if emails != [] {
      var front, x := emails[..|emails| - 1], emails[|emails| - 1];
      assert emails == front + [x];
      EmailsOfHas(front, e, key);
      EmailsOfAppend(front, x, e);
      HasEmailAppend(front, x, e, key);
      if x.event == e {
        HasEmailAppend(EmailsOf(front, e), x, e, key);
      } else {
        assert EmailsOf(front, e) + [] == EmailsOf(front, e);
      }
    }
  }

  /** An insert touches only its own event's rows, and depends only on them. */
  lemma {:induction false} InsertIsLocal(emails: seq<Email>, e: EventId, drafts: seq<Draft>, f: EventId)
    ensures EmailsOf(InsertDrafts(emails, e, drafts), f)
         == if f == e then InsertDrafts(EmailsOf(emails, e), e, drafts) else EmailsOf(emails, f)
  {
    if drafts != [] {
      var shorter, last := drafts[..|drafts| - 1], drafts[|drafts| - 1];
      InsertIsLocal(emails, e, shorter, f);
      var before := InsertDrafts(emails, e, shorter);
      EmailsOfAppend(before, Email(e, last), f);
      EmailsOfHas(before, e, last.key);
      assert EmailsOf(before, f) + [] == EmailsOf(before, f);
    }
  }

  // ------------------------------------------------- what an insert does

  /** Draft `k` is the first with its key. */
  predicate IsFirst(drafts: seq<Draft>, k: nat) {
    k < |drafts| && forall j :: 0 <= j < k ==> drafts[j].key != drafts[k].key
  }

  /** Some row has the event and the draft's key. */
  ghost predicate IsTaken(emails: seq<Email>, e: EventId, key: DraftKey) {
    exists i :: 0 <= i < |emails| && emails[i].event == e && emails[i].draft.key == key
  }

  /**
   The table after the drafts were inserted: the old rows stay in front, every
   draft's key has a row, and the new rows are those of the first draft of each
   key that was free, in the order of the drafts.
   */
  ghost predicate Inserted(before: seq<Email>, after: seq<Email>, e: EventId, drafts: seq<Draft>) {
    && before <= after
    && (forall k :: 0 <= k < |drafts| ==> IsTaken(after, e, drafts[k].key))
    && (forall i :: |before| <= i < |after| ==> IsNewRow(before, after[i], e, drafts))
    && (forall i, j :: |before| <= i < j < |after| ==> after[i].draft.key != after[j].draft.key)
  }

  ghost predicate IsNewRow(before: seq<Email>, row: Email, e: EventId, drafts: seq<Draft>) {
    && row.event == e && !IsTaken(before, e, row.draft.key)
    && exists k: nat :: IsFirst(drafts, k) && row.draft == drafts[k]
  }

  lemma NewRowStays(before: seq<Email>, row: Email, e: EventId, drafts: seq<Draft>, last: Draft)
    requires IsNewRow(before, row, e, drafts)
    ensures IsNewRow(before, row, e, drafts + [last])
  {
    var k: nat :| IsFirst(drafts, k) && row.draft == drafts[k];
    assert IsFirst(drafts + [last], k);
  }

  lemma TakenStays(emails: seq<Email>, x: Email, e: EventId, key: DraftKey)
    requires IsTaken(emails, e, key)
    ensures IsTaken(emails + [x], e, key)
  {
    HasEmailAppend(emails, x, e, key);
    assert HasEmail(emails, e, key);
    assert HasEmail(emails + [x], e, key);
  }

  lemma InsertedNone(before: seq<Email>, after: seq<Email>, e: EventId, drafts: seq<Draft>, last: Draft)
    requires Inserted(before, after, e, drafts) && IsTaken(after, e, last.key)
    ensures Inserted(before, after, e, drafts + [last])
  {
    forall i | |before| <= i < |after|
      ensures IsNewRow(before, after[i], e, drafts + [last])
    {
      NewRowStays(before, after[i], e, drafts, last);
    }
  }

  lemma InsertedOne(before: seq<Email>, after: seq<Email>, e: EventId, drafts: seq<Draft>, last: Draft)
    requires Inserted(before, after, e, drafts) && !IsTaken(after, e, last.key)
    ensures Inserted(before, after + [Email(e, last)], e, drafts + [last])
  {
    var all, x := drafts + [last], Email(e, last);
    var more := after + [x];
    forall k | 0 <= k < |all|
      ensures IsTaken(more, e, all[k].key)
    {
      if k < |drafts| {
        assert IsTaken(after, e, drafts[k].key);
        TakenStays(after, x, e, drafts[k].key);
      } else {
        assert more[|after|] == x;
      }
    }
    LastIsNew(before, after, e, drafts, last);
    forall i | |before| <= i < |more|
      ensures IsNewRow(before, more[i], e, all)
    {
      if i < |after| {
        assert more[i] == after[i];
        NewRowStays(before, after[i], e, drafts, last);
      }
    }
  }

  lemma LastIsNew(before: seq<Email>, after: seq<Email>, e: EventId, drafts: seq<Draft>, last: Draft)
    requires Inserted(before, after, e, drafts) && !IsTaken(after, e, last.key)
    ensures IsNewRow(before, Email(e, last), e, drafts + [last])
  {
    forall j | 0 <= j < |drafts|
      ensures drafts[j].key != last.key
    {
      assert IsTaken(after, e, drafts[j].key);
    }
    assert IsFirst(drafts + [last], |drafts|);
    assert forall i :: 0 <= i < |before| ==> after[i] == before[i];
  }

  /** `createMany` inserts every draft whose key is free. */
  lemma {:induction false} InsertContents(emails: seq<Email>, e: EventId, drafts: seq<Draft>)
    ensures Inserted(emails, InsertDrafts(emails, e, drafts), e, drafts)
  {
    if drafts != [] {
      var shorter, last := drafts[..|drafts| - 1], drafts[|drafts| - 1];
      InsertContents(emails, e, shorter);
      assert drafts == shorter + [last];
      if IsTaken(InsertDrafts(emails, e, shorter), e, last.key) {
        InsertedNone(emails, InsertDrafts(emails, e, shorter), e, shorter, last);
      } else {
        InsertedOne(emails, InsertDrafts(emails, e, shorter), e, shorter, last);
      }
    }
  }

  /** The rows of the event are exactly those of the first drafts of each key. */
  ghost predicate RowsAreDrafts(emails: seq<Email>, e: EventId, drafts: seq<Draft>) {
    && (forall k :: 0 <= k < |drafts| ==> IsTaken(emails, e, drafts[k].key))
    && forall i :: 0 <= i < |emails| && emails[i].event == e ==> exists k: nat :: IsFirst(drafts, k) && emails[i].draft == drafts[k]
  }

  lemma {:induction false} EmailsOfMembers(emails: seq<Email>, e: EventId, i: nat)
    requires i < |emails| && emails[i].event == e
    ensures emails[i] in EmailsOf(emails, e)
  {
    if i < |emails| - 1 {
      EmailsOfMembers(emails[..|emails| - 1], e, i);
    }
  }

  /** What the invariant says of an event's rows, row by row. */
  lemma RowsOfDrafts(emails: seq<Email>, e: EventId, drafts: seq<Draft>)
    requires EmailsOf(emails, e) == InsertDrafts([], e, drafts)
    ensures RowsAreDrafts(emails, e, drafts)
  {
    var own := EmailsOf(emails, e);
    InsertContents([], e, drafts);
    forall k | 0 <= k < |drafts|
      ensures IsTaken(emails, e, drafts[k].key)
    {
      EmailsOfHas(emails, e, drafts[k].key);
      assert IsTaken(own, e, drafts[k].key);
      assert HasEmail(own, e, drafts[k].key);
    }
    forall i | 0 <= i < |emails| && emails[i].event == e
      ensures exists k: nat :: IsFirst(drafts, k) && emails[i].draft == drafts[k]
    {
      EmailsOfMembers(emails, e, i);
      var j :| 0 <= j < |own| && own[j] == emails[i];
      assert IsNewRow([], own[j], e, drafts);
    }
  }

  lemma NoRows(emails: seq<Email>, e: EventId, i: nat)
    requires EmailsOf(emails, e) == [] && i < |emails|
    ensures emails[i].event != e
  {
    if emails[i].event == e {
      EmailsOfMembers(emails, e, i);
      assert false;
    }
  }

  // -------------------------------------------------------- transactions

  /** The transaction of `enqueueNotificationEvent`; `auction` is the product to stamp, if any. */
  function EnqueueTx(db: Db, e: EventId, auction: Option<string>, drafts: seq<Draft>, now: int): Db {
    if Settled(db, e) then db
    else
      db.(receipts := db.receipts[e := Receipt(Processed, Attempts(db, e) + 1)],
          emails := InsertDrafts(db.emails, e, drafts),
          notifiedAt := if auction.Some? && auction.value !in db.notifiedAt then db.notifiedAt[auction.value := now] else db.notifiedAt,
          enqueued := if e in db.enqueued then db.enqueued else db.enqueued[e := drafts])
  }

  /** What enqueueing an unsettled event does: the receipt, the rows, the auction's stamp if it has none, and nothing else. */
  lemma EnqueueContents(db: Db, e: EventId, auction: Option<string>, drafts: seq<Draft>, now: int)
    requires !Settled(db, e)
    ensures var t := EnqueueTx(db, e, auction, drafts, now);
            && t.receipts == db.receipts[e := Receipt(Processed, (if e in db.receipts then db.receipts[e].attempts else 0) + 1)]
            && Inserted(db.emails, t.emails, e, drafts)
            && (forall product :: product in t.notifiedAt <==> product in db.notifiedAt || auction == Some(product))
            && (forall product :: product in t.notifiedAt ==>
                  t.notifiedAt[product] == if product in db.notifiedAt then db.notifiedAt[product] else now)
            && t.dlq == db.dlq && t.reopened == db.reopened
            && t.enqueued == if e in db.enqueued then db.enqueued else db.enqueued[e := drafts]
  {
    InsertContents(db.emails, e, drafts);
  }

  /** The upsert of the consumer's catch block; it does not look at the old status. */
  function FailureTx(db: Db, e: EventId): Db {
    db.(receipts := db.receipts[e := Receipt(Retrying, Attempts(db, e) + 1)])
  }

  /** `terminalReceipt` */
  function TerminalTx(db: Db, e: EventId, attempts: int): Db {
    db.(receipts := db.receipts[e := Receipt(Terminal, attempts)], dlq := db.dlq + [e])
  }

  /** The operator's retry of a terminal notification event. */
  function ReopenTx(db: Db, e: EventId): Db
    requires HasStatus(db, e, Terminal)
  {
    db.(receipts := db.receipts[e := Receipt(Retrying, db.receipts[e].attempts)], reopened := db.reopened + [e])
  }

  /** A reopened event is unsettled, with its attempts and all its rows kept, and no other event is touched. */
  lemma ReopenContents(db: Db, e: EventId)
    requires HasStatus(db, e, Terminal)
    ensures var t := ReopenTx(db, e);
            && !Settled(t, e) && Attempts(t, e) == Attempts(db, e) && e in t.reopened
            && (forall f :: f != e ==> (f in t.receipts <==> f in db.receipts) && (f in db.receipts ==> t.receipts[f] == db.receipts[f]))
            && t.emails == db.emails && t.notifiedAt == db.notifiedAt && t.dlq == db.dlq && t.enqueued == db.enqueued
  {
  }

  // ---------------------------------------------------------- invariants

  /**
   What holds of one event: its email rows are exactly those of its first
   successful enqueue, it has them exactly when it is processed, and it has one
   dead letter for each time it became terminal.
   */
  ghost predicate EventFine(db: Db, e: EventId) {
    && (e in db.enqueued <==> HasStatus(db, e, Processed))
    && EmailsOf(db.emails, e) == (if e in db.enqueued then InsertDrafts([], e, db.enqueued[e]) else [])
    && (e.Synthetic? ==> e !in db.enqueued)
    && (!e.Synthetic? ==> Count(db.dlq, e) == Count(db.reopened, e) + if HasStatus(db, e, Terminal) then 1 else 0)
  }

  ghost predicate DbFine(db: Db) {
    forall e :: EventFine(db, e)
  }

  lemma EnqueueFine(db: Db, e: EventId, auction: Option<string>, drafts: seq<Draft>, now: int)
    requires DbFine(db) && !e.Synthetic?
    ensures DbFine(EnqueueTx(db, e, auction, drafts, now))
  {
    var t := EnqueueTx(db, e, auction, drafts, now);
    forall f
      ensures EventFine(t, f)
    {
      assert EventFine(db, f) && EventFine(db, e);
      InsertIsLocal(db.emails, e, drafts, f);
    }
  }

  /** The catch block keeps this only for an event that is not settled yet. */
  lemma FailureFine(db: Db, e: EventId)
    requires DbFine(db) && !Settled(db, e)
    ensures DbFine(FailureTx(db, e))
  {
    var t := FailureTx(db, e);
    forall f
      ensures EventFine(t, f)
    {
      assert EventFine(db, f);
    }
  }

  lemma TerminalFine(db: Db, e: EventId, attempts: int)
    requires DbFine(db) && !HasStatus(db, e, Processed) && (HasStatus(db, e, Terminal) ==> e.Synthetic?)
    ensures DbFine(TerminalTx(db, e, attempts))
  {
    var t := TerminalTx(db, e, attempts);
    forall f
      ensures EventFine(t, f)
    {
      assert EventFine(db, f);
      assert f != e ==> HasStatus(t, f, Terminal) == HasStatus(db, f, Terminal) && HasStatus(t, f, Processed) == HasStatus(db, f, Processed);
      TerminalLetters(db, e, attempts, f);
    }
  }

  lemma TerminalLetters(db: Db, e: EventId, attempts: int, f: EventId)
    ensures Count(TerminalTx(db, e, attempts).dlq, f) == Count(db.dlq, f) + if f == e then 1 else 0
  {
    CountAppend(db.dlq, e, f);
  }

  /** Counting a failure keeps the invariant exactly while the event is not settled. */
  lemma FailureExact(db: Db, e: EventId)
    requires DbFine(db) && !e.Synthetic?
    ensures DbFine(FailureTx(db, e)) <==> !Settled(db, e)
  {
    assert EventFine(db, e);
    if Settled(db, e) {
      assert !EventFine(FailureTx(db, e), e);
    } else {
      FailureFine(db, e);
    }
  }

  /** So does giving the event up. */
  lemma TerminalExact(db: Db, e: EventId, attempts: int)
    requires DbFine(db) && !e.Synthetic?
    ensures DbFine(TerminalTx(db, e, attempts)) <==> !Settled(db, e)
  {
    assert EventFine(db, e);
    if Settled(db, e) {
      TerminalLetters(db, e, attempts, e);
      assert !EventFine(TerminalTx(db, e, attempts), e);
    } else {
      TerminalFine(db, e, attempts);
    }
  }

  lemma ReopenFine(db: Db, e: EventId)
    requires DbFine(db) && HasStatus(db, e, Terminal)
    ensures DbFine(ReopenTx(db, e))
  {
    var t := ReopenTx(db, e);
    forall f
      ensures EventFine(t, f)
    {
      assert EventFine(db, f);
      CountAppend(db.reopened, e, f);
    }
  }

  /** A settled event stays settled unless an operator reopens it. */
  ghost predicate Absorbs(db: Db, t: Db) {
    && (forall e :: Settled(db, e) ==> Settled(t, e) || e in t.reopened)
    && (forall e :: e in db.reopened ==> e in t.reopened)
  }
}
